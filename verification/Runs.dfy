/** Whole runs of the node: what every call, in any order, keeps. */
module Runs {
  import opened Ledger
  import opened Chain
  import opened MemPool
  import opened PoolSteps
  import opened Reorg
  import opened Transit
  import opened MainSteps
  import opened Branches
  import opened Switching
  import opened Forecast
  import opened Nesting

  ghost function TipWork(s: State): nat
    requires s.main != []
  {
    Last(s.main).node.work
  }

  // ---------- what the work and the ids do ----------

  /** The rule agrees wherever offering `b` beside the main chain asks it; see `Lwma` for when it does. */
  ghost predicate Level(r: Rules, s: State, b: Block)
    requires s.main != []
  {
    var p := PlaceAlt(r, s, b);
    && Agrees(r, s, b)
    && (p.outcome == Heavier ==> OldSteady(r, s, ForkOf(p.branch), b.height + 1))
  }

  /** What offering a block promises. */
  ghost predicate Offered(r: Rules, g: Record, s: State, st: Step, now: nat) {
    && Sane(r, g, st.state, now) && NothingLost(s, st.state)
    && s.main != [] && st.state.main != [] && TipWork(s) <= TipWork(st.state)
    && st.verdict != Nested
    && (st.verdict == Switched ==> TipWork(s) < TipWork(st.state))
    && (st.verdict == RolledBack ==> st.state.main == s.main)
  }

  /** A heavier branch goes on, but the difficulty behind it is not defined. */
  ghost predicate Torn(r: Rules, g: Record, s: State, f: nat, alts: seq<Node>, now: nat) {
    && alts != [] && 1 <= f <= |s.main|
    && Joinable(r, g, s, f, alts, now) && !BranchDefined(r, s, f, alts)
  }

  /** Height at which a branch leaves the main chain. */
  function ForkOf(alts: seq<Node>): nat { if alts == [] then 0 else alts[0].block.height }

  /** A block of the branch is refused for its inputs, and the difficulty after the main chain is not defined. */
  ghost predicate Stained(r: Rules, g: Record, s: State, f: nat, alts: seq<Node>, now: nat) {
    && alts != [] && 1 <= f <= |s.main|
    && !NextDefined(r, s.main) && Marks(r, g, PopTo(r, s, f, now), Blocks(alts), now)
  }

  /** Trying the branch leaves a block in two places. */
  ghost predicate Mixed(r: Rules, g: Record, s: State, f: nat, alts: seq<Node>, now: nat) {
    Torn(r, g, s, f, alts, now) || Stained(r, g, s, f, alts, now)
  }

  ghost predicate ApartIff(r: Rules, s: State, mixed: bool, t: State) {
    IdsApart(r, s) ==> (IdsApart(r, t) <==> !mixed)
  }

  /** What offering a block promises of chain, pool, work and ids. */
  ghost predicate Settled(r: Rules, g: Record, s: State, mixed: bool, st: Step, now: nat) {
    Offered(r, g, s, st, now) && ApartIff(r, s, mixed, st.state)
  }

  lemma {:induction false} OfferedSame(r: Rules, g: Record, s: State, v: Verdict, now: nat)
    requires Sane(r, g, s, now) && v != Nested && v != Switched
    ensures Offered(r, g, s, Step(s, v), now)
  {
    SamePoolSafe(s, s, s);
  }

  lemma {:induction false} FindPush(r: Rules, c: seq<Record>, x: Record, h: Hash)
    ensures InMain(r, c + [x], h) <==> InMain(r, c, h) || h == r.hash(x.node.block)
  {
    var d := c + [x];
    var k := Find(r, d, h);
    if k < |c| { assert d[k] == c[k]; }
    if InMain(r, c, h) { assert d[Find(r, c, h)] == c[Find(r, c, h)]; }
    assert d[|c|] == x;
  }

  lemma {:induction false} GrownApart(r: Rules, s: State, t: State, x: Record)
    requires IdsApart(r, s) && t.main == s.main + [x] && t.alt == s.alt && t.invalid == s.invalid
    requires !HaveBlock(r, s, r.hash(x.node.block))
    ensures IdsApart(r, t)
  {
    forall h | h in t.alt ensures !InMain(r, t.main, h) && h !in t.invalid {
      FindPush(r, s.main, x, h);
    }
  }

  lemma {:induction false} UnchangedApart(r: Rules, s: State, t: State, b: Block)
    requires IdsApart(r, s) && t.main == s.main && t.alt == s.alt
    requires t.invalid <= s.invalid + {r.hash(b)} && !HaveBlock(r, s, r.hash(b))
    ensures IdsApart(r, t)
  {
    forall i | 0 <= i < |t.main| ensures r.hash(t.main[i].node.block) !in t.invalid {
      assert InMain(r, s.main, r.hash(s.main[i].node.block));
    }
  }

  lemma {:induction false} GrownWork(r: Rules, s: State, b: Block, now: nat, st: Step, x: Record)
    requires s.main != [] && Grown(r, s, b, now, st, x)
    ensures TipWork(s) < TipWork(st.state)
  {
    FitsExtends(r, s.main, x, now);
    assert Last(Nodes(s.main)) == Last(s.main).node;
    assert Last(s.main + [x]) == x;
  }

  lemma {:induction false} MainOffered(r: Rules, g: Record, s: State, b: Block, now: nat)
    requires Sane(r, g, s, now) && !HaveBlock(r, s, r.hash(b))
    ensures Settled(r, g, s, false, HandleMain(r, s, b, now), now)
  {
    var st := HandleMain(r, s, b, now);
    var x := MainKeeps(r, g, s, b, now);
    if IdsApart(r, s) { MainApart(r, g, s, b, st, x, now); }
    if !Unchanged(r, s, b, st) { GrownWork(r, s, b, now, st, x); }
  }

  lemma {:induction false} MainApart(r: Rules, g: Record, s: State, b: Block, st: Step, x: Record, now: nat)
    requires s.main != [] && IdsApart(r, s) && !HaveBlock(r, s, r.hash(b)) && (Unchanged(r, s, b, st) || Grown(r, s, b, now, st, x))
    ensures IdsApart(r, st.state)
  {
    if Unchanged(r, s, b, st) { UnchangedApart(r, s, st.state, b); } else { GrownApart(r, s, st.state, x); }
  }

  // ---------- beside the main chain ----------

  lemma {:induction false} PlacedSane(r: Rules, g: Record, s: State, b: Block, p: Placed, x: Node, now: nat)
    requires Sane(r, g, s, now) && !HaveBlock(r, s, r.hash(b)) && PlacedAs(r, g.node, s, b, p, x)
    ensures Sane(r, g, p.state, now) && NothingLost(s, p.state) && (IdsApart(r, s) ==> IdsApart(r, p.state))
  {
    PlacedOk(r, g.node, s, b, p, x);
    SamePoolSafe(s, s, p.state);
  }

  lemma {:induction false} PlacedIsBranch(r: Rules, g: Record, s: State, b: Block, p: Placed, x: Node)
    requires s.main != [] && AltOk(r, g.node, s.alt) && PlacedAs(r, g.node, s, b, p, x) && r.hash(b) !in s.alt
    requires b.height == AltHeight(r, s.main, BuildAlt(s.alt, b.prev), b.prev)
    ensures IsBranch(r, g, p.state, p.branch)
  {
    var alts := BuildAlt(s.alt, b.prev);
    BuildAltLinked(r, g.node, s.alt, b.prev);
    var f := p.branch[0].block.height;
    assert Nodes(s.main)[..f] + p.branch == ParentChain(r, s.main, alts, b.prev) + [x];
  }

  /** A branch leaves the main chain below its tip, and ends one height above its last block. */
  lemma {:induction false} PlacedFork(r: Rules, g: Record, s: State, b: Block, p: Placed, x: Node)
    requires s.main != [] && IsGenesis(g) && PlacedAs(r, g.node, s, b, p, x) && b.prev != TipHash(r, s)
    requires IsBranch(r, g, p.state, p.branch)
    requires b.height == AltHeight(r, s.main, BuildAlt(s.alt, b.prev), b.prev)
    ensures p.branch[0].block.height < |s.main|
    ensures p.branch[0].block.height + |p.branch| == b.height + 1
  {
    var c := Nodes(s.main)[..p.branch[0].block.height] + p.branch;
    PathHeight(r, g.node, c);
    assert Last(c) == Last(p.branch) == x;
    if BuildAlt(s.alt, b.prev) == [] {
      assert p.branch[0] == x;
      assert Find(r, s.main, b.prev) < |s.main| - 1;
    }
  }

  lemma {:induction false} DoneOffered(r: Rules, g: Record, s: State, f: nat, alts: seq<Node>, st: Step, mixed: bool, now: nat)
    requires Sane(r, g, s, now) && Done(r, g, s, f, alts, st, now) && !mixed
    ensures Settled(r, g, s, mixed, st, now)
  {
  }

  lemma {:induction false} JoinedOffered(r: Rules, g: Record, s: State, f: nat, alts: seq<Node>, st: Step, mixed: bool, now: nat)
    requires Challenges(r, g, s, f, alts, now) && !mixed
    requires Joinable(r, g, s, f, alts, now) && BranchDefined(r, s, f, alts)
    requires st == Switch(r, s, alts, now)
    ensures Settled(r, g, s, mixed, st, now)
  {
    SwitchDone(r, g, s, f, alts, st, now);
    DoneOffered(r, g, s, f, alts, st, mixed, now);
  }

  lemma {:induction false} ThrownOffered(r: Rules, g: Record, s: State, f: nat, alts: seq<Node>, st: Step, mixed: bool, now: nat)
    requires Challenges(r, g, s, f, alts, now) && mixed
    requires Joinable(r, g, s, f, alts, now) && !BranchDefined(r, s, f, alts)
    requires st == Switch(r, s, alts, now)
    ensures Settled(r, g, s, mixed, st, now)
  {
    SwitchThrown(r, g, s, f, alts, st, now);
  }

  lemma {:induction false} RefusedOffered(r: Rules, g: Record, s: State, f: nat, alts: seq<Node>, st: Step, mixed: bool, now: nat)
    requires Challenges(r, g, s, f, alts, now)
    requires !Joinable(r, g, s, f, alts, now) && mixed == Stained(r, g, s, f, alts, now)
    requires st == Switch(r, s, alts, now) && Attempt(r, s, f, alts, now).verdict == Rejected
    ensures Settled(r, g, s, mixed, st, now)
  {
    if NextDefined(r, s.main) {
      SwitchUndone(r, g, s, f, alts, st, now);
      OldSettled(r, g, s, st, mixed, now);
    } else {
      StrandedOffered(r, g, s, f, alts, st, mixed, Attempt(r, s, f, alts, now), now);
    }
  }

  lemma {:induction false} StrandedOffered(r: Rules, g: Record, s: State, f: nat, alts: seq<Node>, st: Step, mixed: bool, c: Connection, now: nat)
    requires Sane(r, g, s, now) && IsBranch(r, g, s, alts) && f == alts[0].block.height < |s.main| && !NextDefined(r, s.main)
    requires !Joinable(r, g, s, f, alts, now) && mixed == Stained(r, g, s, f, alts, now)
    requires st == Switch(r, s, alts, now) && c == Attempt(r, s, f, alts, now) && c.verdict == Rejected
    ensures Settled(r, g, s, mixed, st, now)
  {
    SwitchStranded(r, g, s, f, alts, st, now);
    if IdsApart(r, s) { StainsIff(r, g, s, f, alts, c, now); }
    OldSettled(r, g, s, st, mixed, now);
  }

  lemma {:induction false} OldSettled(r: Rules, g: Record, s: State, st: Step, mixed: bool, now: nat)
    requires s.main != [] && st.state.main == s.main && Sane(r, g, st.state, now) && NothingLost(s, st.state)
    requires st.verdict != Nested && st.verdict != Switched
    requires IdsApart(r, s) ==> (IdsApart(r, st.state) <==> !mixed)
    ensures Settled(r, g, s, mixed, st, now)
  {
  }

  /** A refused branch leaves a new mark exactly when some block of it is marked. */
  lemma {:induction false} StainsIff(r: Rules, g: Record, s: State, f: nat, alts: seq<Node>, c: Connection, now: nat)
    requires Healthy(r, g, s, now) && IdsApart(r, s) && AllStored(r, s.alt, alts) && 1 <= f <= |s.main|
    requires c == Attempt(r, s, f, alts, now) && c.verdict == Rejected
    ensures c.state.invalid != s.invalid <==> Marks(r, g, PopTo(r, s, f, now), Blocks(alts), now)
  {
    PopToKeeps(r, g, s, f, now);
    var bs := Blocks(alts);
    forall i | 0 <= i < |bs| ensures r.hash(bs[i]) !in s.invalid { assert r.hash(alts[i].block) in s.alt; }
    RefusedMarksIff(r, g, PopTo(r, s, f, now), bs, c, now);
  }

  lemma {:induction false} NotStained(r: Rules, g: Record, s: State, f: nat, alts: seq<Node>, now: nat)
    requires Healthy(r, g, s, now) && 1 <= f <= |s.main| && Attempt(r, s, f, alts, now).verdict != Rejected
    ensures !Stained(r, g, s, f, alts, now)
  {
    PopToKeeps(r, g, s, f, now);
    if Marks(r, g, PopTo(r, s, f, now), Blocks(alts), now) { MarksRefused(r, g, PopTo(r, s, f, now), Blocks(alts), now); }
  }

  lemma {:induction false} HeavierOffered(r: Rules, g: Record, s: State, f: nat, alts: seq<Node>, st: Step, mixed: bool, now: nat)
    requires Challenges(r, g, s, f, alts, now)
    requires st == Switch(r, s, alts, now) && mixed == Mixed(r, g, s, f, alts, now)
    ensures Settled(r, g, s, mixed, st, now)
  {
    JoinableIff(r, g, s, f, alts, now);
    if Joinable(r, g, s, f, alts, now) { NotStained(r, g, s, f, alts, now); }
    if !Joinable(r, g, s, f, alts, now) {
      RefusedOffered(r, g, s, f, alts, st, mixed, now);
    } else if BranchDefined(r, s, f, alts) {
      JoinedOffered(r, g, s, f, alts, st, mixed, now);
    } else {
      ThrownOffered(r, g, s, f, alts, st, mixed, now);
    }
  }

  /** A branch that is ready to be switched to. */
  ghost predicate Challenges(r: Rules, g: Record, s: State, f: nat, alts: seq<Node>, now: nat) {
    && Sane(r, g, s, now) && IsBranch(r, g, s, alts) && s.main != [] && Last(s.main).node.work < Last(alts).work
    && f == alts[0].block.height < |s.main| && OldSteady(r, s, f, f + |alts|)
  }

  lemma {:induction false} SettledAfter(r: Rules, g: Record, s: State, t: State, mixed: bool, st: Step, now: nat)
    requires Settled(r, g, t, mixed, st, now) && NothingLost(s, t)
    requires t.main == s.main && t.invalid == s.invalid && (IdsApart(r, s) ==> IdsApart(r, t))
    ensures Settled(r, g, s, mixed, st, now)
  {
    OfferedAfter(r, g, s, t, st, now);
  }

  lemma {:induction false} OfferedAfter(r: Rules, g: Record, s: State, t: State, st: Step, now: nat)
    requires Offered(r, g, t, st, now) && t.main == s.main && NothingLost(s, t)
    ensures Offered(r, g, s, st, now)
  {
    NothingLostTrans(s, t, st.state);
  }

  /** The branch that offering `b` completes, if it is heavier than the main chain. */
  ghost function Challenger(r: Rules, s: State, b: Block): seq<Node>
    requires s.main != []
  {
    if HaveBlock(r, s, r.hash(b)) || b.prev == TipHash(r, s) then []
    else var p := PlaceAlt(r, s, b); if p.outcome == Heavier then p.branch else []
  }

  /**
   Offering `b` leaves a block in two places: it puts a branch on whose next difficulty is not
   defined, or has a block marked while the difficulty after the main chain is not.
   */
  ghost predicate Mixes(r: Rules, g: Record, s: State, b: Block, now: nat)
    requires s.main != []
  {
    var alts := Challenger(r, s, b);
    Mixed(r, g, PlaceAlt(r, s, b).state, ForkOf(alts), alts, now)
  }

  lemma {:induction false} AltHeavier(r: Rules, g: Record, s: State, b: Block, p: Placed, x: Node, st: Step, mixed: bool, now: nat)
    requires Sane(r, g, s, now) && !HaveBlock(r, s, r.hash(b)) && b.prev != TipHash(r, s)
    requires PlacedAs(r, g.node, s, b, p, x) && p.outcome == Heavier
    requires b.height == AltHeight(r, s.main, BuildAlt(s.alt, b.prev), b.prev)
    requires OldSteady(r, s, ForkOf(p.branch), b.height + 1)
    requires st == Switch(r, p.state, p.branch, now) && mixed == Mixed(r, g, p.state, ForkOf(p.branch), p.branch, now)
    ensures Settled(r, g, s, mixed, st, now)
  {
    PlacedReady(r, g, s, b, p, x, now);
    HeavierOffered(r, g, p.state, ForkOf(p.branch), p.branch, st, mixed, now);
    SettledAfter(r, g, s, p.state, mixed, st, now);
  }

  lemma {:induction false} PlacedReady(r: Rules, g: Record, s: State, b: Block, p: Placed, x: Node, now: nat)
    requires Sane(r, g, s, now) && !HaveBlock(r, s, r.hash(b)) && b.prev != TipHash(r, s)
    requires PlacedAs(r, g.node, s, b, p, x) && p.outcome == Heavier
    requires b.height == AltHeight(r, s.main, BuildAlt(s.alt, b.prev), b.prev)
    requires OldSteady(r, s, ForkOf(p.branch), b.height + 1)
    ensures Challenges(r, g, p.state, ForkOf(p.branch), p.branch, now) && NothingLost(s, p.state) && p.state.main == s.main
    ensures p.state.invalid == s.invalid && (IdsApart(r, s) ==> IdsApart(r, p.state))
  {
    PlacedSane(r, g, s, b, p, x, now);
    PlacedChallenges(r, g, s, b, p, x, ForkOf(p.branch));
  }

  lemma {:induction false} PlacedChallenges(r: Rules, g: Record, s: State, b: Block, p: Placed, x: Node, f: nat)
    requires s.main != [] && IsGenesis(g) && AltOk(r, g.node, s.alt) && r.hash(b) !in s.alt && b.prev != TipHash(r, s)
    requires PlacedAs(r, g.node, s, b, p, x) && p.outcome == Heavier && f == ForkOf(p.branch)
    requires b.height == AltHeight(r, s.main, BuildAlt(s.alt, b.prev), b.prev) && OldSteady(r, s, f, b.height + 1)
    ensures IsBranch(r, g, p.state, p.branch) && Last(s.main).node.work < Last(p.branch).work
    ensures f < |s.main| && OldSteady(r, p.state, f, f + |p.branch|)
  {
    PlacedIsBranch(r, g, s, b, p, x);
    PlacedFork(r, g, s, b, p, x);
    SteadySame(r, s, p.state, f, b.height + 1);
  }

  lemma {:induction false} AltLighter(r: Rules, g: Record, s: State, b: Block, p: Placed, x: Node, mixed: bool, now: nat)
    requires Sane(r, g, s, now) && !HaveBlock(r, s, r.hash(b)) && PlacedAs(r, g.node, s, b, p, x) && !mixed
    ensures Settled(r, g, s, mixed, Step(p.state, Alternative), now)
  {
    PlacedSane(r, g, s, b, p, x, now);
    OfferedSame(r, g, p.state, Alternative, now);
    SettledAfter(r, g, s, p.state, mixed, Step(p.state, Alternative), now);
  }

  lemma {:induction false} AltOffered(r: Rules, g: Record, s: State, b: Block, st: Step, mixed: bool, now: nat)
    requires Sane(r, g, s, now) && !HaveBlock(r, s, r.hash(b)) && b.prev != TipHash(r, s) && Level(r, s, b)
    requires st == HandleAlt(r, s, b, now) && mixed == Mixes(r, g, s, b, now)
    ensures Settled(r, g, s, mixed, st, now)
  {
    ReplaysPath(r, g, s.main, now);
    var p := PlaceAlt(r, s, b);
    var x := PlaceFacts(r, g.node, s, b);
    var d := PlaceUnfolds(r, s, b);
    if p.outcome == Heavier {
      AltHeavier(r, g, s, b, p, x, st, mixed, now);
    } else if p.outcome == Lighter {
      AltLighter(r, g, s, b, p, x, mixed, now);
    } else {
      OfferedSame(r, g, s, st.verdict, now);
    }
  }

  lemma {:induction false} SteadySame(r: Rules, s: State, t: State, f: nat, length: nat)
    requires OldSteady(r, s, f, length) && t.main == s.main
    ensures OldSteady(r, t, f, length)
  {
    forall h | f <= h < |t.main| ensures SteadyAt(r, t, h, length) { assert SteadyAt(r, s, h, length); }
  }

  /**
   Offering any block: the tip never loses work, a switch gains some, a failed switch changes no
   main-chain block, nothing nests and no transaction is lost. The ids stay apart exactly when no
   branch goes on whose next difficulty is undefined, and no block of a branch is refused for its
   inputs while the difficulty after the main chain is undefined. A block beside the main chain has to be one for
   which the difficulty rule agrees.
   */
  lemma {:induction false} AddNewBlockKeeps(r: Rules, g: Record, s: State, b: Block, st: Step, mixed: bool, now: nat)
    requires Sane(r, g, s, now) && st == AddNewBlock(r, s, b, now)
    requires b.prev != TipHash(r, s) ==> Level(r, s, b)
    requires mixed == Mixes(r, g, s, b, now)
    ensures Settled(r, g, s, mixed, st, now)
  {
    if HaveBlock(r, s, r.hash(b)) {
      OfferedSame(r, g, s, Exists, now);
    } else if b.prev != TipHash(r, s) {
      AltOffered(r, g, s, b, st, mixed, now);
    } else {
      MainOffered(r, g, s, b, now);
    }
  }

  // ---------- the other calls ----------

  /**
   The outside world: a block, a transaction, a sweep of the pool, or the operator popping blocks. One
   nested switch is followed for a block, which is all there can be; see `Once`.
   */
  datatype Event =
    | Incoming(block: Block, at: nat)
    | Submitted(tx: Tx, relay: Relay, at: nat)
    | Sweep(at: nat)
    | PopBlocks(count: nat, at: nat)

  function OfferOf(r: Rules, s: State, tx: Tx, relay: Relay): Offer {
    Offer(tx, relay, r.sound(tx), r.inputs(s.main, tx))
  }

  /** A transaction from outside is ignored when chain or pool already have it. */
  function Submit(r: Rules, s: State, tx: Tx, relay: Relay, now: nat): State {
    if (tx.id in s.pool.txs && !s.pool.txs[tx.id].relay.Local?) || tx.id in TxIds(s.main) then s
    else s.(pool := AddTx(s.pool, OfferOf(r, s, tx, relay), now))
  }

  function Pop(r: Rules, s: State, n: nat, now: nat): State
    requires s.main != []
  {
    PopTo(r, s, |s.main| - Min(n, |s.main| - 1), now)
  }

  function Apply(r: Rules, s: State, e: Event): (t: State)
    requires s.main != []
    ensures t.main != []
  {
    match e
    case Incoming(b, now) => DeepAdd(r, s, b, now, 1).state
    case Submitted(tx, relay, now) => Submit(r, s, tx, relay, now)
    case Sweep(now) => s.(pool := Expire(s.pool, now))
    case PopBlocks(n, now) => Pop(r, s, n, now)
  }

  lemma {:induction false} HealthyLater(r: Rules, g: Record, s: State, now: nat, later: nat)
    requires Healthy(r, g, s, now) && now <= later
    ensures Healthy(r, g, s, later)
  {
    ReplaysLater(r, g, s.main, now, later);
  }

  /** A transaction from outside keeps chain and pool consistent unless it is accepted a second time. */
  lemma {:induction false} SubmitKeeps(r: Rules, g: Record, s: State, tx: Tx, relay: Relay, now: nat)
    requires Healthy(r, g, s, now) && Poolable(tx)
    requires tx.id !in s.pool.txs || !s.pool.txs[tx.id].relay.Local? || !Accepts(s.pool, OfferOf(r, s, tx, relay))
    ensures Healthy(r, g, Submit(r, s, tx, relay, now), now)
    ensures NothingLost(s, Submit(r, s, tx, relay, now))
  {
    var t := Submit(r, s, tx, relay, now);
    if t == s {
      SamePoolSafe(s, s, t);
    } else {
      var o := OfferOf(r, s, tx, relay);
      AddTxWF(s.pool, o, now);
      forall id | id in t.pool.txs ensures r.sound(t.pool.txs[id].tx) && id !in TxIds(t.main) {
        if id == tx.id { OfferedIsSound(s.pool, o, now); }
      }
      forall x | Safe(s, x) ensures Safe(t, x) { }
    }
  }

  lemma {:induction false} OfferedIsSound(p: Pool, o: Offer, now: nat)
    requires WF(p) && Poolable(o.tx) && o.tx.id !in p.txs && o.tx.id in AddTx(p, o, now).txs
    ensures o.sound && AddTx(p, o, now).txs[o.tx.id].tx == o.tx
  {
    InsertWF(p, EntryOf(o, now));
    PruneThins(Insert(p, EntryOf(o, now)), p.limit);
  }

  lemma {:induction false} SweepKeeps(r: Rules, g: Record, s: State, now: nat)
    requires Healthy(r, g, s, now)
    ensures Healthy(r, g, s.(pool := Expire(s.pool, now)), now)
  {
    ExpireDrops(s.pool, now);
  }

  lemma {:induction false} FindPrefix(r: Rules, c: seq<Record>, k: nat, h: Hash)
    requires k <= |c|
    ensures InMain(r, c[..k], h) ==> InMain(r, c, h)
  {
    var j := Find(r, c[..k], h);
    if j < k { assert c[..k][j] == c[j]; }
  }

  /** Popping keeps the ids apart, and a shorter chain always has a defined next difficulty. */
  lemma {:induction false} PopApart(r: Rules, g: Record, s: State, k: nat, now: nat)
    requires Healthy(r, g, s, now) && 1 <= k <= |s.main|
    ensures IdsApart(r, s) ==> IdsApart(r, PopTo(r, s, k, now))
    ensures k < |s.main| || NextDefined(r, s.main) ==> NextDefined(r, PopTo(r, s, k, now).main)
  {
    var t := PopTo(r, s, k, now);
    if k < |s.main| {
      assert FitsAt(r, s.main, k, now);
    } else {
      assert t.main == s.main;
    }
    forall h | IdsApart(r, s) && h in t.alt ensures !InMain(r, t.main, h) && h !in t.invalid {
      FindPrefix(r, s.main, k, h);
    }
  }

  // ---------- what runs ask of their events ----------

  /** Time does not run backwards, and no privately held transaction is accepted a second time. */
  ghost predicate Admissible(r: Rules, s: State, e: Event, clock: nat) {
    && clock <= e.at
    && (e.Submitted? ==>
          && Poolable(e.tx)
          && (e.tx.id !in s.pool.txs || !s.pool.txs[e.tx.id].relay.Local? || !Accepts(s.pool, OfferOf(r, s, e.tx, e.relay))))
  }

  /** For a block beside the main chain the difficulty rule agrees. */
  ghost predicate LevelEvent(r: Rules, s: State, e: Event)
    requires s.main != []
  {
    e.Incoming? && e.block.prev != TipHash(r, s) ==> Level(r, s, e.block)
  }

  function Run(r: Rules, s: State, es: seq<Event>): (t: State)
    requires s.main != []
    ensures t.main != []
    decreases |es|
  {
    if es == [] then s else Run(r, Apply(r, s, es[0]), es[1..])
  }

  /** How much is asked of a run. */
  datatype Grade = Plain | Even

  /** Every event is admissible when it comes and, if the grade asks, level. */
  ghost predicate Orderly(r: Rules, s: State, es: seq<Event>, clock: nat, grade: Grade)
    requires s.main != []
    decreases |es|
  {
    es == [] ||
    (&& Admissible(r, s, es[0], clock)
     && (grade != Plain ==> LevelEvent(r, s, es[0]))
     && Orderly(r, Apply(r, s, es[0]), es[1..], es[0].at, grade))
  }

  function ClockAfter(es: seq<Event>, clock: nat): nat {
    if es == [] then clock else es[|es| - 1].at
  }

  // ---------- chain and pool: every run ----------

  lemma {:induction false} EventHealthy(r: Rules, g: Record, s: State, e: Event, t: State, clock: nat)
    requires Healthy(r, g, s, clock) && Admissible(r, s, e, clock) && t == Apply(r, s, e)
    ensures Healthy(r, g, t, e.at) && (!e.Sweep? ==> NothingLost(s, t))
  {
    HealthyLater(r, g, s, clock, e.at);
    match e
    case Incoming(b, now) => DeepAddKeeps(r, g, s, b, DeepAdd(r, s, b, now, 1), now, 1);
    case Submitted(tx, relay, now) => SubmitHealthy(r, g, s, tx, relay, t, now);
    case Sweep(now) => SweepKeeps(r, g, s, now);
    case PopBlocks(n, now) => PopHealthy(r, g, s, n, t, now);
  }

  lemma {:induction false} SubmitHealthy(r: Rules, g: Record, s: State, tx: Tx, relay: Relay, t: State, now: nat)
    requires Healthy(r, g, s, now) && Poolable(tx) && t == Submit(r, s, tx, relay, now)
    requires tx.id !in s.pool.txs || !s.pool.txs[tx.id].relay.Local? || !Accepts(s.pool, OfferOf(r, s, tx, relay))
    ensures Healthy(r, g, t, now) && NothingLost(s, t)
  {
    SubmitKeeps(r, g, s, tx, relay, now);
  }

  lemma {:induction false} PopHealthy(r: Rules, g: Record, s: State, n: nat, t: State, now: nat)
    requires Healthy(r, g, s, now) && t == Pop(r, s, n, now)
    ensures Healthy(r, g, t, now) && NothingLost(s, t)
  {
    PopToKeeps(r, g, s, |s.main| - Min(n, |s.main| - 1), now);
  }

  /** A block for which the rule agrees calls for no nested switch. */
  lemma {:induction false} IncomingIsPlain(r: Rules, g: Record, s: State, e: Event, st: Step, now: nat)
    requires e.Incoming? && Sane(r, g, s, now) && LevelEvent(r, s, e) && st == AddNewBlock(r, s, e.block, now)
    ensures DeepAdd(r, s, e.block, now, 1) == st && Offered(r, g, s, st, now)
  {
    AddNewBlockKeeps(r, g, s, e.block, st, Mixes(r, g, s, e.block, now), now);
    AddIsPlain(r, s, e.block, st, now, 1);
  }

  /** After every run, chain and pool are consistent and disjoint. */
  lemma {:induction false} RunHealthy(r: Rules, g: Record, s: State, es: seq<Event>, clock: nat, grade: Grade)
    requires Healthy(r, g, s, clock) && Orderly(r, s, es, clock, grade)
    ensures Healthy(r, g, Run(r, s, es), ClockAfter(es, clock))
    decreases |es|
  {
    if es != [] {
      EventHealthy(r, g, s, es[0], Apply(r, s, es[0]), clock);
      RunHealthy(r, g, Apply(r, s, es[0]), es[1..], es[0].at, grade);
    }
  }

  ghost predicate NoSweep(es: seq<Event>) { forall i :: 0 <= i < |es| ==> !es[i].Sweep? }

  /** Without pool sweeps no run loses a transaction that was on the main chain, or is safe in the pool. */
  lemma {:induction false} RunLosesNothing(r: Rules, g: Record, s: State, es: seq<Event>, clock: nat, grade: Grade)
    requires Healthy(r, g, s, clock) && Orderly(r, s, es, clock, grade) && NoSweep(es)
    ensures NothingLost(s, Run(r, s, es))
    decreases |es|
  {
    if es == [] {
      SamePoolSafe(s, s, s);
    } else {
      var t := Apply(r, s, es[0]);
      assert !es[0].Sweep?;
      EventHealthy(r, g, s, es[0], t, clock);
      RunLosesNothing(r, g, t, es[1..], es[0].at, grade);
      NothingLostTrans(s, t, Run(r, s, es));
    }
  }

  // ---------- work: every even run ----------

  lemma {:induction false} EventSane(r: Rules, g: Record, s: State, e: Event, t: State, clock: nat)
    requires Sane(r, g, s, clock) && Admissible(r, s, e, clock) && LevelEvent(r, s, e) && t == Apply(r, s, e)
    ensures Sane(r, g, t, e.at)
    ensures s.main != [] && t.main != [] && (!e.PopBlocks? ==> TipWork(s) <= TipWork(t))
  {
    EventHealthy(r, g, s, e, t, clock);
    HealthyLater(r, g, s, clock, e.at);
    if e.Incoming? { IncomingIsPlain(r, g, s, e, AddNewBlock(r, s, e.block, e.at), e.at); }
  }

  /** After every even run each alternative carries the work of its history. */
  lemma {:induction false} RunSane(r: Rules, g: Record, s: State, es: seq<Event>, clock: nat, grade: Grade)
    requires Sane(r, g, s, clock) && Orderly(r, s, es, clock, grade) && grade != Plain
    ensures Sane(r, g, Run(r, s, es), ClockAfter(es, clock))
    decreases |es|
  {
    if es != [] {
      EventSane(r, g, s, es[0], Apply(r, s, es[0]), clock);
      RunSane(r, g, Apply(r, s, es[0]), es[1..], es[0].at, grade);
    }
  }

  ghost predicate NoPop(es: seq<Event>) { forall i :: 0 <= i < |es| ==> !es[i].PopBlocks? }

  /** Without pops the work of the tip never falls. */
  lemma {:induction false} RunGainsWork(r: Rules, g: Record, s: State, es: seq<Event>, clock: nat, grade: Grade)
    requires Sane(r, g, s, clock) && Orderly(r, s, es, clock, grade) && grade != Plain && NoPop(es)
    ensures s.main != [] && TipWork(s) <= TipWork(Run(r, s, es))
    decreases |es|
  {
    if es != [] {
      assert !es[0].PopBlocks?;
      EventSane(r, g, s, es[0], Apply(r, s, es[0]), clock);
      RunGainsWork(r, g, Apply(r, s, es[0]), es[1..], es[0].at, grade);
    }
  }

  lemma {:induction false} PoolEventApart(r: Rules, s: State, e: Event, t: State)
    requires s.main != [] && t == Apply(r, s, e) && (e.Submitted? || e.Sweep?)
    ensures t.main == s.main && t.alt == s.alt && (IdsApart(r, s) ==> IdsApart(r, t))
  {
  }
}
