/**
 What becomes of the main chain, the alternatives and the invalid blocks when a block is offered,
 told before the call for every block in every state in which no block is kept in two places; and
 when, therefore, ids stay apart, the tip keeps its work, and stays the heaviest block kept.
 */
module Fates {
  import opened Ledger
  import opened Chain
  import opened Reorg
  import opened MainSteps
  import opened Branches
  import opened Switching
  import opened Forecast
  import opened Nesting
  import opened Once
  import opened Rebounds
  import opened Returns
  import Falls
  import ForkChoice
  import Runs

  // ---------- told beforehand ----------

  /**
   `Quiet`: no switch is tried. `GivenUp`: the branch is refused, and cleaned up. `Blocked`: it is
   refused while the rule throws behind the main chain. `Snapped`: the rule throws behind its `n`-th
   block. `Changed`: it is on, and what it disconnects is put back. `Broken`: that throws. `Bounced`:
   it leads back, up to `k` blocks of the old main chain. `Wreck`: the same, ended by an exception.
   */
  datatype Fate = Quiet | GivenUp | Blocked(marks: bool) | Snapped(n: nat) | Changed | Broken | Bounced(k: nat) | Wreck(k: nat)

  /** The first `n` blocks are acceptable, and the rule throws behind them. */
  ghost predicate Snaps(r: Rules, g: Record, t: State, bs: seq<Block>, n: nat, now: nat) {
    Gets(r, g, t, bs, n, now) && r.ahead(MainChain(r, Nodes(t.main), bs[..n]), |t.main| + n).None?
  }

  ghost predicate Goes(r: Rules, g: Record, t: State, bs: seq<Block>, now: nat) {
    exists rs :: GoesAs(r, g, t, bs, rs, now)
  }

  /** From `t`, as the blocks `bs` fare. */
  ghost function TryFate(r: Rules, g: Record, t: State, bs: seq<Block>, defined: bool, on: Fate, now: nat): Fate {
    if exists n: nat :: Snaps(r, g, t, bs, n, now) then var n: nat :| Snaps(r, g, t, bs, n, now); Snapped(n)
    else if !Goes(r, g, t, bs, now) then if defined then GivenUp else Blocked(Marks(r, g, t, bs, now))
    else on
  }

  /** Of a switch to the branch `alts`, which leaves the main chain at height `f`. */
  ghost function SwitchFate(r: Rules, g: Record, s: State, f: nat, alts: seq<Node>, now: nat): Fate
    requires 1 <= f < |s.main| && alts != []
  {
    TryFate(r, g, PopTo(r, s, f, now), Blocks(alts), NextDefined(r, s.main), OnFate(r, s.main, f, alts), now)
  }

  /** If the branch is on to its last block, and the rule does not throw behind it. */
  ghost function OnFate(r: Rules, was: seq<Record>, f: nat, alts: seq<Node>): (fate: Fate)
    requires 1 <= f < |was|
    ensures fate.Changed? || fate.Broken? || fate.Bounced? || fate.Wreck?
  {
    ReturnFate(r, was, f, alts, OnReturn(r, was, f, alts))
  }

  ghost function OnReturn(r: Rules, was: seq<Record>, f: nat, alts: seq<Node>): (ret: Return)
    requires 1 <= f < |was|
    ensures ret.Bounces? ==> ret.at < |was|
  {
    var c := Nodes(was)[..f];
    Returning(r, was, f, c, f + |alts|, MainWork(r, c, Blocks(alts)))
  }

  ghost function ReturnFate(r: Rules, was: seq<Record>, f: nat, alts: seq<Node>, ret: Return): (fate: Fate)
    requires 1 <= f < |was| && (ret.Bounces? ==> ret.at < |was|)
    ensures fate.Changed? || fate.Broken? || fate.Bounced? || fate.Wreck?
  {
    match ret
    case Settles => Changed
    case Snags => Broken
    case Bounces(n) => BounceFate(r, was, f, alts, n)
  }

  ghost function BounceFate(r: Rules, was: seq<Record>, f: nat, alts: seq<Node>, n: nat): (fate: Fate)
    requires 1 <= f < |was| && n < |was|
    ensures fate.Bounced? || fate.Wreck?
  {
    var k := Reach(r, was, n + 1);
    if Jammed(r, was, f, alts, n + 1) then Wreck(n + 1)
    else if k == |was| && !NextDefined(r, was) then Wreck(k)
    else Bounced(k)
  }

  // ---------- the attempt ----------

  lemma {:induction false} SnapsThere(r: Rules, g: Record, t: State, bs: seq<Block>, n: nat, c: Connection, now: nat)
    requires Healthy(r, g, t, now) && c == Connect(r, t, bs, now) && Snaps(r, g, t, bs, n, now)
    ensures c.verdict == Threw && Nodes(c.state.main) == MainChain(r, Nodes(t.main), bs[..n])
    ensures c.state.alt == t.alt && c.state.invalid == t.invalid
  {
    var rs :| GoesAs(r, g, t, bs[..n], rs, now);
    FrontOn(r, g, t, bs, n, rs, now);
    FrontEnds(r, t, bs, n, rs);
  }

  lemma {:induction false} GoesThere(r: Rules, g: Record, t: State, bs: seq<Block>, c: Connection, now: nat)
    requires Healthy(r, g, t, now) && t.main != [] && bs != [] && c == Connect(r, t, bs, now) && Goes(r, g, t, bs, now)
    requires !Snaps(r, g, t, bs, |bs|, now)
    ensures c.verdict == Added && Nodes(c.state.main) == MainChain(r, Nodes(t.main), bs)
    ensures c.state.alt == t.alt && c.state.invalid == t.invalid
  {
    var rs :| GoesAs(r, g, t, bs, rs, now);
    GoesDefined(r, g, t, bs, rs, now);
    ConnectReplays(r, g, t, rs, bs, now);
  }

  lemma {:induction false} GoesDefined(r: Rules, g: Record, t: State, bs: seq<Block>, rs: seq<Record>, now: nat)
    requires t.main != [] && bs != [] && GoesAs(r, g, t, bs, rs, now) && !Snaps(r, g, t, bs, |bs|, now)
    ensures NextDefined(r, t.main + rs) && Nodes(t.main + rs) == MainChain(r, Nodes(t.main), bs)
  {
    GoesAll(r, g, t, bs, bs[..|bs|], rs, now);
    ReplaysMain(r, g, t.main, rs, bs, now);
    FrontEnds(r, t, bs, |bs|, rs);
  }

  lemma {:induction false} GoesAll(r: Rules, g: Record, t: State, bs: seq<Block>, front: seq<Block>, rs: seq<Record>, now: nat)
    requires t.main != [] && bs != [] && GoesAs(r, g, t, bs, rs, now) && front == bs[..|bs|]
    ensures front == bs && Gets(r, g, t, bs, |bs|, now)
  {
  }

  lemma {:induction false} NotRefusedIs(r: Rules, g: Record, t: State, bs: seq<Block>, c: Connection, now: nat)
    requires Healthy(r, g, t, now) && NextDefined(r, t.main) && bs != [] && c == Connect(r, t, bs, now) && Healthy(r, g, c.state, now)
    requires c.verdict != Rejected
    ensures Goes(r, g, t, bs, now) || Snaps(r, g, t, bs, HowMany(c), now)
  {
    GetsSomewhere(r, g, t, bs, c, now);
    assert bs[..|bs|] == bs;
  }

  /** What connecting gives. */
  ghost predicate TriedFrom(r: Rules, t: State, bs: seq<Block>, defined: bool, fate: Fate, c: Connection)
    requires t.main != []
  {
    match fate
    case Snapped(n) =>
      && c.verdict == Threw && 1 <= n <= |bs| && Nodes(c.state.main) == MainChain(r, Nodes(t.main), bs[..n])
      && c.state.alt == t.alt && c.state.invalid == t.invalid
    case GivenUp => c.verdict == Rejected && defined
    case Blocked(_) => c.verdict == Rejected && !defined
    case Quiet => false
    case _ =>
      c.verdict == Added && Nodes(c.state.main) == MainChain(r, Nodes(t.main), bs) && c.state.alt == t.alt && c.state.invalid == t.invalid
  }

  /** What the attempt gives. */
  ghost predicate Tried(r: Rules, s: State, f: nat, alts: seq<Node>, fate: Fate, c: Connection)
    requires 1 <= f < |s.main|
  {
    TriedFrom(r, s.(main := s.main[..f]), Blocks(alts), NextDefined(r, s.main), fate, c)
  }

  lemma {:induction false} ConnectTold(r: Rules, g: Record, t: State, bs: seq<Block>, defined: bool, on: Fate, fate: Fate, c: Connection, now: nat)
    requires Healthy(r, g, t, now) && NextDefined(r, t.main) && bs != [] && c == Connect(r, t, bs, now) && Healthy(r, g, c.state, now)
    requires !on.Quiet? && !on.GivenUp? && !on.Blocked? && !on.Snapped? && fate == TryFate(r, g, t, bs, defined, on, now)
    ensures TriedFrom(r, t, bs, defined, fate, c)
  {
    if exists n: nat :: Snaps(r, g, t, bs, n, now) {
      SnapsThere(r, g, t, bs, fate.n, c, now);
    } else if Goes(r, g, t, bs, now) {
      GoesThere(r, g, t, bs, c, now);
    } else if c.verdict != Rejected {
      NotRefusedIs(r, g, t, bs, c, now);
    }
  }

  lemma {:induction false} AttemptTold(r: Rules, g: Record, s: State, f: nat, alts: seq<Node>, fate: Fate, c: Connection, now: nat)
    requires Healthy(r, g, s, now) && 1 <= f < |s.main| && alts != [] && c == Attempt(r, s, f, alts, now)
    requires fate == SwitchFate(r, g, s, f, alts, now)
    ensures Tried(r, s, f, alts, fate, c)
  {
    var t := PopTo(r, s, f, now);
    AttemptKeeps(r, g, s, f, alts, now);
    Falls.PoppedDefined(r, g, s, f, now);
    assert Nodes(t.main) == Nodes(s.main)[..f];
    ConnectTold(r, g, t, Blocks(alts), NextDefined(r, s.main), OnFate(r, s.main, f, alts), fate, c, now);
  }

  // ---------- the switch ----------

  /** The branch is gone from the alternatives, and the disconnected blocks are there so far as they were stored. */
  ghost predicate Shed(r: Rules, g: Record, s: State, f: nat, alts: seq<Node>, v: State, t: State, n: nat, c: seq<Node>, now: nat) {
    && v.main != [] && Lodged(r, g, s, f, alts, n, c, v, Last(v.main).node.work, now)
    && t.main == v.main && t.invalid == s.invalid && t.alt == v.alt - Hashes(r, Blocks(alts))
  }

  /** What the switch ends in. */
  ghost predicate Meets(r: Rules, g: Record, s: State, f: nat, alts: seq<Node>, fate: Fate, t: State, now: nat)
    requires 1 <= f < |s.main|
  {
    var d, bs := Nodes(s.main)[..f], Blocks(alts);
    match fate
    case Quiet => false
    case GivenUp => exists k :: Undone(r, s, t, alts, k)
    case Blocked(marks) => Stranded(r, s, t, alts) && (t.invalid != s.invalid <==> marks)
    case Snapped(n) => 1 <= n <= |bs| && Nodes(t.main) == MainChain(r, d, bs[..n]) && t.alt == s.alt && t.invalid == s.invalid
    case Changed => Nodes(t.main) == MainChain(r, d, bs) && exists v, n, c :: Shed(r, g, s, f, alts, v, t, n, c, now)
    case Broken => Nodes(t.main) == MainChain(r, d, bs) && t.main != [] && exists n, c :: Lodged(r, g, s, f, alts, n, c, t, Last(t.main).node.work, now)
    case Bounced(k) => 1 <= k <= |s.main| && t.main == s.main[..k] && t.invalid == s.invalid && t.alt == s.alt - Hashes(r, bs)
    case Wreck(k) => Wrecked(r, s, k, Step(t, Threw))
  }

  lemma {:induction false} RefusedLeaves(r: Rules, g: Record, s: State, f: nat, alts: seq<Node>, c: Connection, now: nat)
    requires Ground(r, g, s, f, alts, now) && IdsApart(r, s) && c == Attempt(r, s, f, alts, now) && c.verdict == Rejected
    ensures c.count < |alts| && c.state.alt == s.alt && s.invalid <= c.state.invalid <= s.invalid + {r.hash(alts[c.count].block)}
    ensures c.state.invalid != s.invalid <==> Marks(r, g, PopTo(r, s, f, now), Blocks(alts), now)
  {
    var t, bs := PopTo(r, s, f, now), Blocks(alts);
    PopToKeeps(r, g, s, f, now);
    ConnectKeepsAlt(r, t, bs, now);
    var rs, u := RefusedAt(r, g, t, bs, c, now);
    MainMarksIff(r, u, bs[c.count], now);
    Runs.StainsIff(r, g, s, f, alts, c, now);
  }

  lemma {:induction false} RefusedMeets(r: Rules, g: Record, s: State, f: nat, alts: seq<Node>, fate: Fate, c: Connection, st: Step, now: nat)
    requires Ground(r, g, s, f, alts, now) && IdsApart(r, s) && c == Attempt(r, s, f, alts, now) && c.verdict == Rejected
    requires fate == if NextDefined(r, s.main) then GivenUp else Blocked(Marks(r, g, PopTo(r, s, f, now), Blocks(alts), now))
    requires st == GiveUp(r, s, f, alts, c, now)
    ensures Meets(r, g, s, f, alts, fate, st.state, now)
  {
    RefusedLeaves(r, g, s, f, alts, c, now);
    AttemptKeeps(r, g, s, f, alts, now);
    RestDroppable(r, s.alt, alts, c.count);
    GiveUpRestores(r, g, s, f, alts, c, now);
    GiveUpMarks(r, g, s, f, alts, c, now);
    RefusedShape(r, s, alts, c, st.state);
  }

  lemma {:induction false} RestDroppable(r: Rules, alt: map<Hash, Node>, alts: seq<Node>, k: nat)
    requires Droppable(r, alt, Blocks(alts)) && k <= |alts|
    ensures Droppable(r, alt, Blocks(alts)[k..])
  {
    var bs := Blocks(alts)[k..];
    forall i, j | 0 <= i < j < |bs| ensures r.hash(bs[i]) != r.hash(bs[j]) { assert r.hash(Blocks(alts)[k + i]) != r.hash(Blocks(alts)[k + j]); }
  }

  lemma {:induction false} OnIs(r: Rules, s: State, f: nat, alts: seq<Node>, c: Connection)
    requires 1 <= f < |s.main| && Nodes(c.state.main) == MainChain(r, Nodes(s.main)[..f], Blocks(alts))
    ensures |c.state.main| == f + |alts| && c.state.main != [] && Last(c.state.main).node.work == MainWork(r, Nodes(s.main)[..f], Blocks(alts))
  {
    assert |Nodes(c.state.main)| == |c.state.main|;
  }

  /** The end of a switch whose branch is on. */
  lemma {:induction false} OnMeets(r: Rules, g: Record, s: State, f: nat, alts: seq<Node>, ret: Return, fate: Fate, u: State, e: Step, st: Step, now: nat)
    requires Ground(r, g, s, f, alts, now) && u.main != [] && Nodes(u.main) == MainChain(r, Nodes(s.main)[..f], Blocks(alts))
    requires (ret.Bounces? ==> ret.at < |s.main|) && fate == ReturnFate(r, s.main, f, alts, ret) && Told(r, g, s, f, alts, u, ret, e, now)
    requires st == if e.verdict != Switched then e else Forget(r, e.state, Blocks(alts))
    ensures Meets(r, g, s, f, alts, fate, st.state, now)
  {
    match ret
    case Settles => ChangedMeets(r, g, s, f, alts, u, e.state, st, now);
    case Snags => BrokenMeets(r, g, s, f, alts, u, e.state, now);
    case Bounces(n) => BouncedMeets(r, g, s, f, alts, n, fate, e, st, now);
  }

  lemma {:induction false} BrokenMeets(r: Rules, g: Record, s: State, f: nat, alts: seq<Node>, u: State, v: State, now: nat)
    requires 1 <= f < |s.main| && u.main != [] && Nodes(u.main) == MainChain(r, Nodes(s.main)[..f], Blocks(alts))
    requires Stays(r, g, s, f, alts, u, v, now)
    ensures Meets(r, g, s, f, alts, Broken, v, now)
  {
    var n, c :| Lodged(r, g, s, f, alts, n, c, v, Last(u.main).node.work, now);
  }

  lemma {:induction false} BouncedMeets(r: Rules, g: Record, s: State, f: nat, alts: seq<Node>, n: nat, fate: Fate, e: Step, st: Step, now: nat)
    requires 1 <= f < |s.main| && n < |s.main| && Droppable(r, s.alt, Blocks(alts)) && BounceEnd(r, g, s, f, alts, n, e, now)
    requires fate == BounceFate(r, s.main, f, alts, n) && st == if e.verdict != Switched then e else Forget(r, e.state, Blocks(alts))
    ensures Meets(r, g, s, f, alts, fate, st.state, now)
  {
    var k := Reach(r, s.main, n + 1);
    if Jammed(r, s.main, f, alts, n + 1) {
      WreckMeets(r, g, s, f, alts, n + 1, e, now);
    } else if k == |s.main| && !NextDefined(r, s.main) {
      WreckMeets(r, g, s, f, alts, k, e, now);
    } else {
      BackMeets(r, g, s, f, alts, k, e, st, now);
    }
  }

  lemma {:induction false} WreckMeets(r: Rules, g: Record, s: State, f: nat, alts: seq<Node>, k: nat, e: Step, now: nat)
    requires 1 <= f < |s.main| && Wrecked(r, s, k, e)
    ensures Meets(r, g, s, f, alts, Wreck(k), e.state, now)
  {
    assert e == Step(e.state, Threw);
  }

  lemma {:induction false} BackMeets(r: Rules, g: Record, s: State, f: nat, alts: seq<Node>, k: nat, e: Step, st: Step, now: nat)
    requires 1 <= f < |s.main| && Droppable(r, s.alt, Blocks(alts)) && BackTo(r, g, s, k, e.state, now) && st == Forget(r, e.state, Blocks(alts))
    ensures Meets(r, g, s, f, alts, Bounced(k), st.state, now)
  {
    ForgetDrops(r, e.state, Blocks(alts));
  }

  lemma {:induction false} ChangedMeets(r: Rules, g: Record, s: State, f: nat, alts: seq<Node>, u: State, v: State, st: Step, now: nat)
    requires Ground(r, g, s, f, alts, now) && u.main != [] && Nodes(u.main) == MainChain(r, Nodes(s.main)[..f], Blocks(alts))
    requires Stays(r, g, s, f, alts, u, v, now) && st == Forget(r, v, Blocks(alts))
    ensures Meets(r, g, s, f, alts, Changed, st.state, now)
  {
    var n, c :| Lodged(r, g, s, f, alts, n, c, v, Last(u.main).node.work, now);
    assert Droppable(r, v.alt, Blocks(alts));
    ForgetDrops(r, v, Blocks(alts));
    assert Shed(r, g, s, f, alts, v, st.state, n, c, now);
  }

  lemma {:induction false} ConcludesAs(r: Rules, s: State, f: nat, alts: seq<Node>, c: Connection, e: Step, st: Step, now: nat)
    requires 1 <= f <= |s.main| && c == Attempt(r, s, f, alts, now) && st == DeepSwitchAt(r, s, f, alts, now, 1)
    requires e == DeepReadd(r, c.state, Blocks(Nodes(s.main[f..])), now, 1)
    ensures st == if c.verdict == Threw then Step(c.state, Threw) else if c.verdict != Added then GiveUp(r, s, f, alts, c, now)
                  else if e.verdict != Switched then e else Forget(r, e.state, Blocks(alts))
  {
  }

  lemma {:induction false} FateCases(r: Rules, g: Record, s: State, f: nat, alts: seq<Node>, fate: Fate, now: nat)
    requires 1 <= f < |s.main| && alts != [] && fate == SwitchFate(r, g, s, f, alts, now)
    ensures fate.Snapped? || fate == OnFate(r, s.main, f, alts)
         || fate == if NextDefined(r, s.main) then GivenUp else Blocked(Marks(r, g, PopTo(r, s, f, now), Blocks(alts), now))
  {
  }

  /** A switch ends as told. */
  lemma {:induction false} SwitchTold(r: Rules, g: Record, s: State, f: nat, alts: seq<Node>, fate: Fate, st: Step, now: nat)
    requires Ground(r, g, s, f, alts, now) && IdsApart(r, s) && st == DeepSwitchAt(r, s, f, alts, now, 1)
    requires fate == SwitchFate(r, g, s, f, alts, now)
    ensures Meets(r, g, s, f, alts, fate, st.state, now)
  {
    var c := Attempt(r, s, f, alts, now);
    AttemptTold(r, g, s, f, alts, fate, c, now);
    FateCases(r, g, s, f, alts, fate, now);
    TriedEnds(r, g, s, f, alts, fate, c, DeepReadd(r, c.state, Blocks(Nodes(s.main[f..])), now, 1), st, now);
  }

  lemma {:induction false} TriedEnds(r: Rules, g: Record, s: State, f: nat, alts: seq<Node>, fate: Fate, c: Connection, e: Step, st: Step, now: nat)
    requires Ground(r, g, s, f, alts, now) && IdsApart(r, s) && st == DeepSwitchAt(r, s, f, alts, now, 1)
    requires c == Attempt(r, s, f, alts, now) && Tried(r, s, f, alts, fate, c)
    requires fate.Snapped? || fate == OnFate(r, s.main, f, alts)
          || fate == if NextDefined(r, s.main) then GivenUp else Blocked(Marks(r, g, PopTo(r, s, f, now), Blocks(alts), now))
    requires e == DeepReadd(r, c.state, Blocks(Nodes(s.main[f..])), now, 1)
    ensures Meets(r, g, s, f, alts, fate, st.state, now)
  {
    ConcludesAs(r, s, f, alts, c, e, st, now);
    if c.verdict == Rejected {
      RefusedMeets(r, g, s, f, alts, fate, c, st, now);
    } else if c.verdict == Added {
      TriedOn(r, s, f, alts, fate, c);
      OnTold(r, g, s, f, alts, fate, c, e, st, now);
    } else {
      SnappedMeets(r, g, s, f, alts, fate, c, now);
    }
  }

  lemma {:induction false} SnappedMeets(r: Rules, g: Record, s: State, f: nat, alts: seq<Node>, fate: Fate, c: Connection, now: nat)
    requires 1 <= f < |s.main| && Tried(r, s, f, alts, fate, c) && fate.Snapped?
    ensures Meets(r, g, s, f, alts, fate, c.state, now)
  {
    assert Nodes(s.main[..f]) == Nodes(s.main)[..f];
  }

  lemma {:induction false} OnTold(r: Rules, g: Record, s: State, f: nat, alts: seq<Node>, fate: Fate, c: Connection, e: Step, st: Step, now: nat)
    requires Ground(r, g, s, f, alts, now) && c == Attempt(r, s, f, alts, now) && c.verdict == Added
    requires Nodes(c.state.main) == MainChain(r, Nodes(s.main)[..f], Blocks(alts))
    requires fate == OnFate(r, s.main, f, alts) && e == DeepReadd(r, c.state, Blocks(Nodes(s.main[f..])), now, 1)
    requires st == if e.verdict != Switched then e else Forget(r, e.state, Blocks(alts))
    ensures Meets(r, g, s, f, alts, fate, st.state, now)
  {
    var ret := OnReturn(r, s.main, f, alts);
    OnIs(r, s, f, alts, c);
    OnReturnIs(r, s.main, f, alts, |c.state.main|, Last(c.state.main).node.work);
    ReturnTold(r, g, s, f, alts, c, ret, e, now);
    OnMeets(r, g, s, f, alts, ret, fate, c.state, e, st, now);
  }

  lemma {:induction false} OnReturnIs(r: Rules, was: seq<Record>, f: nat, alts: seq<Node>, length: nat, work: nat)
    requires 1 <= f < |was| && length == f + |alts| && work == MainWork(r, Nodes(was)[..f], Blocks(alts))
    ensures OnReturn(r, was, f, alts) == Returning(r, was, f, Nodes(was)[..f], length, work)
  {
  }

  lemma {:induction false} TriedOn(r: Rules, s: State, f: nat, alts: seq<Node>, fate: Fate, c: Connection)
    requires 1 <= f < |s.main| && Tried(r, s, f, alts, fate, c) && c.verdict == Added
    ensures Nodes(c.state.main) == MainChain(r, Nodes(s.main)[..f], Blocks(alts))
  {
    assert Nodes(s.main[..f]) == Nodes(s.main)[..f];
  }

  // ---------- no block in two places ----------

  /** After such a fate no block is kept in two places. */
  ghost predicate Neat(fate: Fate) {
    fate.Quiet? || fate.GivenUp? || fate == Blocked(false) || fate.Changed? || fate.Bounced?
  }

  lemma {:induction false} MainChainParts(r: Rules, c: seq<Node>, bs: seq<Block>)
    requires c != []
    ensures c <= MainChain(r, c, bs) && forall i :: 0 <= i < |bs| ==> MainChain(r, c, bs)[|c| + i].block == bs[i]
    decreases |bs|
  {
    if bs != [] {
      var d := c + [MainNode(r, c, bs[0])];
      MainChainParts(r, d, bs[1..]);
      forall i | 0 <= i < |bs| ensures MainChain(r, c, bs)[|c| + i].block == bs[i] {
        if i == 0 { assert MainChain(r, c, bs)[|c|] == d[|c|]; } else { assert bs[1..][i - 1] == bs[i]; }
      }
    }
  }

  /** A main chain with the first blocks of the branch, which are still stored. */
  lemma {:induction false} OverlapsOn(r: Rules, s: State, f: nat, alts: seq<Node>, bs: seq<Block>, t: State)
    requires 1 <= f <= |s.main| && alts != [] && bs != [] && bs[0] == alts[0].block
    requires Nodes(t.main) == MainChain(r, Nodes(s.main)[..f], bs) && r.hash(alts[0].block) in t.alt
    ensures !IdsApart(r, t)
  {
    MainChainParts(r, Nodes(s.main)[..f], bs);
    assert |Nodes(t.main)| == |t.main|;
    assert t.main[f].node == Nodes(t.main)[f] && t.main[f].node.block == bs[0];
    IsOnMain(r, t.main, f);
  }

  lemma {:induction false} WreckMixes(r: Rules, s: State, k: nat, e: Step)
    requires Wrecked(r, s, k, e)
    ensures !IdsApart(r, e.state)
  {
    assert e.state.main[k - 1] == s.main[k - 1];
    IsOnMain(r, e.state.main, k - 1);
  }

  lemma {:induction false} PrefixFinds(r: Rules, c: seq<Record>, k: nat, h: Hash)
    requires k <= |c| && InMain(r, c[..k], h)
    ensures InMain(r, c, h)
  {
    var j := Find(r, c[..k], h);
    assert c[..k][j] == c[j];
  }

  lemma {:induction false} BouncedApart(r: Rules, s: State, t: State, k: nat, hs: set<Hash>)
    requires IdsApart(r, s) && k <= |s.main| && t.main == s.main[..k] && t.invalid == s.invalid && t.alt == s.alt - hs
    ensures IdsApart(r, t)
  {
    forall h | h in t.alt ensures !InMain(r, t.main, h) { if InMain(r, t.main, h) { PrefixFinds(r, s.main, k, h); } }
  }

  /** After a switch: a block of the new main chain is shared with the old one, or of the branch. */
  lemma {:induction false} NewMainHash(r: Rules, s: State, f: nat, alts: seq<Node>, u: State, k: nat)
    requires Away(r, s.main, f, alts, u) && k < |u.main|
    ensures (k < f && u.main[k].node.block == s.main[k].node.block) || r.hash(u.main[k].node.block) in Hashes(r, Blocks(alts))
  {
    if f <= k { assert Blocks(alts)[k - f] == alts[k - f].block; }
  }

  lemma {:induction false} ShedNotOnMain(r: Rules, g: Record, s: State, f: nat, alts: seq<Node>, v: State, t: State, n: nat, c: seq<Node>, h: Hash, k: nat, now: nat)
    requires Ground(r, g, s, f, alts, now) && IdsApart(r, s) && Shed(r, g, s, f, alts, v, t, n, c, now) && h in t.alt && k < |t.main|
    ensures h != r.hash(t.main[k].node.block)
  {
    NewMainHash(r, s, f, alts, v, k);
    if k < f && h == r.hash(s.main[k].node.block) {
      HealthyChained(r, g, s.main, now);
      NotStored(r, g, s, f, alts, n, c, v, k, now);
    }
  }

  lemma {:induction false} ShedValid(r: Rules, g: Record, s: State, f: nat, alts: seq<Node>, v: State, t: State, n: nat, c: seq<Node>, now: nat)
    requires Ground(r, g, s, f, alts, now) && IdsApart(r, s) && Shed(r, g, s, f, alts, v, t, n, c, now)
    ensures forall h :: h in t.alt ==> h !in t.invalid
    ensures forall k :: 0 <= k < |t.main| ==> r.hash(t.main[k].node.block) !in t.invalid
  {
    forall h | h in t.alt ensures h !in t.invalid {
      if h !in s.alt {
        assert OldHash(r, s, f, n, h);
        var i :| f <= i < n <= |s.main| && h == r.hash(s.main[i].node.block);
      }
    }
    forall k | 0 <= k < |t.main| ensures r.hash(t.main[k].node.block) !in t.invalid {
      NewMainHash(r, s, f, alts, v, k);
      if f <= k { TopIsOfAlts(r, s, f, alts, v, k); }
    }
  }

  lemma {:induction false} TopIsOfAlts(r: Rules, s: State, f: nat, alts: seq<Node>, v: State, k: nat)
    requires Away(r, s.main, f, alts, v) && AllStored(r, s.alt, alts) && f <= k < |v.main|
    ensures r.hash(v.main[k].node.block) in s.alt
  {
    assert v.main[f + (k - f)].node.block == alts[k - f].block;
  }

  lemma {:induction false} ChangedApart(r: Rules, g: Record, s: State, f: nat, alts: seq<Node>, v: State, t: State, n: nat, c: seq<Node>, now: nat)
    requires Ground(r, g, s, f, alts, now) && IdsApart(r, s) && Shed(r, g, s, f, alts, v, t, n, c, now)
    ensures IdsApart(r, t)
  {
    ShedValid(r, g, s, f, alts, v, t, n, c, now);
    forall h | h in t.alt ensures !InMain(r, t.main, h) {
      if InMain(r, t.main, h) { ShedNotOnMain(r, g, s, f, alts, v, t, n, c, h, Find(r, t.main, h), now); }
    }
  }

  lemma {:induction false} SwitchApartIff(r: Rules, g: Record, s: State, f: nat, alts: seq<Node>, fate: Fate, t: State, now: nat)
    requires Ground(r, g, s, f, alts, now) && IdsApart(r, s) && Meets(r, g, s, f, alts, fate, t, now)
    ensures IdsApart(r, t) <==> Neat(fate)
  {
    match fate
    case GivenUp => var k :| Undone(r, s, t, alts, k); UndoneApart(r, s, t, alts, k);
    case Blocked(marks) => StrandedApart(r, s, t, alts);
    case Snapped(n) => OverlapsOn(r, s, f, alts, Blocks(alts)[..n], t);
    case Changed =>
      var v, n, c :| Shed(r, g, s, f, alts, v, t, n, c, now);
      ChangedApart(r, g, s, f, alts, v, t, n, c, now);
    case Broken => OverlapsOn(r, s, f, alts, Blocks(alts), t);
    case Bounced(k) => BouncedApart(r, s, t, k, Hashes(r, Blocks(alts)));
    case Wreck(k) => WreckMixes(r, s, k, Step(t, Threw));
  }

  // ---------- the work of the tip ----------

  /** After such a fate the tip counts less than before. */
  ghost predicate Sinks(r: Rules, was: seq<Record>, f: nat, alts: seq<Node>, fate: Fate)
    requires 1 <= f < |was|
  {
    var c, bs, work := Nodes(was)[..f], Blocks(alts), Last(was).node.work;
    match fate
    case Snapped(n) => n <= |bs| && MainWork(r, c, bs[..n]) < work
    case Changed => MainWork(r, c, bs) < work
    case Broken => MainWork(r, c, bs) < work
    case Bounced(k) => k < |was|
    case Wreck(k) => k < |was|
    case _ => false
  }

  lemma {:induction false} TipIs(t: State, d: seq<Node>)
    requires d != [] && Nodes(t.main) == d
    ensures t.main != [] && Runs.TipWork(t) == Last(d).work
  {
    assert |Nodes(t.main)| == |t.main|;
  }

  lemma {:induction false} FrontWork(r: Rules, g: Record, c: seq<Record>, k: nat, now: nat)
    requires Replays(r, g, c, now) && 1 <= k <= |c|
    ensures Last(c[..k]).node.work <= Last(c).node.work && (k < |c| <==> Last(c[..k]).node.work < Last(c).node.work)
  {
    ReplaysPath(r, g, c, now);
    WorkGrows(r, g.node, Nodes(c), k - 1, |c| - 1);
    assert k == |c| ==> c[..k] == c;
  }

  lemma {:induction false} SwitchSinksIff(r: Rules, g: Record, s: State, f: nat, alts: seq<Node>, fate: Fate, t: State, now: nat)
    requires Healthy(r, g, s, now) && 1 <= f < |s.main| && Meets(r, g, s, f, alts, fate, t, now)
    ensures t.main != [] && (Runs.TipWork(t) < Runs.TipWork(s) <==> Sinks(r, s.main, f, alts, fate))
  {
    var d, bs := Nodes(s.main)[..f], Blocks(alts);
    match fate
    case GivenUp =>
    case Blocked(marks) =>
    case Snapped(n) => TipIs(t, MainChain(r, d, bs[..n]));
    case Changed => TipIs(t, MainChain(r, d, bs));
    case Broken => TipIs(t, MainChain(r, d, bs));
    case Bounced(k) => FrontWork(r, g, s.main, k, now);
    case Wreck(k) => FrontWork(r, g, s.main, k, now);
  }

  // ---------- the heaviest block kept ----------

  /** No stored block outside the branch counts more than `work`. */
  ghost predicate Tops(r: Rules, alt: map<Hash, Node>, alts: seq<Node>, work: nat) {
    forall h :: h in alt && h !in Hashes(r, Blocks(alts)) ==> alt[h].work <= work
  }

  /** After such a fate the tip is the heaviest block kept. */
  ghost predicate Leads(r: Rules, s: State, f: nat, alts: seq<Node>, fate: Fate)
    requires 1 <= f < |s.main| && alts != []
  {
    var c, bs := Nodes(s.main)[..f], Blocks(alts);
    match fate
    case Quiet => true
    case GivenUp => true
    case Blocked(_) => false
    case Snapped(n) => n <= |bs| && Last(alts).work <= MainWork(r, c, bs[..n])
    case Changed => Tops(r, s.alt, alts, MainWork(r, c, bs))
    case Broken => Last(alts).work <= MainWork(r, c, bs)
    case Bounced(k) => 1 <= k <= |s.main| && Tops(r, s.alt, alts, s.main[k - 1].node.work)
    case Wreck(_) => false
  }

  /** The last block of the branch outweighs the tip, and nothing else does. */
  ghost predicate Outweighs(r: Rules, s: State, alts: seq<Node>) {
    && s.main != [] && alts != [] && AllStored(r, s.alt, alts) && Runs.TipWork(s) < Last(alts).work
    && forall h :: h in s.alt && h != r.hash(Last(alts).block) ==> s.alt[h].work <= Runs.TipWork(s)
  }

  lemma {:induction false} LastOfBranch(r: Rules, s: State, alts: seq<Node>)
    requires alts != [] && AllStored(r, s.alt, alts)
    ensures r.hash(Last(alts).block) in s.alt && s.alt[r.hash(Last(alts).block)] == Last(alts) && r.hash(Last(alts).block) in Hashes(r, Blocks(alts))
  {
    assert Blocks(alts)[|alts| - 1] == Last(alts).block;
    assert r.hash(alts[|alts| - 1].block) in s.alt;
  }

  /** Where the last block of the branch stays stored, it decides. */
  lemma {:induction false} LastDecides(r: Rules, s: State, alts: seq<Node>, t: State)
    requires Outweighs(r, s, alts) && t.main != [] && (forall h :: h in s.alt ==> h in t.alt && t.alt[h] == s.alt[h])
    requires forall h :: h in t.alt && h !in s.alt ==> t.alt[h].work <= Runs.TipWork(t)
    ensures ForkChoice.Heaviest(t) <==> Last(alts).work <= Runs.TipWork(t)
  {
    LastOfBranch(r, s, alts);
  }

  lemma {:induction false} UndoneLeads(r: Rules, s: State, alts: seq<Node>, t: State, k: nat)
    requires Outweighs(r, s, alts) && Undone(r, s, t, alts, k)
    ensures ForkChoice.Heaviest(t)
  {
    assert Blocks(alts[k..])[|alts| - 1 - k] == Last(alts).block;
  }

  lemma {:induction false} LodgedLow(r: Rules, g: Record, s: State, f: nat, alts: seq<Node>, n: nat, c: seq<Node>, v: State, h: Hash, now: nat)
    requires v.main != [] && Lodged(r, g, s, f, alts, n, c, v, Last(v.main).node.work, now) && h in v.alt && h !in s.alt
    ensures v.alt[h].work <= Runs.TipWork(v)
  {
    assert OldHash(r, s, f, n, h);
    var i :| f <= i < n <= |s.main| && h == r.hash(s.main[i].node.block);
    assert KeptAt(r, s, c, v, i);
  }

  lemma {:induction false} ShedLeads(r: Rules, g: Record, s: State, f: nat, alts: seq<Node>, v: State, t: State, n: nat, c: seq<Node>, now: nat)
    requires Shed(r, g, s, f, alts, v, t, n, c, now)
    ensures t.main != [] && (ForkChoice.Heaviest(t) <==> Tops(r, s.alt, alts, Runs.TipWork(t)))
  {
    forall h | h in t.alt && h !in s.alt ensures t.alt[h].work <= Runs.TipWork(t) { LodgedLow(r, g, s, f, alts, n, c, v, h, now); }
    assert forall h :: h in s.alt && h !in Hashes(r, Blocks(alts)) ==> h in t.alt && t.alt[h] == s.alt[h];
  }

  lemma {:induction false} BouncedLeads(r: Rules, s: State, alts: seq<Node>, t: State, k: nat)
    requires 1 <= k <= |s.main| && t.main == s.main[..k] && t.alt == s.alt - Hashes(r, Blocks(alts))
    ensures ForkChoice.Heaviest(t) <==> Tops(r, s.alt, alts, s.main[k - 1].node.work)
  {
    assert Last(t.main) == s.main[k - 1];
    assert forall h :: h in s.alt && h !in Hashes(r, Blocks(alts)) ==> h in t.alt && t.alt[h] == s.alt[h];
  }

  lemma {:induction false} WreckLeadsNot(r: Rules, g: Record, s: State, alts: seq<Node>, k: nat, e: Step, now: nat)
    requires Healthy(r, g, s, now) && Outweighs(r, s, alts) && Wrecked(r, s, k, e)
    ensures !ForkChoice.Heaviest(e.state)
  {
    LastOfBranch(r, s, alts);
    FrontWork(r, g, s.main, k, now);
  }

  lemma {:induction false} SwitchLeadsIff(r: Rules, g: Record, s: State, f: nat, alts: seq<Node>, fate: Fate, t: State, now: nat)
    requires Healthy(r, g, s, now) && 1 <= f < |s.main| && Outweighs(r, s, alts) && Meets(r, g, s, f, alts, fate, t, now)
    ensures ForkChoice.Heaviest(t) <==> Leads(r, s, f, alts, fate)
  {
    var d, bs := Nodes(s.main)[..f], Blocks(alts);
    match fate
    case GivenUp => var k :| Undone(r, s, t, alts, k); UndoneLeads(r, s, alts, t, k);
    case Blocked(marks) => LastOfBranch(r, s, alts);
    case Snapped(n) => TipIs(t, MainChain(r, d, bs[..n])); LastDecides(r, s, alts, t);
    case Changed =>
      TipIs(t, MainChain(r, d, bs));
      var v, n, c :| Shed(r, g, s, f, alts, v, t, n, c, now);
      ShedLeads(r, g, s, f, alts, v, t, n, c, now);
    case Broken =>
      TipIs(t, MainChain(r, d, bs));
      BrokenLeads(r, g, s, f, alts, t, now);
    case Bounced(k) => BouncedLeads(r, s, alts, t, k);
    case Wreck(k) => WreckLeadsNot(r, g, s, alts, k, Step(t, Threw), now);
  }

  lemma {:induction false} BrokenLeads(r: Rules, g: Record, s: State, f: nat, alts: seq<Node>, t: State, now: nat)
    requires Outweighs(r, s, alts) && t.main != [] && exists n, c :: Lodged(r, g, s, f, alts, n, c, t, Last(t.main).node.work, now)
    ensures ForkChoice.Heaviest(t) <==> Last(alts).work <= Runs.TipWork(t)
  {
    var n, c :| Lodged(r, g, s, f, alts, n, c, t, Last(t.main).node.work, now);
    forall h | h in t.alt && h !in s.alt ensures t.alt[h].work <= Runs.TipWork(t) { LodgedLow(r, g, s, f, alts, n, c, t, h, now); }
    LastDecides(r, s, alts, t);
  }

  // ---------- any block ----------

  lemma {:induction false} BuildDroppable(r: Rules, alt: map<Hash, Node>, h: Hash)
    requires Keyed(r, alt)
    ensures Droppable(r, alt, Blocks(BuildAlt(alt, h)))
    decreases alt.Keys
  {
    BuildKeyed(r, alt, h);
    if h in alt {
      var left := alt - {h};
      BuildKeyed(r, left, alt[h].block.prev);
      BuildDroppable(r, left, alt[h].block.prev);
      var a := BuildAlt(left, alt[h].block.prev);
      DroppableMore(r, left, alt, Blocks(a), alt[h].block);
      assert Blocks(a + [alt[h]]) == Blocks(a) + [alt[h].block];
    }
  }

  lemma {:induction false} DroppableMore(r: Rules, alt: map<Hash, Node>, alt': map<Hash, Node>, bs: seq<Block>, b: Block)
    requires Droppable(r, alt, bs) && r.hash(b) !in alt && r.hash(b) in alt' && forall h :: h in alt ==> h in alt'
    ensures Droppable(r, alt', bs + [b])
  {
  }

  /** A heavier branch that a block completes: the ground for a switch. */
  lemma {:induction false} PlacedGround(r: Rules, g: Record, s: State, b: Block, p: Placed, f: nat, now: nat)
    requires Lawful(r) && IsGenesis(g) && Healthy(r, g, s, now) && Keyed(r, s.alt) && IdsApart(r, s)
    requires !HaveBlock(r, s, r.hash(b)) && b.prev != TipHash(r, s) && p == PlaceAlt(r, s, b) && p.outcome == Heavier
    requires p.branch != [] && Joins(r, p.state, p.branch) && f == SplitOf(r, p.state, p.branch)
    ensures Ground(r, g, p.state, f, p.branch, now) && IdsApart(r, p.state) && p.state.main == s.main
  {
    var d := PlaceUnfolds(r, s, b);
    PlacedIntact(r, g, s, b, p, now);
    Falls.ForksBelow(r, s, b, p);
    PlacedBranch(r, s, b, p, d);
    PlacedApart(r, s, b, p.state, Last(p.branch));
    GroundIs(r, g, p.state, f, p.branch, now);
  }

  lemma {:induction false} GroundIs(r: Rules, g: Record, s: State, f: nat, alts: seq<Node>, now: nat)
    requires Lawful(r) && IsGenesis(g) && Healthy(r, g, s, now) && Keyed(r, s.alt) && Unmixed(r, s)
    requires alts != [] && Joins(r, s, alts) && f == SplitOf(r, s, alts) < |s.main|
    requires AllStored(r, s.alt, alts) && Linked(r, alts) && Droppable(r, s.alt, Blocks(alts))
    ensures Ground(r, g, s, f, alts, now)
  {
  }

  lemma {:induction false} PlacedApart(r: Rules, s: State, b: Block, t: State, x: Node)
    requires IdsApart(r, s) && !HaveBlock(r, s, r.hash(b)) && t == s.(alt := s.alt[r.hash(b) := x])
    ensures IdsApart(r, t) && Unmixed(r, t) && (Keyed(r, s.alt) && x.block == b ==> Keyed(r, t.alt))
  {
    forall k | 0 <= k < |s.main| ensures r.hash(s.main[k].node.block) !in t.alt { IsOnMain(r, s.main, k); }
  }

  lemma {:induction false} PlacedBranch(r: Rules, s: State, b: Block, p: Placed, d: nat)
    requires s.main != [] && Keyed(r, s.alt) && r.hash(b) !in s.alt && Storable(r, s, b, d) && p == StoreAlt(r, s, b, NewNode(r, s, b, d))
    ensures AllStored(r, p.state.alt, p.branch) && Linked(r, p.branch) && Droppable(r, p.state.alt, Blocks(p.branch))
    ensures Last(p.branch) == NewNode(r, s, b, d)
  {
    var a, x := BuildAlt(s.alt, b.prev), NewNode(r, s, b, d);
    BuildKeyed(r, s.alt, b.prev);
    BuildDroppable(r, s.alt, b.prev);
    DroppableMore(r, s.alt, p.state.alt, Blocks(a), b);
    assert Blocks(p.branch) == Blocks(a) + [b];
  }

  /** What becomes of an offered block. */
  ghost function FateOf(r: Rules, g: Record, s: State, b: Block, now: nat): Fate
    requires s.main != []
  {
    var p, alts := PlaceAlt(r, s, b), Runs.Challenger(r, s, b);
    if alts == [] || !Joins(r, p.state, alts) || SplitOf(r, p.state, alts) == |s.main| then Quiet
    else SwitchFate(r, g, p.state, SplitOf(r, p.state, alts), alts, now)
  }

  /** The call as a switch, if the block completes a heavier branch. */
  lemma {:induction false} OfferedSwitches(r: Rules, g: Record, s: State, b: Block, p: Placed, f: nat, st: Step, now: nat)
    requires Lawful(r) && IsGenesis(g) && Healthy(r, g, s, now) && Keyed(r, s.alt) && IdsApart(r, s)
    requires p == PlaceAlt(r, s, b) && Runs.Challenger(r, s, b) != [] && st == DeepAdd(r, s, b, now, 1)
    ensures Runs.Challenger(r, s, b) == p.branch != [] && Joins(r, p.state, p.branch) && SplitOf(r, p.state, p.branch) < |s.main|
    ensures f == SplitOf(r, p.state, p.branch) ==>
              && Ground(r, g, p.state, f, p.branch, now) && IdsApart(r, p.state) && p.state.main == s.main
              && Meets(r, g, p.state, f, p.branch, FateOf(r, g, s, b, now), st.state, now)
  {
    Falls.ForksBelow(r, s, b, p);
    if f == SplitOf(r, p.state, p.branch) {
      PlacedGround(r, g, s, b, p, f, now);
      var q := DeepSwitch(r, p.state, p.branch, now, 1);
      FollowIs(r, p, q, now, 1);
      SwitchTold(r, g, p.state, f, p.branch, FateOf(r, g, s, b, now), q, now);
    }
  }

  /** Without a switch: the state is as it was, or has one block more on top, or beside. */
  ghost predicate Hushed(r: Rules, g: Record, s: State, t: State, now: nat) {
    && s.main != [] && t.main != [] && (IdsApart(r, s) ==> IdsApart(r, t)) && Runs.TipWork(s) <= Runs.TipWork(t)
    && forall h :: h in t.alt ==> t.alt[h].work <= Runs.TipWork(s) || (h in s.alt && t.alt[h] == s.alt[h])
  }

  lemma {:induction false} OnTopHushed(r: Rules, g: Record, s: State, b: Block, st: Step, now: nat)
    requires Healthy(r, g, s, now) && !HaveBlock(r, s, r.hash(b)) && st == HandleMain(r, s, b, now)
    ensures Hushed(r, g, s, st.state, now)
  {
    var x := MainKeeps(r, g, s, b, now);
    Falls.OnTopGains(r, g, s, b, st, now);
    if IdsApart(r, s) { Runs.MainApart(r, g, s, b, st, x, now); }
  }

  lemma {:induction false} BesideHushed(r: Rules, g: Record, s: State, b: Block, p: Placed, now: nat)
    requires Healthy(r, g, s, now) && !HaveBlock(r, s, r.hash(b)) && p == PlaceAlt(r, s, b) && p.outcome != Heavier
    ensures Hushed(r, g, s, p.state, now)
  {
    var d := PlaceUnfolds(r, s, b);
  }

  lemma {:induction false} QuietHushed(r: Rules, g: Record, s: State, b: Block, st: Step, now: nat)
    requires Healthy(r, g, s, now) && Runs.Challenger(r, s, b) == [] && st == DeepAdd(r, s, b, now, 1)
    ensures Hushed(r, g, s, st.state, now)
  {
    if HaveBlock(r, s, r.hash(b)) {
    } else if b.prev == TipHash(r, s) {
      OnTopHushed(r, g, s, b, st, now);
    } else {
      var p := PlaceAlt(r, s, b);
      if p.outcome == Heavier { Falls.ForksBelow(r, s, b, p); }
      FollowNot(r, p, now, 2);
      BesideHushed(r, g, s, b, p, now);
    }
  }

  /**
   Any block, in any state in which chain and pool are consistent and no block is kept in two
   places: that stays so exactly if the fate of the block is a neat one.
   */
  lemma {:induction false} ApartIff(r: Rules, g: Record, s: State, b: Block, st: Step, now: nat)
    requires Lawful(r) && IsGenesis(g) && Healthy(r, g, s, now) && Keyed(r, s.alt) && IdsApart(r, s) && st == DeepAdd(r, s, b, now, 1)
    ensures IdsApart(r, st.state) <==> Neat(FateOf(r, g, s, b, now))
  {
    if Runs.Challenger(r, s, b) == [] {
      QuietHushed(r, g, s, b, st, now);
    } else {
      var p := PlaceAlt(r, s, b);
      Falls.ForksBelow(r, s, b, p);
      var f := SplitOf(r, p.state, p.branch);
      OfferedSwitches(r, g, s, b, p, f, st, now);
      SwitchApartIff(r, g, p.state, f, p.branch, FateOf(r, g, s, b, now), st.state, now);
    }
  }

  /** The fate of the block lets the tip lose work. */
  ghost predicate Sinking(r: Rules, g: Record, s: State, b: Block, now: nat)
    requires s.main != []
  {
    var p, alts := PlaceAlt(r, s, b), Runs.Challenger(r, s, b);
    && alts != [] && Joins(r, p.state, alts) && SplitOf(r, p.state, alts) < |s.main|
    && Sinks(r, s.main, SplitOf(r, p.state, alts), alts, FateOf(r, g, s, b, now))
  }

  /** In such a state, the work of the tip falls exactly then. */
  lemma {:induction false} WorkFallsIff(r: Rules, g: Record, s: State, b: Block, st: Step, now: nat)
    requires Lawful(r) && IsGenesis(g) && Healthy(r, g, s, now) && Keyed(r, s.alt) && IdsApart(r, s) && st == DeepAdd(r, s, b, now, 1)
    ensures Runs.TipWork(st.state) < Runs.TipWork(s) <==> Sinking(r, g, s, b, now)
  {
    if Runs.Challenger(r, s, b) == [] {
      QuietHushed(r, g, s, b, st, now);
    } else {
      var p := PlaceAlt(r, s, b);
      Falls.ForksBelow(r, s, b, p);
      var f := SplitOf(r, p.state, p.branch);
      OfferedSwitches(r, g, s, b, p, f, st, now);
      SwitchSinksIff(r, g, p.state, f, p.branch, FateOf(r, g, s, b, now), st.state, now);
    }
  }

  /** The fate of the block leaves the tip the heaviest block kept. */
  ghost predicate Leading(r: Rules, g: Record, s: State, b: Block, now: nat)
    requires s.main != []
  {
    var p, alts := PlaceAlt(r, s, b), Runs.Challenger(r, s, b);
    alts == [] ||
    (&& Joins(r, p.state, alts) && SplitOf(r, p.state, alts) < |s.main|
     && Leads(r, p.state, SplitOf(r, p.state, alts), alts, FateOf(r, g, s, b, now)))
  }

  lemma {:induction false} PlacedOutweighs(r: Rules, g: Record, s: State, b: Block, p: Placed)
    requires ForkChoice.Heaviest(s) && Keyed(r, s.alt) && r.hash(b) !in s.alt && p == PlaceAlt(r, s, b) && p.outcome == Heavier
    ensures Outweighs(r, p.state, p.branch)
  {
    var d := PlaceUnfolds(r, s, b);
    PlacedBranch(r, s, b, p, d);
  }

  /** In such a state, if the tip is the heaviest block kept, it stays so exactly then. */
  lemma {:induction false} HeaviestIff(r: Rules, g: Record, s: State, b: Block, st: Step, now: nat)
    requires Lawful(r) && IsGenesis(g) && Healthy(r, g, s, now) && Keyed(r, s.alt) && IdsApart(r, s) && st == DeepAdd(r, s, b, now, 1)
    requires ForkChoice.Heaviest(s)
    ensures ForkChoice.Heaviest(st.state) <==> Leading(r, g, s, b, now)
  {
    if Runs.Challenger(r, s, b) == [] {
      QuietHushed(r, g, s, b, st, now);
    } else {
      var p := PlaceAlt(r, s, b);
      Falls.ForksBelow(r, s, b, p);
      var f := SplitOf(r, p.state, p.branch);
      OfferedSwitches(r, g, s, b, p, f, st, now);
      PlacedOutweighs(r, g, s, b, p);
      SwitchLeadsIff(r, g, p.state, f, p.branch, FateOf(r, g, s, b, now), st.state, now);
    }
  }

  /** Where the difficulty rule agrees, a neat fate is what `Runs.Mixes` denies, and no work is lost. */
  lemma {:induction false} LevelIsNeat(r: Rules, g: Record, s: State, b: Block, now: nat)
    requires Inv(r, g, s, now) && s.main != [] && (b.prev != TipHash(r, s) ==> Runs.Level(r, s, b))
    ensures Neat(FateOf(r, g, s, b, now)) <==> !Runs.Mixes(r, g, s, b, now)
    ensures !Sinking(r, g, s, b, now)
  {
    var st := AddNewBlock(r, s, b, now);
    assert Keyed(r, s.alt) by { forall h | h in s.alt ensures r.hash(s.alt[h].block) == h { assert AltNode(r, g.node, h, s.alt[h]); } }
    Runs.AddNewBlockKeeps(r, g, s, b, st, Runs.Mixes(r, g, s, b, now), now);
    AddIsPlain(r, s, b, st, now, 1);
    ApartIff(r, g, s, b, st, now);
    WorkFallsIff(r, g, s, b, st, now);
  }

  // ---------- whole runs ----------

  /** No block comes whose fate is not a neat one. */
  ghost predicate Neatly(r: Rules, g: Record, s: State, es: seq<Runs.Event>)
    requires s.main != []
    decreases |es|
  {
    es == [] ||
    ((es[0].Incoming? ==> Neat(FateOf(r, g, s, es[0].block, es[0].at))) && Neatly(r, g, Runs.Apply(r, s, es[0]), es[1..]))
  }

  /** From the start on and after every event, no block is kept in two places. */
  ghost predicate StaysApart(r: Rules, s: State, es: seq<Runs.Event>)
    requires s.main != []
    decreases |es|
  {
    IdsApart(r, s) && (es == [] || StaysApart(r, Runs.Apply(r, s, es[0]), es[1..]))
  }

  /** What is asked of the start of a run. */
  ghost predicate Sound(r: Rules, g: Record, s: State, clock: nat) {
    Lawful(r) && IsGenesis(g) && Healthy(r, g, s, clock) && Keyed(r, s.alt)
  }

  lemma {:induction false} EventSound(r: Rules, g: Record, s: State, e: Runs.Event, t: State, clock: nat)
    requires Sound(r, g, s, clock) && Runs.Admissible(r, s, e, clock) && t == Runs.Apply(r, s, e)
    ensures Sound(r, g, t, e.at) && Healthy(r, g, s, e.at)
  {
    Runs.HealthyLater(r, g, s, clock, e.at);
    Runs.EventHealthy(r, g, s, e, t, clock);
    if e.Incoming? { DeepAddKeyed(r, s, e.block, e.at, 1); }
  }

  lemma {:induction false} EventApartIff(r: Rules, g: Record, s: State, e: Runs.Event, t: State, clock: nat)
    requires Sound(r, g, s, clock) && IdsApart(r, s) && Runs.Admissible(r, s, e, clock) && t == Runs.Apply(r, s, e)
    ensures IdsApart(r, t) <==> (e.Incoming? ==> Neat(FateOf(r, g, s, e.block, e.at)))
  {
    EventSound(r, g, s, e, t, clock);
    if e.Incoming? {
      ApartIff(r, g, s, e.block, DeepAdd(r, s, e.block, e.at, 1), e.at);
    } else if e.PopBlocks? {
      Runs.PopApart(r, g, s, |s.main| - Min(e.count, |s.main| - 1), e.at);
    } else {
      Runs.PoolEventApart(r, s, e, t);
    }
  }

  /** Over every run, whatever the rule answers: no block is ever kept in two places exactly if the run is neat. */
  lemma {:induction false} RunApartIff(r: Rules, g: Record, s: State, es: seq<Runs.Event>, clock: nat)
    requires Sound(r, g, s, clock) && IdsApart(r, s) && Runs.Orderly(r, s, es, clock, Runs.Plain)
    ensures StaysApart(r, s, es) <==> Neatly(r, g, s, es)
    decreases |es|
  {
    if es != [] {
      var t := Runs.Apply(r, s, es[0]);
      EventApartIff(r, g, s, es[0], t, clock);
      EventSound(r, g, s, es[0], t, clock);
      if IdsApart(r, t) { RunApartIff(r, g, t, es[1..], es[0].at); }
    }
  }

  /** No pop, and no block with which the tip loses work. */
  ghost predicate Buoyant(r: Rules, g: Record, s: State, es: seq<Runs.Event>)
    requires s.main != []
    decreases |es|
  {
    es == [] ||
    (&& !es[0].PopBlocks? && (es[0].Incoming? ==> !Sinking(r, g, s, es[0].block, es[0].at))
     && Buoyant(r, g, Runs.Apply(r, s, es[0]), es[1..]))
  }

  /** At no event the work of the tip falls. */
  ghost predicate NeverFalls(r: Rules, s: State, es: seq<Runs.Event>)
    requires s.main != []
    decreases |es|
  {
    es == [] ||
    (var t := Runs.Apply(r, s, es[0]); Runs.TipWork(s) <= Runs.TipWork(t) && NeverFalls(r, t, es[1..]))
  }

  lemma {:induction false} EventFallsIff(r: Rules, g: Record, s: State, e: Runs.Event, t: State, clock: nat)
    requires Sound(r, g, s, clock) && IdsApart(r, s) && Runs.Admissible(r, s, e, clock) && t == Runs.Apply(r, s, e) && !e.PopBlocks?
    ensures Runs.TipWork(t) < Runs.TipWork(s) <==> e.Incoming? && Sinking(r, g, s, e.block, e.at)
  {
    EventSound(r, g, s, e, t, clock);
    if e.Incoming? {
      WorkFallsIff(r, g, s, e.block, DeepAdd(r, s, e.block, e.at, 1), e.at);
    } else {
      Runs.PoolEventApart(r, s, e, t);
    }
  }

  /** Over every neat run without pops: the work of the tip never falls exactly if no block makes it. */
  lemma {:induction false} RunFallsIff(r: Rules, g: Record, s: State, es: seq<Runs.Event>, clock: nat)
    requires Sound(r, g, s, clock) && IdsApart(r, s) && Runs.Orderly(r, s, es, clock, Runs.Plain) && Runs.NoPop(es) && Neatly(r, g, s, es)
    ensures NeverFalls(r, s, es) <==> Buoyant(r, g, s, es)
    decreases |es|
  {
    if es != [] {
      var t := Runs.Apply(r, s, es[0]);
      assert !es[0].PopBlocks?;
      EventFallsIff(r, g, s, es[0], t, clock);
      EventApartIff(r, g, s, es[0], t, clock);
      EventSound(r, g, s, es[0], t, clock);
      RunFallsIff(r, g, t, es[1..], es[0].at);
    }
  }

  /** No block comes that takes the lead from the tip. */
  ghost predicate Led(r: Rules, g: Record, s: State, es: seq<Runs.Event>)
    requires s.main != []
    decreases |es|
  {
    es == [] ||
    ((es[0].Incoming? ==> Leading(r, g, s, es[0].block, es[0].at)) && Led(r, g, Runs.Apply(r, s, es[0]), es[1..]))
  }

  /** From the start on and after every event, the tip is the heaviest block kept. */
  ghost predicate StaysHeaviest(r: Rules, s: State, es: seq<Runs.Event>)
    requires s.main != []
    decreases |es|
  {
    ForkChoice.Heaviest(s) && (es == [] || StaysHeaviest(r, Runs.Apply(r, s, es[0]), es[1..]))
  }

  lemma {:induction false} EventLeadsIff(r: Rules, g: Record, s: State, e: Runs.Event, t: State, clock: nat)
    requires Sound(r, g, s, clock) && IdsApart(r, s) && ForkChoice.Heaviest(s) && !e.PopBlocks?
    requires Runs.Admissible(r, s, e, clock) && t == Runs.Apply(r, s, e)
    ensures ForkChoice.Heaviest(t) <==> (e.Incoming? ==> Leading(r, g, s, e.block, e.at))
  {
    EventSound(r, g, s, e, t, clock);
    if e.Incoming? {
      HeaviestIff(r, g, s, e.block, DeepAdd(r, s, e.block, e.at, 1), e.at);
    } else {
      Runs.PoolEventApart(r, s, e, t);
    }
  }

  /** Over every neat run without pops: the tip stays the heaviest block kept exactly if no block takes the lead. */
  lemma {:induction false} RunHeaviestIff(r: Rules, g: Record, s: State, es: seq<Runs.Event>, clock: nat)
    requires Sound(r, g, s, clock) && IdsApart(r, s) && ForkChoice.Heaviest(s)
    requires Runs.Orderly(r, s, es, clock, Runs.Plain) && Runs.NoPop(es) && Neatly(r, g, s, es)
    ensures StaysHeaviest(r, s, es) <==> Led(r, g, s, es)
    decreases |es|
  {
    if es != [] {
      var t := Runs.Apply(r, s, es[0]);
      assert !es[0].PopBlocks?;
      EventLeadsIff(r, g, s, es[0], t, clock);
      EventApartIff(r, g, s, es[0], t, clock);
      EventSound(r, g, s, es[0], t, clock);
      if ForkChoice.Heaviest(t) { RunHeaviestIff(r, g, t, es[1..], es[0].at); }
    }
  }
}
