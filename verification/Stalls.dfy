/**
 States in which a heavier branch stays beside the main chain: the difficulty rule throws behind the
 tip, so a branch that is refused is neither taken nor forgotten.
 */
module Stalls {
  import opened Ledger
  import opened Windows
  import opened Chain
  import opened MemPool
  import opened Reorg
  import opened Transit
  import opened MainSteps
  import opened Branches
  import opened Switching
  import opened Forecast
  import opened Trials
  import opened Rivals
  import ForkChoice
  import Lwma
  import Runs

  /** One second after the block before, where that is on time. */
  function Quick(h: nat): nat { Lwma.TARGET * h + 1 }

  /** The rules of the node, where inputs are good only behind a block that is on time. */
  function Fussy(hash: Block -> Hash): Rules {
    Lwma.NodeRules(hash, (b, d) => true, b => true, Punctual, tx => true, s => 0)
  }

  function Punctual(c: seq<Record>, tx: Tx): bool {
    c == [] || Last(c).node.block.timestamp % Lwma.TARGET == 0
  }

  lemma {:induction false} FussyIsLenient(hash: Block -> Hash)
    requires Lwma.NoCollision(hash)
    ensures Lenient(Fussy(hash))
  {
    var r := Fussy(hash);
    Lwma.NodeRulesLawful(hash, r.pow, r.coinbase, r.inputs, r.sound, r.median);
  }

  // ---------- a tip that is late, and one that is not ----------

  /** `y` could be the last block of `c` as well, but the rule throws behind `c`, and not behind `y`. */
  ghost predicate Parting(r: Rules, c: seq<Record>, y: Record)
  {
    && Lwma.BOOTSTRAP < |c| && Paced(OnTime, r, c) && !NextDefined(r, c)
    && Low(c, |c| - 1, Lwma.FIRST_WORK)
    && Fits(r, c[..|c| - 1], y, OnTime(|c|)) && y.txs == []
    && y.node.block.timestamp == Quick(|c| - 1) && y.node.work == c[|c| - 1].node.work
    && r.ahead(Nodes(c[..|c| - 1] + [y]), |c|) == Some(1)
  }

  /** The blocks up to `y`. */
  function Turned(c: seq<Record>, y: Record): seq<Record>
    requires c != []
  {
    c[..|c| - 1] + [y]
  }

  lemma {:induction false} WindowTurned(r: Rules, c: seq<Record>, y: Record)
    requires Paced(OnTime, r, c) && Lwma.BOOTSTRAP < |c| && OnTime(|c|) < U64
    requires y.node.block.timestamp == Quick(|c| - 1) && y.node.work == c[|c| - 1].node.work
    ensures var v, w := Window(Nodes(Turned(c, y))), Window(Nodes(c));
            |v| == WINDOW && Works(v) == Works(w) && Lwma.SolveWeight(Stamps(v)) == 3_089_244
  {
    var d := Turned(c, y);
    var v, w, from := Window(Nodes(d)), Window(Nodes(c)), |c| - WINDOW;
    var stamps := Stamps(v);
    forall i | 0 <= i < WINDOW ensures v[i] == d[from + i].node && w[i] == c[from + i].node { }
    forall i | 0 <= i < WINDOW - 1 ensures stamps[i] == OnTime(from + i) { assert PacedAt(OnTime, c, from + i); }
    var rest := stamps[1..WINDOW - 1];
    forall i | 0 <= i < |rest| ensures rest[i] == stamps[0] + Lwma.TARGET * (i + 1) { }
    Lwma.EvenIs(stamps[0], rest, Lwma.TARGET);
    Lwma.LateWeight(stamps, Lwma.TARGET, 1);
  }

  lemma {:induction false} DryAverage(r: Rules, c: seq<Record>)
    requires Lenient(r) && Paced(OnTime, r, c) && Lwma.BOOTSTRAP < |c| && OnTime(|c|) < U64
    requires Low(c, |c| - 1, Lwma.FIRST_WORK) && !NextDefined(r, c)
    ensures Lwma.Average(Works(Window(Nodes(c)))) == 1
  {
    LowFewer(c, |c| - 1, Lwma.N, Lwma.FIRST_WORK);
    OnTimeRule(r, c, Lwma.FIRST_WORK);
    WindowOnTime(r, c);
    ReplaysPath(r, First(), c, OnTime(|c|));
    WorkGrows(r, First().node, Nodes(c), |c| - WINDOW, |c| - 1);
    LowSpan(c, |c| - WINDOW, |c| - 1, Lwma.N, Lwma.FIRST_WORK);
    var works := Works(Window(Nodes(c)));
    assert works[0] == c[|c| - WINDOW].node.work && works[WINDOW - 1] == c[|c| - 1].node.work;
    AverageLeast(works);
  }

  lemma {:induction false} AverageLeast(works: seq<nat>)
    requires |works| == WINDOW && works[0] + Lwma.N <= works[WINDOW - 1] <= works[0] + Lwma.FIRST_WORK * Lwma.N
    ensures 1 <= Lwma.Average(works)
  {
    assert (works[WINDOW - 1] - works[0]) % Lwma.U128 == works[WINDOW - 1] - works[0];
  }

  /** Blocks on time wear the difficulty down to where the last block decides whether the rule throws. */
  lemma {:induction false} PartingExists(r: Rules) returns (c: seq<Record>, y: Record)
    requires Lenient(r)
    ensures Parting(r, c, y)
  {
    c := DryChain(r);
    var n := |c| - 1;
    assert FitsAt(r, c, n, OnTime(|c|));
    y := PacedNext(Quick, r, c[..n], 0);
    PacedFits(Quick, r, c[..n], 0, OnTime(|c|));
    WindowTurned(r, c, y);
    DryAverage(r, c);
    var v := Window(Nodes(Turned(c, y)));
    Lwma.QuickNext(Stamps(v), Works(v), |c|);
    assert Lwma.AnswersFor(r, Nodes(Turned(c, y)), |c|);
  }

  // ---------- the state and the block ----------

  /** `y` is stored beside the main chain `c`. */
  function Waiting(r: Rules, c: seq<Record>, y: Record, p: Pool): State {
    State(c, map[r.hash(y.node.block) := y.node], {}, p)
  }

  const TX: Tx := Tx(0, [], 1, 1)

  /** A pool that holds just that transaction. */
  function OneTx(): Pool { Insert(NoTxs(), Entry(TX, Fluff, 1.0, 0)) }

  lemma {:induction false} OneTxWF()
    ensures WF(OneTx()) && OneTx().txs == map[TX.id := Entry(TX, Fluff, 1.0, 0)]
  {
    InsertWF(NoTxs(), Entry(TX, Fluff, 1.0, 0));
  }

  /** A block on top of `y` with that transaction. */
  function Closing(r: Rules, c: seq<Record>, y: Record): Block
    requires c != []
  {
    PacedBlock(Quick, r, Turned(c, y), 0).(txs := [TX.id])
  }

  lemma {:induction false} TurnedReplays(r: Rules, c: seq<Record>, y: Record)
    requires Parting(r, c, y)
    ensures Replays(r, First(), Turned(c, y), OnTime(|c|))
  {
    ReplacedTop(r, c, y, OnTime(|c|));
  }

  lemma {:induction false} ReplacedTop(r: Rules, c: seq<Record>, y: Record, now: nat)
    requires 2 <= |c| && Replays(r, First(), c, now) && Fits(r, c[..|c| - 1], y, now)
    ensures Replays(r, First(), c[..|c| - 1] + [y], now)
  {
    PrefixReplays(r, First(), c, |c| - 1, now);
    ReplaysPush(r, First(), c[..|c| - 1], y, now);
  }

  lemma {:induction false} TurnedLinks(r: Rules, c: seq<Record>, y: Record)
    requires Parting(r, c, y)
    ensures y.node.block.height == |c| - 1 && y.node.block.prev == r.hash(c[|c| - 2].node.block)
  {
    assert Last(c[..|c| - 1]) == c[|c| - 2];
  }

  lemma {:induction false} TurnedKnown(r: Rules, c: seq<Record>, y: Record)
    requires Parting(r, c, y)
    ensures AltNode(r, First().node, r.hash(y.node.block), y.node)
  {
    TurnedReplays(r, c, y);
    ReplaysPath(r, First(), Turned(c, y), OnTime(|c|));
    assert Last(Nodes(Turned(c, y))) == y.node;
    TurnedLinks(r, c, y);
  }

  /** No block of `c` is late by a second. */
  lemma {:induction false} NotQuick(r: Rules, c: seq<Record>, b: Block, h: nat)
    requires Lawful(r) && Paced(OnTime, r, c) && b.timestamp == Quick(h)
    ensures !InMain(r, c, r.hash(b))
  {
    FindsNot(r, c, b);
    forall i | 0 <= i < |c| ensures c[i].node.block != b { assert PacedAt(OnTime, c, i); }
  }

  lemma {:induction false} NoTxIds(c: seq<Record>)
    requires forall i :: 0 <= i < |c| ==> c[i].txs == []
    ensures TxIds(c) == {}
    decreases |c|
  {
    if c != [] { NoTxIds(Front(c)); }
  }

  lemma {:induction false} OnTimeHealthy(r: Rules, c: seq<Record>, s: State, now: nat)
    requires Paced(OnTime, r, c) && s.main == c && PoolOk(r, s.pool) && now == OnTime(|c|)
    ensures Healthy(r, First(), s, now)
  {
    forall i | 0 <= i < |c| ensures c[i].txs == [] { assert PacedAt(OnTime, c, i); }
    NoTxIds(c);
  }

  lemma {:induction false} OneAltApart(r: Rules, s: State, y: Node)
    requires s.alt == map[r.hash(y.block) := y] && s.invalid == {} && !InMain(r, s.main, r.hash(y.block))
    ensures IdsApart(r, s)
  {
  }

  lemma {:induction false} WaitingInv(r: Rules, c: seq<Record>, y: Record, p: Pool, s: State, now: nat)
    requires Lenient(r) && Parting(r, c, y) && PoolOk(r, p) && s == Waiting(r, c, y, p) && now == OnTime(|c|)
    ensures Inv(r, First(), s, now)
  {
    OnTimeHealthy(r, c, s, now);
    TurnedKnown(r, c, y);
    NotQuick(r, c, y.node.block, |c| - 1);
    OneAltApart(r, s, y.node);
  }

  lemma {:induction false} ClosingIsNew(r: Rules, c: seq<Record>, y: Record)
    requires Lenient(r) && Parting(r, c, y)
    ensures !SameHash(r, Closing(r, c, y), y.node.block) && !InMain(r, c, r.hash(Closing(r, c, y)))
    ensures !SameHash(r, y.node.block, c[|c| - 1].node.block)
  {
    TurnedLinks(r, c, y);
    NotQuick(r, c, Closing(r, c, y), |c|);
    NotQuick(r, c, y.node.block, |c| - 1);
    assert PacedAt(OnTime, c, |c| - 1);
  }

  lemma {:induction false} ClosingBuilds(r: Rules, c: seq<Record>, y: Record)
    requires Lenient(r) && Parting(r, c, y)
    ensures BuildAlt(map[r.hash(y.node.block) := y.node], r.hash(y.node.block)) == [y.node]
  {
    TurnedLinks(r, c, y);
    assert PacedAt(OnTime, c, |c| - 2);
    assert !SameHash(r, c[|c| - 2].node.block, y.node.block);
    var alt := map[r.hash(y.node.block) := y.node];
    assert BuildAlt(alt - {r.hash(y.node.block)}, y.node.block.prev) == [];
    assert [] + [y.node] == [y.node];
  }

  lemma {:induction false} ClosingParent(r: Rules, c: seq<Record>, y: Record, prev: Hash)
    requires Parting(r, c, y)
    ensures Attached(r, c, [y.node], prev) && AltHeight(r, c, [y.node], prev) == |c|
    ensures ParentChain(r, c, [y.node], prev) == Nodes(Turned(c, y))
  {
    TurnedLinks(r, c, y);
    assert Find(r, c, y.node.block.prev) <= |c| - 2;
    assert Nodes(c)[..|c| - 1] + [y.node] == Nodes(Turned(c, y));
  }

  lemma {:induction false} ClosingStorable(r: Rules, c: seq<Record>, y: Record, s: State, b: Block)
    requires Lenient(r) && Parting(r, c, y) && b == Closing(r, c, y)
    requires s.main == c && BuildAlt(s.alt, b.prev) == [y.node] && r.hash(b) !in s.alt
    ensures Storable(r, s, b, 1) && NewNode(r, s, b, 1) == Node(b, y.node.work + 1)
  {
    ClosingParent(r, c, y, b.prev);
    LenientStores(r, s, b, 1, [y.node]);
    assert Last(Nodes(Turned(c, y))) == y.node;
  }

  /** `y` waits beside the main chain `c`, and `z` is what `b` on top of it would be. */
  ghost predicate Scene(r: Rules, c: seq<Record>, y: Record, s: State, b: Block, z: Node) {
    && Lenient(r) && Parting(r, c, y) && b == Closing(r, c, y) && z == Node(b, y.node.work + 1)
    && s.main == c && s.alt == map[r.hash(y.node.block) := y.node] && s.invalid == {}
  }

  /** The block completes a branch that is heavier than the main chain. */
  lemma {:induction false} ClosingPlaced(r: Rules, c: seq<Record>, y: Record, s: State, b: Block, z: Node)
    requires Scene(r, c, y, s, b, z)
    ensures PlaceAlt(r, s, b) == Placed(s.(alt := s.alt[r.hash(b) := z]), [y.node] + [z], Heavier)
  {
    ClosingIsNew(r, c, y);
    ClosingBuilds(r, c, y);
    assert !SameHash(r, b, y.node.block);
    ClosingStorable(r, c, y, s, b);
    LastWork(c, y);
    StoredIs(r, s, z, 1, y.node);
  }

  lemma {:induction false} LastWork(c: seq<Record>, y: Record)
    requires c != [] && y.node.work == c[|c| - 1].node.work
    ensures Last(c).node.work == y.node.work
  {
  }

  lemma {:induction false} Beside(r: Rules, s: State, y: Node, b: Block)
    requires s.main != [] && s.alt == map[r.hash(y.block) := y] && s.invalid == {} && b.prev == r.hash(y.block)
    requires !SameHash(r, b, y.block) && !InMain(r, s.main, r.hash(b)) && !SameHash(r, y.block, Last(s.main).node.block)
    ensures b.prev != TipHash(r, s) && !HaveBlock(r, s, r.hash(b))
  {
  }

  lemma {:induction false} ClosingBeside(r: Rules, c: seq<Record>, y: Record, s: State, b: Block, z: Node)
    requires Scene(r, c, y, s, b, z)
    ensures b.prev != TipHash(r, s) && !HaveBlock(r, s, r.hash(b))
  {
    ClosingIsNew(r, c, y);
    Beside(r, s, y.node, b);
  }

  lemma {:induction false} ClosingChallenges(r: Rules, c: seq<Record>, y: Record, s: State, b: Block, z: Node)
    requires Scene(r, c, y, s, b, z)
    ensures Runs.Challenger(r, s, b) == [y.node] + [z] && Runs.ForkOf([y.node] + [z]) == |c| - 1
  {
    ClosingBeside(r, c, y, s, b, z);
    ClosingPlaced(r, c, y, s, b, z);
    TurnedLinks(r, c, y);
  }

  // ---------- what becomes of it ----------

  lemma {:induction false} ClosingAgrees(r: Rules, c: seq<Record>, y: Record, s: State, b: Block, z: Node)
    requires Scene(r, c, y, s, b, z)
    ensures Agrees(r, s, b)
  {
    ClosingBuilds(r, c, y);
    ClosingParent(r, c, y, b.prev);
  }

  lemma {:induction false} LowSteady(r: Rules, c: seq<Record>, n: nat, length: nat)
    requires Lenient(r) && c != [] && Low(c, |c| - 1, Lwma.FIRST_WORK) && Lwma.BOOTSTRAP <= n < |c| && Lwma.BOOTSTRAP <= length
    ensures SameAhead(r, Nodes(c[..n]), length, n)
  {
    var w := Window(Nodes(c[..n]));
    var works := Works(w);
    var from: nat := n - WINDOW;
    assert works[0] == c[from].node.work && works[WINDOW - 1] == c[n - 1].node.work;
    LowSpan(c, from, n - 1, |c| - 1, Lwma.FIRST_WORK);
    AverageBound(works, Lwma.FIRST_WORK);
    assert Lwma.AnswersFor(r, Nodes(c[..n]), length) && Lwma.AnswersFor(r, Nodes(c[..n]), n);
  }

  lemma {:induction false} TipSteady(r: Rules, s: State, n: nat, length: nat)
    requires |s.main| == n + 1 && SameAhead(r, Nodes(s.main[..n]), length, n)
    ensures OldSteady(r, s, n, length)
  {
    assert Nodes(s.main)[..n] == Nodes(s.main[..n]);
    assert SteadyAt(r, s, n, length);
  }

  lemma {:induction false} LevelIs(r: Rules, s: State, b: Block, p: Placed)
    requires s.main != [] && p == PlaceAlt(r, s, b) && Agrees(r, s, b) && OldSteady(r, s, Runs.ForkOf(p.branch), b.height + 1)
    ensures Runs.Level(r, s, b)
  {
  }

  lemma {:induction false} SteadyHere(r: Rules, s: State, n: nat, length: nat)
    requires Lenient(r) && |s.main| == n + 1 && Low(s.main, n, Lwma.FIRST_WORK) && Lwma.BOOTSTRAP <= n && Lwma.BOOTSTRAP <= length
    ensures OldSteady(r, s, n, length)
  {
    LowSteady(r, s.main, n, length);
    TipSteady(r, s, n, length);
  }

  /** The difficulty rule agrees wherever it is asked. */
  lemma {:induction false} ClosingLevel(r: Rules, c: seq<Record>, y: Record, s: State, b: Block, z: Node)
    requires Scene(r, c, y, s, b, z)
    ensures Runs.Level(r, s, b)
  {
    ClosingAgrees(r, c, y, s, b, z);
    ClosingPlaced(r, c, y, s, b, z);
    ClosingSteady(r, c, y, s, b, z);
    LevelIs(r, s, b, PlaceAlt(r, s, b));
  }

  lemma {:induction false} ClosingSteady(r: Rules, c: seq<Record>, y: Record, s: State, b: Block, z: Node)
    requires Scene(r, c, y, s, b, z)
    ensures OldSteady(r, s, Runs.ForkOf([y.node] + [z]), b.height + 1)
  {
    TurnedLinks(r, c, y);
    SteadyHere(r, s, |c| - 1, b.height + 1);
  }

  /** The branch is not acceptable: behind `y` the inputs are not good. */
  lemma {:induction false} ClosingRefused(r: Rules, c: seq<Record>, y: Record, s: State, alts: seq<Node>, f: nat, now: nat)
    requires c != [] && s.main == c && r.inputs == Punctual && y.node.block.timestamp == Quick(|c| - 1) && 1 <= f == |c| - 1
    requires |alts| == 2 && alts[0] == y.node && alts[1].block.txs == [TX.id]
    ensures !Joinable(r, First(), s, f, alts, now)
  {
    forall rs ensures !JoinsAs(r, First(), s, f, alts, rs, now) {
      if Nodes(rs) == alts { InputsRefused(r, c[..f] + rs, rs, f, now); }
    }
  }

  lemma {:induction false} InputsRefused(r: Rules, d: seq<Record>, rs: seq<Record>, f: nat, now: nat)
    requires r.inputs == Punctual && |rs| == 2 && |d| == f + 2 && d[f..] == rs
    requires rs[0].node.block.timestamp == Quick(f) && rs[1].node.block.txs == [TX.id]
    ensures !Replays(r, First(), d, now)
  {
    assert d[f] == d[f..][0] && d[f + 1] == d[f..][1];
    assert Last(d[..f + 1]) == rs[0];
    if FitsAt(r, d, f + 1, now) {
      assert |Ids(rs[1].txs)| == 1;
    }
  }

  lemma {:induction false} ClosingHeader(r: Rules, c: seq<Record>, y: Record, b: Block, now: nat)
    requires Lenient(r) && Parting(r, c, y) && b == Closing(r, c, y) && now == OnTime(|c|)
    ensures HeaderOk(r, Turned(c, y), b, now)
  {
  }

  lemma {:induction false} TurnedNoTxs(r: Rules, c: seq<Record>, y: Record)
    requires Parting(r, c, y)
    ensures TxIds(Turned(c, y)) == {}
  {
    var d := Turned(c, y);
    forall i | 0 <= i < |d| ensures d[i].txs == [] { if i < |c| - 1 { assert PacedAt(OnTime, c, i); } }
    NoTxIds(d);
  }

  lemma {:induction false} TurnedGoes(r: Rules, c: seq<Record>, y: Record, t: State, now: nat)
    requires Parting(r, c, y) && t.main == c[..|c| - 1] && now == OnTime(|c|)
    ensures GoesAs(r, First(), t, [y.node.block], [y], now)
  {
    TurnedReplays(r, c, y);
  }

  /** With the transaction in the pool, the block is marked. */
  lemma {:induction false} ClosingMarks(r: Rules, c: seq<Record>, y: Record, t: State, b: Block, bs: seq<Block>, now: nat)
    requires Lenient(r) && r.inputs == Punctual && Parting(r, c, y) && b == Closing(r, c, y) && now == OnTime(|c|)
    requires t.main == c[..|c| - 1] && TX.id in t.pool.txs && bs == [y.node.block, b]
    ensures Marks(r, First(), t, bs, now)
  {
    TurnedGoes(r, c, y, t, now);
    ClosingHeader(r, c, y, b, now);
    TurnedNoTxs(r, c, y);
    MarkedNext(r, t, y, Turned(c, y), b, bs, |c| - 1, now);
  }

  lemma {:induction false} MarkedNext(r: Rules, t: State, y: Record, d: seq<Record>, b: Block, bs: seq<Block>, f: nat, now: nat)
    requires r.inputs == Punctual && y.node.block.timestamp == Quick(f) && d == t.main + [y] && NextDefined(r, d)
    requires bs == [y.node.block, b] && b.txs == [TX.id] && TX.id in t.pool.txs && TxIds(d) == {}
    requires GoesAs(r, First(), t, [y.node.block], [y], now) && HeaderOk(r, d, b, now)
    ensures Marks(r, First(), t, bs, now)
  {
    assert bs[..1] == [y.node.block];
    BadFirst(r, d, t.pool.txs, b.txs);
    assert MarksAt(r, First(), t, bs, 1, [y], now);
  }

  lemma {:induction false} EmptyPoolNotBad(r: Rules, c: seq<Record>, ids: seq<TxId>, i: nat)
    ensures !Bad(r, c, map[], ids, i)
  {
  }

  /** With an empty pool no block is. */
  lemma {:induction false} EmptyPoolMarksNot(r: Rules, g: Record, t: State, bs: seq<Block>, now: nat)
    requires t.pool.txs == map[]
    ensures !Marks(r, g, t, bs, now)
  {
    forall c, ids, i: nat ensures !Bad(r, c, t.pool.txs, ids, i) { EmptyPoolNotBad(r, c, ids, i); }
  }

  lemma {:induction false} TipPops(r: Rules, c: seq<Record>, s: State, now: nat)
    requires Paced(OnTime, r, c) && 2 <= |c| && s.main == c
    ensures PopTo(r, s, |c| - 1, now) == s.(main := c[..|c| - 1])
  {
    var n := |c| - 1;
    assert c == c[..n] + [c[n]];
    assert PacedAt(OnTime, c, n);
    EmptyPopsTo(r, c[..n], [c[n]], s, now);
  }

  lemma {:induction false} LateMarks(r: Rules, c: seq<Record>, y: Record, s: State, b: Block, t: State, bs: seq<Block>, now: nat)
    requires Lenient(r) && r.inputs == Punctual && Parting(r, c, y) && b == Closing(r, c, y) && now == OnTime(|c|)
    requires s.main == c && t == PopTo(r, s, |c| - 1, now) && bs == [y.node.block, b]
    requires s.pool.txs == map[] || TX.id in s.pool.txs
    ensures Marks(r, First(), t, bs, now) <==> TX.id in s.pool.txs
  {
    TipPops(r, c, s, now);
    if TX.id in s.pool.txs {
      ClosingMarks(r, c, y, t, b, bs, now);
    } else {
      EmptyPoolMarksNot(r, First(), t, bs, now);
    }
  }

  /** The branch gets stuck, and is mixed exactly so. */
  ghost predicate EndsUp(r: Rules, s: State, f: nat, alts: seq<Node>, marks: bool, now: nat) {
    ForkChoice.Stuck(r, First(), s, f, alts, now) && Runs.Mixed(r, First(), s, f, alts, now) == marks
  }

  lemma {:induction false} RefusedIs(r: Rules, s: State, f: nat, alts: seq<Node>, marks: bool, now: nat)
    requires alts != [] && 1 <= f <= |s.main| && !NextDefined(r, s.main) && !Joinable(r, First(), s, f, alts, now)
    requires marks == Marks(r, First(), PopTo(r, s, f, now), Blocks(alts), now)
    ensures EndsUp(r, s, f, alts, marks, now)
  {
  }

  lemma {:induction false} LateBranch(r: Rules, c: seq<Record>, y: Record, s: State, b: Block, alts: seq<Node>, f: nat, now: nat)
    requires Lenient(r) && r.inputs == Punctual && Parting(r, c, y) && s.main == c && b == Closing(r, c, y) && f == |c| - 1
    requires |alts| == 2 && alts[0] == y.node && alts[1].block == b && now == OnTime(|c|)
    requires s.pool.txs == map[] || TX.id in s.pool.txs
    ensures EndsUp(r, s, f, alts, TX.id in s.pool.txs, now)
  {
    TwoBlocks(alts);
    LateMarks(r, c, y, s, b, PopTo(r, s, f, now), Blocks(alts), now);
    LateEnds(r, c, y, s, alts, f, TX.id in s.pool.txs, now);
  }

  lemma {:induction false} LateEnds(r: Rules, c: seq<Record>, y: Record, s: State, alts: seq<Node>, f: nat, marks: bool, now: nat)
    requires s.main == c && 1 <= f == |c| - 1 && !NextDefined(r, c) && r.inputs == Punctual && y.node.block.timestamp == Quick(f)
    requires |alts| == 2 && alts[0] == y.node && alts[1].block.txs == [TX.id]
    requires marks == Marks(r, First(), PopTo(r, s, f, now), Blocks(alts), now)
    ensures EndsUp(r, s, f, alts, marks, now)
  {
    ClosingRefused(r, c, y, s, alts, f, now);
    RefusedIs(r, s, f, alts, marks, now);
  }

  lemma {:induction false} TwoBlocks(alts: seq<Node>)
    requires |alts| == 2
    ensures Blocks(alts) == [alts[0].block, alts[1].block]
  {
  }

  lemma {:induction false} ClosingForecast(r: Rules, c: seq<Record>, y: Record, s: State, b: Block, z: Node, now: nat)
    requires Scene(r, c, y, s, b, z) && r.inputs == Punctual
    requires now == OnTime(|c|) && (s.pool.txs == map[] || TX.id in s.pool.txs)
    ensures ForkChoice.GetsStuck(r, First(), s, b, now)
    ensures Runs.Mixes(r, First(), s, b, now) <==> TX.id in s.pool.txs
  {
    ClosingPlaced(r, c, y, s, b, z);
    ClosingChallenges(r, c, y, s, b, z);
    LateBranch(r, c, y, PlaceAlt(r, s, b).state, b, [y.node] + [z], |c| - 1, now);
  }

  /** A sound state with the heaviest tip, and a block that leaves a heavier branch beside the main chain. */
  ghost predicate Stalls(r: Rules, s: State, b: Block, now: nat) {
    && Inv(r, First(), s, now) && ForkChoice.Heaviest(s) && Runs.Level(r, s, b)
    && ForkChoice.GetsStuck(r, First(), s, b, now)
    && !ForkChoice.Heaviest(AddNewBlock(r, s, b, now).state)
  }

  lemma {:induction false} StallsSo(r: Rules, s: State, b: Block, st: Step, mixed: bool, now: nat)
    requires Inv(r, First(), s, now) && ForkChoice.Heaviest(s) && Runs.Level(r, s, b) && st == AddNewBlock(r, s, b, now)
    requires ForkChoice.GetsStuck(r, First(), s, b, now) && mixed == Runs.Mixes(r, First(), s, b, now)
    ensures Stalls(r, s, b, now) && (IdsApart(r, st.state) <==> !mixed)
  {
    ForkChoice.TipStaysHeaviest(r, First(), s, b, st, now);
    Runs.AddNewBlockKeeps(r, First(), s, b, st, mixed, now);
  }

  lemma {:induction false} WaitingHeaviest(r: Rules, c: seq<Record>, y: Record, p: Pool, s: State)
    requires c != [] && y.node.work == c[|c| - 1].node.work && s == Waiting(r, c, y, p)
    ensures ForkChoice.Heaviest(s)
  {
  }

  lemma {:induction false} ClosingStalls(r: Rules, c: seq<Record>, y: Record, p: Pool, s: State, b: Block, st: Step, now: nat)
    requires Lenient(r) && r.inputs == Punctual && Parting(r, c, y) && PoolOk(r, p) && (p.txs == map[] || TX.id in p.txs)
    requires s == Waiting(r, c, y, p) && b == Closing(r, c, y) && now == OnTime(|c|) && st == AddNewBlock(r, s, b, now)
    ensures Stalls(r, s, b, now)
    ensures IdsApart(r, st.state) <==> TX.id !in p.txs
  {
    var z := Node(b, y.node.work + 1);
    WaitingInv(r, c, y, p, s, now);
    WaitingHeaviest(r, c, y, p, s);
    ClosingLevel(r, c, y, s, b, z);
    ClosingForecast(r, c, y, s, b, z, now);
    StallsSo(r, s, b, st, TX.id in p.txs, now);
  }

  lemma {:induction false} StallAt(r: Rules, p: Pool) returns (s: State, b: Block, now: nat)
    requires Lenient(r) && r.inputs == Punctual && PoolOk(r, p) && (p.txs == map[] || TX.id in p.txs)
    ensures Stalls(r, s, b, now) && (IdsApart(r, AddNewBlock(r, s, b, now).state) <==> TX.id !in p.txs)
    ensures s.pool == p && Punctual(s.main, TX)
  {
    var c, y := PartingExists(r);
    s, b, now := Waiting(r, c, y, p), Closing(r, c, y), OnTime(|c|);
    ClosingStalls(r, c, y, p, s, b, AddNewBlock(r, s, b, now), now);
    TipPunctual(r, c);
  }

  /**
   Every block on time, until the rule throws behind the tip; beside it a block that came quicker. A
   block on top of that, with a transaction the node does not have, leaves a heavier branch stored.
   */
  lemma {:induction false} StallHappens(hash: Block -> Hash) returns (s: State, b: Block, now: nat)
    requires Lwma.NoCollision(hash)
    ensures Stalls(Fussy(hash), s, b, now) && IdsApart(Fussy(hash), AddNewBlock(Fussy(hash), s, b, now).state)
  {
    FussyIsLenient(hash);
    s, b, now := StallAt(Fussy(hash), NoTxs());
  }

  /**
   With the transaction in the pool, its inputs good on the main chain but not on the branch, the
   block is at once stored and marked as invalid.
   */
  lemma {:induction false} StainHappens(hash: Block -> Hash) returns (s: State, b: Block, now: nat)
    requires Lwma.NoCollision(hash)
    ensures Stalls(Fussy(hash), s, b, now) && !IdsApart(Fussy(hash), AddNewBlock(Fussy(hash), s, b, now).state)
    ensures forall id :: id in s.pool.txs ==> Fussy(hash).inputs(s.main, s.pool.txs[id].tx)
  {
    FussyIsLenient(hash);
    OneTxWF();
    OneTxOk(Fussy(hash));
    s, b, now := StallAt(Fussy(hash), OneTx());
  }

  lemma {:induction false} OneTxOk(r: Rules)
    requires forall tx :: r.sound(tx)
    ensures PoolOk(r, OneTx())
  {
    OneTxWF();
  }

  lemma {:induction false} TipPunctual(r: Rules, c: seq<Record>)
    requires Paced(OnTime, r, c)
    ensures Punctual(c, TX)
  {
    assert PacedAt(OnTime, c, |c| - 1);
  }
}
