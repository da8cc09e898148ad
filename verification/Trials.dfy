/** Chains built block by block, to a timetable, for the states in which a promise fails. */
module Trials {
  import opened Ledger
  import opened Windows
  import opened Chain
  import opened MemPool
  import opened Reorg
  import opened MainSteps
  import opened Branches
  import opened Switching
  import Bootstrap
  import Emission
  import Lwma

  /** The rules of the node where every proof of work, coinbase form, input and timestamp passes. */
  function Easy(hash: Block -> Hash): Rules {
    Lwma.NodeRules(hash, (b, d) => true, b => true, (c, tx) => true, tx => true, s => 0)
  }

  /** A block every 300 seconds, as the difficulty rule aims at. */
  function OnTime(h: nat): nat { Lwma.TARGET + Lwma.TARGET * h }

  /** A timetable: when each block of a chain is found. */
  ghost predicate Timetable(at: nat -> nat) {
    at(0) == Lwma.TARGET && forall i: nat, j: nat {:trigger at(i), at(j)} :: i <= j ==> at(i) <= at(j)
  }

  /** The rules of the node, in which no coinbase and no timestamp is refused. */
  ghost predicate Plain(r: Rules) {
    && Lawful(r) && Lwma.Uses(r)
    && (forall b :: r.coinbase(b)) && (forall stamps :: r.median(stamps) == 0)
  }

  /** Nor is any proof of work. */
  ghost predicate Lenient(r: Rules) { Plain(r) && forall b, d :: r.pow(b, d) }

  lemma {:induction false} EasyIsLenient(hash: Block -> Hash)
    requires Lwma.NoCollision(hash)
    ensures Lenient(Easy(hash))
  {
    var r := Easy(hash);
    Lwma.NodeRulesLawful(hash, r.pow, r.coinbase, r.inputs, r.sound, r.median);
  }

  function First(): Record {
    Record(Node(Block(0, Lwma.TARGET, 0, [], [], 0, 0), 1), Emission.CoinsAt(0), 0, [])
  }

  /** An empty block on top of `c`. */
  function PacedBlock(at: nat -> nat, r: Rules, c: seq<Record>, nonce: nat): Block
    requires c != []
  {
    Block(r.hash(Last(c).node.block), at(|c|), |c|, [], [Emission.Reward(Last(c).coins)], 0, nonce)
  }

  /** An accepted chain of such blocks. */
  ghost predicate Paced(at: nat -> nat, r: Rules, c: seq<Record>) {
    && Replays(r, First(), c, at(|c|))
    && forall i :: 0 <= i < |c| ==> PacedAt(at, c, i)
  }

  ghost predicate PacedAt(at: nat -> nat, c: seq<Record>, i: nat)
    requires i < |c|
  {
    c[i].node.block.timestamp == at(i) && c[i].node.block.nonce == 0 && c[i].txs == []
  }

  /** The record of one block more. */
  function PacedNext(at: nat -> nat, r: Rules, c: seq<Record>, nonce: nat): Record
    requires c != [] && WorkOk(r, c, PacedBlock(at, r, c, nonce))
  {
    Grow(r, c, PacedBlock(at, r, c, nonce), [])
  }

  lemma {:induction false} PacedFits(at: nat -> nat, r: Rules, c: seq<Record>, nonce: nat, now: nat)
    requires Plain(r) && c != [] && WorkOk(r, c, PacedBlock(at, r, c, nonce)) && at(|c|) <= now
    ensures Fits(r, c, PacedNext(at, r, c, nonce), now)
  {
    var b := PacedBlock(at, r, c, nonce);
    var x := PacedNext(at, r, c, nonce);
    assert HeaderOk(r, c, b, now);
    assert Weights([]) == [] && Fees([]) == [] && Ids([]) == [];
    SumOne(Emission.Reward(Last(c).coins));
    assert BodyOk(r, c, b, []);
  }

  lemma {:induction false} SumOne(x: nat)
    ensures Sum([x]) == x && Sum([]) == 0
  {
    assert [x][..0] == [];
  }

  lemma {:induction false} PacedGrows(at: nat -> nat, r: Rules, c: seq<Record>)
    requires Plain(r) && Timetable(at) && Paced(at, r, c) && WorkOk(r, c, PacedBlock(at, r, c, 0))
    ensures Paced(at, r, c + [PacedNext(at, r, c, 0)])
  {
    var x := PacedNext(at, r, c, 0);
    var d := c + [x];
    PacedFits(at, r, c, 0, at(|d|));
    ReplaysLater(r, First(), c, at(|c|), at(|d|));
    ReplaysPush(r, First(), c, x, at(|d|));
    forall i | 0 <= i < |d| ensures PacedAt(at, d, i) {
      if i < |c| { assert PacedAt(at, c, i); }
    }
  }

  /** Up to 147 blocks the difficulty is constant. */
  lemma {:induction false} PacedUpTo(at: nat -> nat, r: Rules, n: nat) returns (c: seq<Record>)
    requires Plain(r) && Timetable(at) && (forall b :: r.pow(b, Lwma.FIRST_WORK)) && 1 <= n <= Lwma.BOOTSTRAP
    ensures |c| == n && Paced(at, r, c)
    ensures forall i :: 0 <= i < n ==> c[i].node.work == 1 + Lwma.FIRST_WORK * i
  {
    if n == 1 {
      c := [First()];
    } else {
      var b := PacedUpTo(at, r, n - 1);
      Lwma.ShortBranchThrows(Nodes(b), n - 1);
      assert Lwma.AnswersFor(r, Nodes(b), n - 1);
      PacedGrows(at, r, b);
      c := b + [PacedNext(at, r, b, 0)];
    }
  }

  /** A pool without transactions. */
  function NoTxs(): Pool { Pool(map[], map[], [], 0, 0, {}) }

  /** The same empty block with another nonce. */
  function Renumbered(x: Record): Record {
    Record(Node(x.node.block.(nonce := 1), x.node.work), x.coins, x.weight, [])
  }

  lemma {:induction false} RenumberedFits(r: Rules, c: seq<Record>, x: Record, now: nat)
    requires Lenient(r) && c != [] && Fits(r, c, x, now) && x.txs == []
    ensures Fits(r, c, Renumbered(x), now)
  {
  }

  lemma {:induction false} FindsNot(r: Rules, c: seq<Record>, b: Block)
    requires Lawful(r)
    ensures InMain(r, c, r.hash(b)) ==> exists i :: 0 <= i < |c| && c[i].node.block == b
  {
    var k := Find(r, c, r.hash(b));
    if k < |c| { assert SameHash(r, c[k].node.block, b); }
  }

  /** Each block names the one before it, and its height. */
  lemma {:induction false} PacedChained(at: nat -> nat, r: Rules, c: seq<Record>)
    requires Paced(at, r, c)
    ensures Chained(r, c)
  {
    HealthyChained(r, First(), c, at(|c|));
  }

  /** A block of an accepted chain may be stored beside another. */
  lemma {:induction false} StoredKnown(at: nat -> nat, r: Rules, c: seq<Record>, i: nat)
    requires Paced(at, r, c) && 1 <= i < |c|
    ensures AltNode(r, First().node, r.hash(c[i].node.block), c[i].node)
  {
    PrefixReplays(r, First(), c, i + 1, at(|c|));
    ReplaysPath(r, First(), c[..i + 1], at(|c|));
    assert Last(Nodes(c[..i + 1])) == c[i].node;
    PacedChained(at, r, c);
    HeightIs(r, c, i);
  }

  /** An empty block joins without touching anything else. */
  lemma {:induction false} EmptyJoins(r: Rules, s: State, y: Record, now: nat)
    requires s.main != [] && Fits(r, s.main, y, now) && y.txs == [] && NextDefined(r, s.main + [y])
    ensures HandleMain(r, s, y.node.block, now) == Step(s.(main := s.main + [y]), Added)
  {
    assert y.node.block.txs == [];
  }

  /** Popping empty blocks touches nothing else. */
  lemma {:induction false} EmptyPopsTo(r: Rules, c: seq<Record>, rest: seq<Record>, s: State, now: nat)
    requires c != [] && s.main == c + rest && forall i :: 0 <= i < |rest| ==> rest[i].txs == []
    ensures PopTo(r, s, |c|, now) == s.(main := c)
    decreases |rest|
  {
    if rest == [] {
      assert s.main == c;
    } else {
      var n := |rest| - 1;
      var t := PopBlock(r, s, now);
      assert Front(s.main) == c + rest[..n];
      assert Last(s.main) == rest[n];
      assert Reverse(rest[n].txs) == [];
      EmptyPopsTo(r, c, rest[..n], t, now);
    }
  }

  // ---------- a block beside the main chain ----------

  lemma {:induction false} FindOnTop(r: Rules, c: seq<Record>, d: seq<Record>, h: Hash)
    requires c <= d && Find(r, c, h) < |c|
    ensures Find(r, d, h) == Find(r, c, h)
  {
    var k := Find(r, c, h);
    assert forall i :: 0 <= i <= k ==> d[i] == c[i];
  }

  /** What the branch routine sees of a block whose parent is the last of `c`. */
  lemma {:induction false} AsideSees(r: Rules, c: seq<Record>, s: State)
    requires c != [] && c <= s.main && Find(r, c, r.hash(Last(c).node.block)) == |c| - 1
    requires r.hash(Last(c).node.block) !in s.alt
    ensures var prev := r.hash(Last(c).node.block);
            && BuildAlt(s.alt, prev) == [] && Attached(r, s.main, [], prev) && AltHeight(r, s.main, [], prev) == |c|
            && ParentChain(r, s.main, [], prev) == Nodes(c)
            && AltStamps(r, s.main, [], prev) == FillStamps(Nodes(c), |c| - 1, 0)
  {
    var prev := r.hash(Last(c).node.block);
    FindOnTop(r, c, s.main, prev);
    assert Nodes(s.main)[..|c|] == Nodes(c);
    assert Nodes(c) + [] == Nodes(c);
    Bootstrap.FillSame(Nodes(s.main), Nodes(c), |c|, 0);
    assert Reverse(Stamps([])) + FillStamps(Nodes(c), |c| - 1, 0) == FillStamps(Nodes(c), |c| - 1, 0);
  }

  /** A block with the right height and difficulty is stored on the branch it names. */
  lemma {:induction false} LenientStores(r: Rules, s: State, b: Block, d: nat, alts: seq<Node>)
    requires Lenient(r) && BuildAlt(s.alt, b.prev) == alts && Attached(r, s.main, alts, b.prev) && r.hash(b) !in s.alt
    requires r.ahead(ParentChain(r, s.main, alts, b.prev), |s.main|) == Some(d) && d != 0
    requires b.height == AltHeight(r, s.main, alts, b.prev)
    ensures Storable(r, s, b, d)
  {
    StorableIs(r, s, b, d, alts);
  }

  /** A block beside the tip that is heavier is switched to. */
  lemma {:induction false} BesideSwitches(r: Rules, s: State, b: Block, p: Placed, f: nat, st: Step, now: nat)
    requires s.main != [] && !HaveBlock(r, s, r.hash(b)) && b.prev != TipHash(r, s)
    requires PlaceAlt(r, s, b) == p && p.outcome == Heavier && p.branch != [] && Joins(r, p.state, p.branch)
    requires f == SplitOf(r, p.state, p.branch) && st == SwitchAt(r, p.state, f, p.branch, now)
    ensures AddNewBlock(r, s, b, now) == st
  {
    SwitchIs(r, p.state, p.branch, now);
  }

  /** The last block of an accepted chain is found at its height. */
  lemma {:induction false} TipFound(r: Rules, c: seq<Record>, now: nat)
    requires Lawful(r) && Replays(r, First(), c, now)
    ensures Find(r, c, r.hash(Last(c).node.block)) == |c| - 1
  {
    ReplaysPath(r, First(), c, now);
    FindAt(r, First().node, c, |c| - 1);
  }

  // ---------- chains at equal distances ----------

  /** A block every `gap` seconds, each of the first difficulty. */
  ghost predicate Even(c: seq<Record>, gap: nat) {
    forall i :: 0 <= i < |c| ==>
      c[i].node.block.timestamp == Lwma.TARGET + gap * i && c[i].node.work == 1 + Lwma.FIRST_WORK * i
  }

  lemma {:induction false} EvenParts(c: seq<Record>, x: Record, y: Record, gap: nat)
    requires Even(c + [x], gap) && y.node.block.timestamp == x.node.block.timestamp && y.node.work == x.node.work
    ensures Even(c, gap) && Even(c + [y], gap)
  {
    forall i | 0 <= i < |c| ensures c[i] == (c + [x])[i] { }
    assert (c + [x])[|c|] == x;
  }

  /** Up to twenty seconds a block, the rule asks for ten times as much once it is told of 147 blocks. */
  lemma {:induction false} EvenAhead(r: Rules, c: seq<Record>, gap: nat, length: nat)
    requires Lwma.Uses(r) && Even(c, gap) && 1 <= gap <= 20 && 146 <= |c| <= 147 <= length
    ensures r.ahead(Nodes(c), length) == Some(10_452_992)
  {
    var w, from := Window(Nodes(c)), |c| - WINDOW;
    assert w == Nodes(c)[from..];
    var stamps, works := Stamps(w), Works(w);
    forall i | 0 <= i < WINDOW ensures stamps[i] == Lwma.TARGET + gap * (from + i) { assert w[i] == c[from + i].node; }
    assert w[0] == c[from].node && w[WINDOW - 1] == c[from + WINDOW - 1].node;
    EvenStamps(stamps, gap, from);
    Lwma.FastWeight(stamps, gap);
    Lwma.FastNext(stamps, works, length);
    assert Lwma.AnswersFor(r, Nodes(c), length);
  }

  lemma {:induction false} EvenStamps(stamps: seq<nat>, gap: nat, from: nat)
    requires stamps != [] && forall i :: 0 <= i < |stamps| ==> stamps[i] == Lwma.TARGET + gap * (from + i)
    ensures Lwma.EvenFrom(stamps[0], stamps[1..], gap)
  {
    forall i | 0 <= i < |stamps[1..]| ensures stamps[1..][i] == stamps[0] + gap * (i + 1) {
      assert stamps[1..][i] == Lwma.TARGET + gap * (from + i + 1);
      assert gap * (from + (i + 1)) == gap * (from + 0) + gap * (i + 1);
    }
    Lwma.EvenIs(stamps[0], stamps[1..], gap);
  }
}
