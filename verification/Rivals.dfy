/**
 Two states, built block by block, in which a single block makes the node throw half-way through a
 switch: one near the start of the chain, and one where the difficulty has worn down, as it does
 even when every block comes in the time that the rule aims at.
 */
module Rivals {
  import opened Ledger
  import opened Windows
  import opened Chain
  import opened Reorg
  import opened MainSteps
  import opened Branches
  import opened Switching
  import opened Bootstrap
  import opened Trials
  import Lwma

  // ---------- the window of a chain on time ----------

  lemma {:induction false} WindowOnTime(r: Rules, c: seq<Record>)
    requires Paced(OnTime, r, c) && Lwma.BOOTSTRAP <= |c| && OnTime(|c|) < U64
    ensures var w := Window(Nodes(c));
            && |w| == WINDOW && w == Nodes(c)[|c| - WINDOW..]
            && Lwma.SolveWeight(Stamps(w)) == 3_132_300
  {
    var w := Window(Nodes(c));
    var stamps := Stamps(w);
    forall i | 0 <= i < WINDOW ensures stamps[i] == OnTime(|c| - WINDOW + i) {
      assert w[i] == c[|c| - WINDOW + i].node;
      assert PacedAt(OnTime, c, |c| - WINDOW + i);
    }
    Lwma.EvenIs(stamps[0], stamps[1..], Lwma.TARGET);
    Lwma.OnTimeWeight(stamps);
  }

  /** The difficulty of the block at `j` is at most `m`. */
  ghost predicate LowAt(c: seq<Record>, j: nat, m: nat) {
    1 <= j < |c| && c[j - 1].node.work <= c[j].node.work <= c[j - 1].node.work + m
  }

  /** So it is for the last `k` blocks. */
  ghost predicate Low(c: seq<Record>, k: nat, m: nat) {
    k < |c| && forall j {:trigger LowAt(c, j, m)} :: |c| - k <= j < |c| ==> LowAt(c, j, m)
  }

  lemma {:induction false} LowSpan(c: seq<Record>, i: nat, j: nat, k: nat, m: nat)
    requires Low(c, k, m) && |c| - k - 1 <= i <= j < |c|
    ensures c[i].node.work <= c[j].node.work <= c[i].node.work + m * (j - i)
    decreases j - i
  {
    if i < j {
      assert LowAt(c, j, m);
      LowSpan(c, i, j - 1, k, m);
      assert m * (j - i) == m * (j - 1 - i) + m;
    }
  }

  lemma {:induction false} LowPush(c: seq<Record>, x: Record, k: nat, m: nat)
    requires Low(c, k, m) && c != [] && Last(c).node.work <= x.node.work <= Last(c).node.work + m
    ensures Low(c + [x], k + 1, m)
  {
    var d := c + [x];
    forall j | |d| - (k + 1) <= j < |d| ensures LowAt(d, j, m) {
      if j < |c| { assert LowAt(c, j, m); }
    }
  }

  lemma {:induction false} LowFewer(c: seq<Record>, k: nat, n: nat, m: nat)
    requires Low(c, k, m) && n <= k
    ensures Low(c, n, m)
  {
    forall j | |c| - n <= j < |c| ensures LowAt(c, j, m) { assert LowAt(c, j, m); }
  }

  /** After blocks of difficulty at most `m`, on time, the rule asks for less than that, or throws. */
  lemma {:induction false} OnTimeRule(r: Rules, c: seq<Record>, m: nat)
    requires Lenient(r) && Paced(OnTime, r, c) && Lwma.BOOTSTRAP <= |c| && OnTime(|c|) < U64 && Low(c, Lwma.N, m) && m <= Lwma.FIRST_WORK
    ensures var d := r.ahead(Nodes(c), |c|);
            if d.None? then Lwma.Average(Works(Window(Nodes(c)))) <= 1 else 1 <= d.value < m
  {
    var w := Window(Nodes(c));
    WindowOnTime(r, c);
    var works := Works(w);
    LowSpan(c, |c| - WINDOW, |c| - 1, Lwma.N, m);
    assert works[0] == c[|c| - WINDOW].node.work && works[WINDOW - 1] == c[|c| - 1].node.work;
    AverageBound(works, m);
    Lwma.OnTimeNext(Stamps(w), works, |c|);
    assert Lwma.AnswersFor(r, Nodes(c), |c|);
  }

  lemma {:induction false} AverageBound(works: seq<nat>, m: nat)
    requires |works| == WINDOW && works[0] <= works[WINDOW - 1] <= works[0] + m * Lwma.N && m <= Lwma.FIRST_WORK
    ensures Lwma.Average(works) <= m && Lwma.Average(works) * Lwma.SCALE < U64
  {
    assert works[WINDOW - 1] - works[0] < Lwma.U128;
    assert Lwma.SCALE == 620_136_000;
  }

  /** Blocks on time wear the difficulty down until the rule throws. */
  lemma {:induction false} RunsDry(r: Rules, c: seq<Record>, k: nat, m: nat) returns (d: seq<Record>)
    requires Lenient(r) && Paced(OnTime, r, c) && Lwma.BOOTSTRAP <= |c| && 1 <= m <= Lwma.FIRST_WORK && k <= Lwma.N
    requires Low(c, |c| - 1, Lwma.FIRST_WORK) && Low(c, Lwma.N, m) && Low(c, k, m - 1)
    requires |c| + Lwma.N * m + Lwma.N - k <= 0x1_0000_0000
    ensures Paced(OnTime, r, d) && c <= d && r.ahead(Nodes(d), |d|).None?
    ensures Low(d, |d| - 1, Lwma.FIRST_WORK) && |d| <= 0x1_0000_0000
    decreases m, Lwma.N - k
  {
    OnTimeRule(r, c, m);
    if r.ahead(Nodes(c), |c|).None? {
      d := c;
    } else if k == Lwma.N {
      assert Lwma.N * (m - 1) + Lwma.N == Lwma.N * m;
      d := RunsDry(r, c, 0, m - 1);
    } else {
      var x := PacedNext(OnTime, r, c, 0);
      PacedGrows(OnTime, r, c);
      LowPush(c, x, k, m - 1);
      LowPush(c, x, Lwma.N, m);
      LowPush(c, x, |c| - 1, Lwma.FIRST_WORK);
      LowFewer(c + [x], Lwma.N + 1, Lwma.N, m);
      d := RunsDry(r, c + [x], k + 1, m);
    }
  }

  // ---------- two blocks against one ----------

  /** `y` competes with the last block but one of `c`, which is stored beside the main chain. */
  function Rival(r: Rules, c: seq<Record>, y: Record): State
    requires 3 <= |c|
  {
    var x := c[|c| - 2];
    State(c[..|c| - 2] + [y], map[r.hash(x.node.block) := x.node], {}, NoTxs())
  }

  /** The last two blocks of `c` as a branch. */
  function Pair(c: seq<Record>): seq<Node>
    requires 3 <= |c|
  {
    [c[|c| - 2].node, c[|c| - 1].node]
  }

  /** `y` is the same block as the last but one of `c`, but for the nonce. */
  ghost predicate Twin(at: nat -> nat, r: Rules, c: seq<Record>, y: Record)
    requires 3 <= |c|
  {
    var b := c[|c| - 2].node.block;
    && y.node.block == b.(nonce := 1) && y.node.work == c[|c| - 2].node.work && y.txs == []
    && Fits(r, c[..|c| - 2], y, at(|c|))
  }

  lemma {:induction false} TwinExists(at: nat -> nat, r: Rules, c: seq<Record>) returns (y: Record)
    requires Lenient(r) && Paced(at, r, c) && 3 <= |c|
    ensures Twin(at, r, c, y)
  {
    var n := |c| - 2;
    assert FitsAt(r, c, n, at(|c|));
    assert PacedAt(at, c, n);
    y := Renumbered(c[n]);
    RenumberedFits(r, c[..n], c[n], at(|c|));
  }

  /** Blocks of `c` and `y` have different hashes from the stored block. */
  lemma {:induction false} RivalApart(at: nat -> nat, r: Rules, c: seq<Record>, y: Record)
    requires Lenient(r) && Paced(at, r, c) && 3 <= |c| && Twin(at, r, c, y)
    ensures IdsApart(r, Rival(r, c, y))
    ensures !HaveBlock(r, Rival(r, c, y), r.hash(c[|c| - 1].node.block))
    ensures c[|c| - 1].node.block.prev != TipHash(r, Rival(r, c, y))
  {
    var s, n := Rival(r, c, y), |c| - 2;
    RivalLinks(at, r, c);
    forall i | 0 <= i < |s.main| ensures s.main[i].node.block != c[n].node.block && s.main[i].node.block != c[n + 1].node.block {
      BlockApart(at, r, c, y, i);
    }
    FindsNot(r, s.main, c[n].node.block);
    FindsNot(r, s.main, c[n + 1].node.block);
    assert !SameHash(r, c[n].node.block, c[n + 1].node.block);
    assert !SameHash(r, c[n].node.block, s.main[n].node.block);
  }

  lemma {:induction false} BlockApart(at: nat -> nat, r: Rules, c: seq<Record>, y: Record, i: nat)
    requires Paced(at, r, c) && 3 <= |c| && Twin(at, r, c, y) && i < |c| - 1
    ensures var b := (c[..|c| - 2] + [y])[i].node.block;
            b != c[|c| - 2].node.block && b != c[|c| - 1].node.block
  {
    PacedChained(at, r, c);
    HeightIs(r, c, |c| - 2);
    HeightIs(r, c, |c| - 1);
    assert PacedAt(at, c, |c| - 2);
    if i < |c| - 2 { HeightIs(r, c, i); }
  }

  lemma {:induction false} RivalSane(at: nat -> nat, r: Rules, c: seq<Record>, y: Record)
    requires Lenient(r) && Paced(at, r, c) && 3 <= |c| && Twin(at, r, c, y)
    ensures Sane(r, First(), Rival(r, c, y), at(|c|))
  {
    var g, s, n := First(), Rival(r, c, y), |c| - 2;
    PrefixReplays(r, g, c, n, at(|c|));
    ReplaysPush(r, g, c[..n], y, at(|c|));
    StoredKnown(at, r, c, n);
  }

  /** The state after the last block of `c` is stored beside the main chain. */
  function Paired(r: Rules, c: seq<Record>, y: Record): State
    requires 3 <= |c|
  {
    var s, z := Rival(r, c, y), c[|c| - 1];
    s.(alt := s.alt[r.hash(z.node.block) := z.node])
  }

  lemma {:induction false} RivalLinks(at: nat -> nat, r: Rules, c: seq<Record>)
    requires Paced(at, r, c) && 3 <= |c|
    ensures var n := |c| - 2;
            && c[n].node.block.prev == r.hash(c[n - 1].node.block) && c[n + 1].node.block.prev == r.hash(c[n].node.block)
            && c[n - 1].node.block.height == n - 1 && c[n].node.block.height == n && c[n + 1].node.block.height == n + 1
  {
    PacedChained(at, r, c);
    assert ChainedAt(r, c, |c| - 2) && ChainedAt(r, c, |c| - 1);
    HeightIs(r, c, |c| - 3);
  }

  lemma {:induction false} RivalBuilds(at: nat -> nat, r: Rules, c: seq<Record>, y: Record)
    requires Lenient(r) && Paced(at, r, c) && 3 <= |c|
    ensures BuildAlt(Rival(r, c, y).alt, c[|c| - 1].node.block.prev) == [c[|c| - 2].node]
  {
    var alt := Rival(r, c, y).alt;
    var x := c[|c| - 2];
    RivalLinks(at, r, c);
    assert !SameHash(r, c[|c| - 3].node.block, x.node.block);
    assert BuildAlt(alt - {r.hash(x.node.block)}, x.node.block.prev) == [];
    assert [] + [x.node] == [x.node];
  }

  lemma {:induction false} RivalBranch(at: nat -> nat, r: Rules, c: seq<Record>, y: Record, main: seq<Record>, prev: Hash)
    requires Paced(at, r, c) && 3 <= |c| && main == c[..|c| - 2] + [y] && prev == c[|c| - 1].node.block.prev
    ensures Attached(r, main, [c[|c| - 2].node], prev) && AltHeight(r, main, [c[|c| - 2].node], prev) == |c| - 1
    ensures ParentChain(r, main, [c[|c| - 2].node], prev) == Nodes(c[..|c| - 1])
  {
    var n := |c| - 2;
    RivalLinks(at, r, c);
    assert main[n - 1] == c[n - 1];
    assert Find(r, main, c[n].node.block.prev) <= n - 1;
    assert Nodes(main)[..n] + [c[n].node] == Nodes(c[..n + 1]);
  }

  lemma {:induction false} RivalStorable(at: nat -> nat, r: Rules, c: seq<Record>, y: Record, d: nat)
    requires Lenient(r) && Paced(at, r, c) && 3 <= |c|
    requires r.ahead(Nodes(c[..|c| - 1]), |c| - 1) == Some(d) && d != 0
    ensures Storable(r, Rival(r, c, y), c[|c| - 1].node.block, d)
  {
    RivalBuilds(at, r, c, y);
    RivalFresh(at, r, c, y);
    BesideMain(at, r, c, y, Rival(r, c, y), d);
  }

  lemma {:induction false} RivalFresh(at: nat -> nat, r: Rules, c: seq<Record>, y: Record)
    requires Lenient(r) && Paced(at, r, c) && 3 <= |c|
    ensures r.hash(c[|c| - 1].node.block) !in Rival(r, c, y).alt
  {
    RivalLinks(at, r, c);
    assert !SameHash(r, c[|c| - 1].node.block, c[|c| - 2].node.block);
  }

  lemma {:induction false} BesideMain(at: nat -> nat, r: Rules, c: seq<Record>, y: Record, s: State, d: nat)
    requires Lenient(r) && Paced(at, r, c) && 3 <= |c| && s.main == c[..|c| - 2] + [y]
    requires BuildAlt(s.alt, c[|c| - 1].node.block.prev) == [c[|c| - 2].node] && r.hash(c[|c| - 1].node.block) !in s.alt
    requires r.ahead(Nodes(c[..|c| - 1]), |c| - 1) == Some(d) && d != 0
    ensures Storable(r, s, c[|c| - 1].node.block, d)
  {
    var x, b := c[|c| - 2].node, c[|c| - 1].node.block;
    RivalBranch(at, r, c, y, s.main, b.prev);
    PacedChained(at, r, c);
    HeightIs(r, c, |c| - 1);
    LenientStores(r, s, b, d, [x]);
  }

  /** The last block of `c` completes a heavier branch. */
  lemma {:induction false} RivalPlaced(at: nat -> nat, r: Rules, c: seq<Record>, y: Record)
    requires Lenient(r) && Paced(at, r, c) && 3 <= |c| && Twin(at, r, c, y)
    ensures PlaceAlt(r, Rival(r, c, y), c[|c| - 1].node.block)
         == Placed(Paired(r, c, y), Pair(c), Heavier)
  {
    var s, z := Rival(r, c, y), c[|c| - 1];
    var d := RivalWork(at, r, c);
    RivalLinks(at, r, c);
    RivalStorable(at, r, c, y, d);
    NewNodeIs(at, r, c, y, d);
    RivalBuilds(at, r, c, y);
    StoredIs(r, s, z.node, d, c[|c| - 2].node);
    assert Pair(c) == [c[|c| - 2].node] + [z.node];
  }

  lemma {:induction false} RivalWork(at: nat -> nat, r: Rules, c: seq<Record>) returns (d: nat)
    requires Lenient(r) && Paced(at, r, c) && 3 <= |c|
    ensures r.ahead(Nodes(c[..|c| - 1]), |c| - 1) == Some(d) && d != 0
    ensures c[|c| - 1].node.work == c[|c| - 2].node.work + d
  {
    assert FitsAt(r, c, |c| - 1, at(|c|));
    assert Last(c[..|c| - 1]) == c[|c| - 2];
    d := r.ahead(Nodes(c[..|c| - 1]), |c| - 1).value;
  }

  lemma {:induction false} StoredIs(r: Rules, s: State, z: Node, d: nat, x: Node)
    requires s.main != [] && z.block.height != 0 && Storable(r, s, z.block, d) && NewNode(r, s, z.block, d) == z
    requires BuildAlt(s.alt, z.block.prev) == [x] && Last(s.main).node.work < z.work
    ensures PlaceAlt(r, s, z.block) == Placed(s.(alt := s.alt[r.hash(z.block) := z]), [x] + [z], Heavier)
  {
    PlaceStores(r, s, z.block, d);
  }

  lemma {:induction false} NewNodeIs(at: nat -> nat, r: Rules, c: seq<Record>, y: Record, d: nat)
    requires Lenient(r) && Paced(at, r, c) && 3 <= |c|
    requires c[|c| - 1].node.work == c[|c| - 2].node.work + d
    requires Storable(r, Rival(r, c, y), c[|c| - 1].node.block, d)
    ensures NewNode(r, Rival(r, c, y), c[|c| - 1].node.block, d) == c[|c| - 1].node
  {
    RivalBuilds(at, r, c, y);
    RivalBranch(at, r, c, y, Rival(r, c, y).main, c[|c| - 1].node.block.prev);
    assert Last(Nodes(c[..|c| - 1])) == c[|c| - 2].node;
  }

  /** What the configuration gives: a branch that is acceptable, one block longer than the main chain. */
  ghost predicate Ready(r: Rules, c: seq<Record>, s: State, now: nat)
    requires 3 <= |c|
  {
    && Inv(r, First(), s, now) && |s.main| == |c| - 1
    && IsBranch(r, First(), s, Pair(c)) && Pair(c)[0].block.height == |c| - 2
    && Joinable(r, First(), s, |c| - 2, Pair(c), now)
    && BranchChain(s, |c| - 2, Pair(c)) == Nodes(c)
  }

  lemma {:induction false} RivalJoins(at: nat -> nat, r: Rules, c: seq<Record>, y: Record, s: State)
    requires Lenient(r) && Paced(at, r, c) && 3 <= |c| && s.main == c[..|c| - 2] + [y]
    ensures JoinsAs(r, First(), s, |c| - 2, Pair(c), c[|c| - 2..], at(|c|))
  {
    var n := |c| - 2;
    var rs := c[n..];
    assert Nodes(rs) == Pair(c);
    assert s.main[..n] + rs == c;
    forall i | 0 <= i < |rs| ensures rs[i].txs == [] { assert PacedAt(at, c, n + i); }
  }

  lemma {:induction false} PairedInv(at: nat -> nat, r: Rules, c: seq<Record>, y: Record)
    requires Lenient(r) && Paced(at, r, c) && 3 <= |c| && Twin(at, r, c, y)
    ensures Inv(r, First(), Paired(r, c, y), at(|c|))
  {
    RivalSane(at, r, c, y);
    RivalApart(at, r, c, y);
    StoredKnown(at, r, c, |c| - 1);
  }

  lemma {:induction false} PairedIsBranch(at: nat -> nat, r: Rules, c: seq<Record>, y: Record)
    requires Paced(at, r, c) && 3 <= |c| && Lenient(r)
    ensures IsBranch(r, First(), Paired(r, c, y), Pair(c)) && Pair(c)[0].block.height == |c| - 2
    ensures BranchChain(Paired(r, c, y), |c| - 2, Pair(c)) == Nodes(c)
  {
    var g, s, n := First(), Paired(r, c, y), |c| - 2;
    ReplaysPath(r, g, c, at(|c|));
    RivalLinks(at, r, c);
    assert !SameHash(r, c[n].node.block, c[n + 1].node.block);
    PairOf(r, g, c, s);
  }

  lemma {:induction false} PairOf(r: Rules, g: Record, c: seq<Record>, s: State)
    requires 3 <= |c| && Path(r, g.node, Nodes(c)) && |s.main| == |c| - 1 && s.main[..|c| - 2] == c[..|c| - 2]
    requires Pair(c)[0].block.height == |c| - 2 && Pair(c)[0].block.prev == r.hash(c[|c| - 3].node.block)
    requires AllStored(r, s.alt, Pair(c))
    ensures IsBranch(r, g, s, Pair(c)) && BranchChain(s, |c| - 2, Pair(c)) == Nodes(c)
  {
    assert s.main[|c| - 3] == s.main[..|c| - 2][|c| - 3] == c[|c| - 3];
    assert Nodes(s.main)[..|c| - 2] == Nodes(s.main[..|c| - 2]);
    assert Nodes(s.main)[..|c| - 2] + Pair(c) == Nodes(c);
  }

  lemma {:induction false} RivalReady(at: nat -> nat, r: Rules, c: seq<Record>, y: Record, s: State, now: nat)
    requires Lenient(r) && Paced(at, r, c) && 3 <= |c| && Twin(at, r, c, y) && s == Paired(r, c, y) && now == at(|c|)
    ensures Ready(r, c, s, now)
  {
    PairedInv(at, r, c, y);
    PairedIsBranch(at, r, c, y);
    RivalJoins(at, r, c, y, s);
    ReadyIs(r, c, s, c[|c| - 2..], now);
  }

  lemma {:induction false} ReadyIs(r: Rules, c: seq<Record>, s: State, rs: seq<Record>, now: nat)
    requires 3 <= |c| && Inv(r, First(), s, now) && |s.main| == |c| - 1
    requires IsBranch(r, First(), s, Pair(c)) && Pair(c)[0].block.height == |c| - 2
    requires BranchChain(s, |c| - 2, Pair(c)) == Nodes(c) && JoinsAs(r, First(), s, |c| - 2, Pair(c), rs, now)
    ensures Ready(r, c, s, now)
  {
  }

  /** A state and a block that make the node throw inside a switch. */
  ghost predicate Throws(r: Rules, s: State, b: Block, now: nat) {
    && Inv(r, First(), s, now)
    && var st := AddNewBlock(r, s, b, now); st.verdict == Threw && |st.state.main| == |s.main| + 1 && !IdsApart(r, st.state)
  }

  lemma {:induction false} RivalThrows(at: nat -> nat, r: Rules, c: seq<Record>, y: Record)
    requires Lenient(r) && Paced(at, r, c) && 3 <= |c| && Twin(at, r, c, y)
    requires var st := Switch(r, Paired(r, c, y), Pair(c), at(|c|));
             st.verdict == Threw && OnBranch(Paired(r, c, y), st.state, Pair(c), |c| - 2) && !IdsApart(r, st.state)
    ensures Throws(r, Rival(r, c, y), c[|c| - 1].node.block, at(|c|))
    ensures AddNewBlock(r, Rival(r, c, y), c[|c| - 1].node.block, at(|c|))
         == Switch(r, Paired(r, c, y), Pair(c), at(|c|))
  {
    var s := Rival(r, c, y);
    RivalSane(at, r, c, y);
    RivalApart(at, r, c, y);
    RivalPlaced(at, r, c, y);
    var st := Switch(r, Paired(r, c, y), Pair(c), at(|c|));
    assert AddNewBlock(r, s, c[|c| - 1].node.block, at(|c|)) == st;
    assert |Nodes(st.state.main)| == |c|;
  }

  // ---------- the two cases ----------

  lemma {:induction false} StillDefinedAt147(r: Rules, c: seq<Record>)
    requires Lenient(r) && Paced(OnTime, r, c) && |c| == Lwma.BOOTSTRAP
    requires forall i :: 0 <= i < |c| ==> c[i].node.work == 1 + Lwma.FIRST_WORK * i
    ensures r.ahead(Nodes(c), |c|).Some?
  {
    var w := Window(Nodes(c));
    WindowOnTime(r, c);
    var works := Works(w);
    assert works[0] == c[2].node.work && works[WINDOW - 1] == c[146].node.work;
    assert Lwma.Average(works) == Lwma.FIRST_WORK;
    Lwma.OnTimeNext(Stamps(w), works, |c|);
    assert Lwma.AnswersFor(r, Nodes(c), |c|);
  }

  /**
   A main chain of 146 blocks, an alternative at height 145, and a block at height 146 on top of
   it: the switch throws when it puts the old block of height 145 back.
   */
  lemma {:induction false} EarlySwitchHappens(hash: Block -> Hash) returns (s: State, b: Block, now: nat)
    requires Lwma.NoCollision(hash)
    ensures |s.main| == 146 && b.height == 146 && NextDefined(Easy(hash), AddNewBlock(Easy(hash), s, b, now).state.main)
    ensures Throws(Easy(hash), s, b, now)
  {
    EasyIsLenient(hash);
    var c := PacedUpTo(OnTime, Easy(hash), Lwma.BOOTSTRAP);
    var y := TwinExists(OnTime, Easy(hash), c);
    s, b, now := Rival(Easy(hash), c, y), c[146].node.block, OnTime(147);
    PacedChained(OnTime, Easy(hash), c);
    HeightIs(Easy(hash), c, 146);
    StillDefinedAt147(Easy(hash), c);
    EarlyAt(OnTime, Easy(hash), c, y);
    RivalThrows(OnTime, Easy(hash), c, y);
  }

  lemma {:induction false} EarlyAt(at: nat -> nat, r: Rules, c: seq<Record>, y: Record)
    requires Lenient(r) && Paced(at, r, c) && |c| == 147 && Twin(at, r, c, y)
    requires r.ahead(Nodes(c), 147).Some?
    ensures var st := Switch(r, Paired(r, c, y), Pair(c), at(147));
            && st.verdict == Threw && OnBranch(Paired(r, c, y), st.state, Pair(c), 145)
            && !IdsApart(r, st.state) && NextDefined(r, st.state.main)
  {
    var p, now := Paired(r, c, y), at(147);
    RivalReady(at, r, c, y, p, now);
    var st := Switch(r, p, Pair(c), now);
    EarlySwitch(r, First(), p, 145, Pair(c), st, now);
    assert TimelyAt(r, p.main, 145);
    assert Nodes(st.state.main) == Nodes(c);
  }

  /**
   Blocks on time wear the difficulty down until the rule throws; a branch that gets there first makes
   the switch throw behind its last block.
   */
  lemma {:induction false} TornSwitchHappens(hash: Block -> Hash) returns (s: State, b: Block, now: nat)
    requires Lwma.NoCollision(hash)
    ensures 146 <= |s.main| && !NextDefined(Easy(hash), AddNewBlock(Easy(hash), s, b, now).state.main)
    ensures Throws(Easy(hash), s, b, now)
  {
    EasyIsLenient(hash);
    var c := DryChain(Easy(hash));
    var y := TwinExists(OnTime, Easy(hash), c);
    s, b, now := Rival(Easy(hash), c, y), c[|c| - 1].node.block, OnTime(|c|);
    TornAt(OnTime, Easy(hash), c, y);
    RivalThrows(OnTime, Easy(hash), c, y);
  }

  lemma {:induction false} DryChain(r: Rules) returns (c: seq<Record>)
    requires Lenient(r)
    ensures Paced(OnTime, r, c) && Lwma.BOOTSTRAP < |c| <= 0x1_0000_0000 && r.ahead(Nodes(c), |c|).None?
    ensures Low(c, |c| - 1, Lwma.FIRST_WORK)
  {
    var start := PacedUpTo(OnTime, r, Lwma.BOOTSTRAP);
    LowStart(start);
    LowFewer(start, |start| - 1, Lwma.N, Lwma.FIRST_WORK);
    StillDefinedAt147(r, start);
    c := RunsDry(r, start, 0, Lwma.FIRST_WORK);
    assert |c| == |start| ==> c == start;
  }

  lemma {:induction false} LowStart(c: seq<Record>)
    requires c != [] && forall i :: 0 <= i < |c| ==> c[i].node.work == 1 + Lwma.FIRST_WORK * i
    ensures Low(c, |c| - 1, Lwma.FIRST_WORK)
  {
    forall j | 1 <= j < |c| ensures LowAt(c, j, Lwma.FIRST_WORK) { assert c[j - 1].node.work == 1 + Lwma.FIRST_WORK * (j - 1); }
  }

  lemma {:induction false} TornAt(at: nat -> nat, r: Rules, c: seq<Record>, y: Record)
    requires Lenient(r) && Paced(at, r, c) && 3 <= |c| && Twin(at, r, c, y)
    requires r.ahead(Nodes(c), |c|).None?
    ensures var st := Switch(r, Paired(r, c, y), Pair(c), at(|c|));
            && st.verdict == Threw && OnBranch(Paired(r, c, y), st.state, Pair(c), |c| - 2)
            && !IdsApart(r, st.state) && !NextDefined(r, st.state.main)
  {
    var s := Paired(r, c, y);
    RivalReady(at, r, c, y, s, at(|c|));
    ReadyThrows(r, c, s, Switch(r, s, Pair(c), at(|c|)), at(|c|));
  }

  lemma {:induction false} ReadyThrows(r: Rules, c: seq<Record>, s: State, st: Step, now: nat)
    requires 3 <= |c| && Ready(r, c, s, now) && r.ahead(Nodes(c), |c|).None? && st == Switch(r, s, Pair(c), now)
    ensures st.verdict == Threw && OnBranch(s, st.state, Pair(c), |c| - 2) && !IdsApart(r, st.state) && !NextDefined(r, st.state.main)
  {
    ReadyUndefined(r, c, s, now);
    SwitchThrown(r, First(), s, |c| - 2, Pair(c), st, now);
  }

  lemma {:induction false} ReadyUndefined(r: Rules, c: seq<Record>, s: State, now: nat)
    requires 3 <= |c| && Ready(r, c, s, now) && r.ahead(Nodes(c), |c|).None?
    ensures !BranchDefined(r, s, |c| - 2, Pair(c))
  {
  }
}
