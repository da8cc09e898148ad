/**
 Switches nest at most once. When the blocks that a switch disconnected are put back, one of them
 may call for a switch of its own; but that one can only lead back along the old main chain, and
 all it disconnects is still stored, so that nothing is put back in its turn.
 */
module Once {
  import opened Ledger
  import opened Chain
  import opened Reorg
  import opened Transit
  import opened MainSteps
  import opened Branches
  import opened Switching
  import opened Nesting
  import Runs

  /** Every alternative is stored under its own hash. */
  ghost predicate Keyed(r: Rules, alt: map<Hash, Node>) {
    forall h :: h in alt ==> r.hash(alt[h].block) == h
  }

  // ---------- chains of blocks ----------

  /** Two chains with a block in common have all in common below it. */
  lemma {:induction false} SharedBelow(r: Rules, c: seq<Record>, d: seq<Record>, i: nat, k: nat)
    requires Lawful(r) && Chained(r, c) && Chained(r, d) && k <= i < |c| && i < |d| && c[i].node.block == d[i].node.block
    ensures c[k].node.block == d[k].node.block
    decreases i
  {
    if k < i {
      assert ChainedAt(r, c, i) && ChainedAt(r, d, i);
      assert SameHash(r, c[i - 1].node.block, d[i - 1].node.block);
      SharedBelow(r, c, d, i - 1, k);
    }
  }

  /** A block of one chain that is on the other is there at the same height. */
  lemma {:induction false} SharedAt(r: Rules, c: seq<Record>, d: seq<Record>, k: nat)
    requires Lawful(r) && Chained(r, c) && Chained(r, d) && k < |d| && InMain(r, c, r.hash(d[k].node.block))
    ensures k < |c| && c[k].node.block == d[k].node.block
  {
    var j := Find(r, c, r.hash(d[k].node.block));
    assert SameHash(r, c[j].node.block, d[k].node.block);
    HeightIs(r, c, j);
    HeightIs(r, d, k);
  }

  lemma {:induction false} IsOnMain(r: Rules, c: seq<Record>, k: nat)
    requires k < |c|
    ensures InMain(r, c, r.hash(c[k].node.block))
  {
    assert Find(r, c, r.hash(c[k].node.block)) <= k;
  }

  // ---------- the branch of a disconnected block ----------

  lemma {:induction false} BuildKeyed(r: Rules, alt: map<Hash, Node>, h: Hash)
    requires Keyed(r, alt)
    ensures Linked(r, BuildAlt(alt, h)) && AllStored(r, alt, BuildAlt(alt, h))
    ensures BuildAlt(alt, h) != [] ==> r.hash(Last(BuildAlt(alt, h)).block) == h
    decreases alt.Keys
  {
    if h in alt {
      var left := alt - {h};
      BuildKeyed(r, left, alt[h].block.prev);
      var a := BuildAlt(left, alt[h].block.prev);
      forall i | 0 <= i < |a| ensures r.hash(a[i].block) in alt && alt[r.hash(a[i].block)] == a[i] {
        assert r.hash(a[i].block) in left;
      }
    }
  }

  /** Walking back from a block of the old main chain through the alternatives meets old blocks only. */
  lemma {:induction false} WalkBack(r: Rules, alt: map<Hash, Node>, was: seq<Record>, n: nat, k: nat)
    requires Lawful(r) && Keyed(r, alt) && Chained(r, was) && 1 <= k <= n < |was|
    requires k <= |BuildAlt(alt, was[n].node.block.prev)|
    ensures var a := BuildAlt(alt, was[n].node.block.prev); a[|a| - k].block == was[n - k].node.block
    decreases k
  {
    var a := BuildAlt(alt, was[n].node.block.prev);
    BuildKeyed(r, alt, was[n].node.block.prev);
    assert ChainedAt(r, was, n - k + 1);
    if 1 < k { WalkBack(r, alt, was, n, k - 1); }
    assert SameHash(r, a[|a| - k].block, was[n - k].node.block);
  }

  // ---------- what a switch leaves among the alternatives ----------

  lemma {:induction false} ForgetGone(r: Rules, s: State, bs: seq<Block>, i: nat)
    requires i < |bs| && Forget(r, s, bs).verdict == Switched
    ensures r.hash(bs[i]) !in Forget(r, s, bs).state.alt
    decreases |bs|
  {
    var t := s.(alt := s.alt - {r.hash(bs[0])});
    ForgetBounds(r, t, bs[1..]);
    if 0 < i { ForgetGone(r, t, bs[1..], i - 1); }
  }

  lemma {:induction false} AbandonGone(r: Rules, s: State, bs: seq<Block>, i: nat)
    requires i < |bs| && Abandon(r, s, bs).verdict == RolledBack
    ensures r.hash(bs[i]) !in Abandon(r, s, bs).state.alt
    decreases |bs|
  {
    var t := s.(invalid := s.invalid + {r.hash(bs[0])}, alt := s.alt - {r.hash(bs[0])});
    AbandonBounds(r, t, bs[1..]);
    if 0 < i { AbandonGone(r, t, bs[1..], i - 1); }
  }

  lemma {:induction false} AbandonBounds(r: Rules, s: State, bs: seq<Block>)
    ensures forall h :: h in Abandon(r, s, bs).state.alt ==> h in s.alt && Abandon(r, s, bs).state.alt[h] == s.alt[h]
    decreases |bs|
  {
    if bs != [] && r.hash(bs[0]) in s.alt {
      AbandonBounds(r, s.(invalid := s.invalid + {r.hash(bs[0])}, alt := s.alt - {r.hash(bs[0])}), bs[1..]);
    }
  }

  ghost predicate Fewer(alt: map<Hash, Node>, alt': map<Hash, Node>) {
    forall h :: h in alt' ==> h in alt && alt'[h] == alt[h]
  }

  // ---------- a switch whose disconnected blocks are all stored ----------

  /** Blocks that are stored are not stored again, so that putting them back changes nothing. */
  lemma {:induction false} StoredStay(r: Rules, s: State, bs: seq<Block>, now: nat)
    requires s.main != [] && forall i :: 0 <= i < |bs| ==> r.hash(bs[i]) in s.alt
    ensures var e := DeepReadd(r, s, bs, now, 0); e.state == s && (e.verdict == Switched || e.verdict == Threw)
    decreases |bs|
  {
    if bs != [] {
      StoredRefused(r, s, bs[0]);
      UnplacedIs(r, s, bs[0], now, 0);
      StoredStay(r, s, bs[1..], now);
    }
  }

  lemma {:induction false} StoredRefused(r: Rules, s: State, b: Block)
    requires s.main != [] && r.hash(b) in s.alt
    ensures var p := PlaceAlt(r, s, b); p.state == s && p.outcome != Heavier && p.outcome != Lighter
  {
    var d := PlaceUnfolds(r, s, b);
  }

  /** What such a switch ends in: with the branch on, or as it began, and the last block of the branch not stored. */
  ghost predicate Ends(r: Rules, g: Record, s: State, f: nat, alts: seq<Node>, st: Step, now: nat) {
    && Healthy(r, g, st.state, now) && Fewer(s.alt, st.state.alt) && alts != [] && f <= |s.main|
    && (st.verdict == Switched || st.verdict == RolledBack || st.verdict == Threw)
    && (st.verdict != Threw ==> r.hash(Last(alts).block) !in st.state.alt)
    && (st.verdict == RolledBack ==> st.state.main == s.main)
    && (st.verdict == Switched ==> s.main[..f] <= st.state.main && BlocksOf(Blocks(alts), st.state.main[f..]))
  }

  lemma {:induction false} ConcludeEnds(r: Rules, g: Record, s: State, f: nat, alts: seq<Node>, c: Connection, st: Step, now: nat)
    requires 1 <= f <= |s.main| && alts != [] && c.verdict == Added && c.count == |alts|
    requires Healthy(r, g, c.state, now) && Stacked(r, PopTo(r, s, f, now), Blocks(alts), |alts|, c)
    requires forall k :: f <= k < |s.main| ==> r.hash(s.main[k].node.block) in s.alt
    requires st == DeepConclude(r, s, f, alts, c, now, 0)
    ensures Ends(r, g, s, f, alts, st, now)
  {
    var bs := Blocks(Nodes(s.main[f..]));
    forall i | 0 <= i < |bs| ensures r.hash(bs[i]) in c.state.alt { assert bs[i] == s.main[f + i].node.block; }
    StoredStay(r, c.state, bs, now);
    assert Blocks(alts)[..|alts|] == Blocks(alts);
    ForgetEnds(r, g, s, f, alts, c, DeepReadd(r, c.state, bs, now, 0), st, now);
  }

  lemma {:induction false} ForgetEnds(r: Rules, g: Record, s: State, f: nat, alts: seq<Node>, c: Connection, e: Step, st: Step, now: nat)
    requires 1 <= f <= |s.main| && alts != [] && Healthy(r, g, c.state, now) && Stacked(r, PopTo(r, s, f, now), Blocks(alts), |alts|, c)
    requires Blocks(alts)[..|alts|] == Blocks(alts) && e.state == c.state && (e.verdict == Switched || e.verdict == Threw)
    requires st == if e.verdict != Switched then e else Forget(r, e.state, Blocks(alts))
    ensures Ends(r, g, s, f, alts, st, now)
  {
    ForgetBounds(r, c.state, Blocks(alts));
    if st.verdict == Switched {
      ForgetGone(r, c.state, Blocks(alts), |alts| - 1);
    }
  }

  lemma {:induction false} GiveUpEnds(r: Rules, g: Record, s: State, f: nat, alts: seq<Node>, c: Connection, st: Step, now: nat)
    requires Healthy(r, g, s, now) && 1 <= f <= |s.main| && alts != [] && c.count < |alts| && c.state.alt == s.alt
    requires Healthy(r, g, c.state, now) && NothingLost(s, c.state) && s.main[..f] <= c.state.main
    requires st == GiveUp(r, s, f, alts, c, now)
    ensures Ends(r, g, s, f, alts, st, now)
  {
    GiveUpRestores(r, g, s, f, alts, c, now);
    RollbackRestores(r, g, s, c.state, f, now);
    AbandonEnds(r, Rollback(r, c.state, Blocks(Nodes(s.main[f..])), f, now).state, alts, c.count);
  }

  lemma {:induction false} AbandonEnds(r: Rules, u: State, alts: seq<Node>, k: nat)
    requires k < |alts|
    ensures var st := Abandon(r, u, Blocks(alts)[k..]);
            Fewer(u.alt, st.state.alt) && (st.verdict == RolledBack ==> r.hash(Last(alts).block) !in st.state.alt)
  {
    var bad := Blocks(alts)[k..];
    AbandonBounds(r, u, bad);
    assert bad[|bad| - 1] == Last(alts).block;
    if Abandon(r, u, bad).verdict == RolledBack { AbandonGone(r, u, bad, |bad| - 1); }
  }

  lemma {:induction false} ConnectKeepsAlt(r: Rules, s: State, bs: seq<Block>, now: nat)
    requires s.main != []
    ensures Connect(r, s, bs, now).state.alt == s.alt
    decreases |bs|
  {
    if bs != [] {
      MainKeepsAlt(r, s, bs[0], now);
      var st := HandleMain(r, s, bs[0], now);
      if st.verdict == Added { ConnectKeepsAlt(r, st.state, bs[1..], now); }
    }
  }

  lemma {:induction false} MainKeepsAlt(r: Rules, s: State, b: Block, now: nat)
    requires s.main != []
    ensures HandleMain(r, s, b, now).state.alt == s.alt
  {
  }

  lemma {:induction false} SwitchEnds(r: Rules, g: Record, s: State, f: nat, alts: seq<Node>, st: Step, now: nat)
    requires Healthy(r, g, s, now) && 1 <= f <= |s.main| && alts != []
    requires Attempt(r, s, f, alts, now).verdict == Added ==> forall k :: f <= k < |s.main| ==> r.hash(s.main[k].node.block) in s.alt
    requires st == DeepSwitchAt(r, s, f, alts, now, 0)
    ensures Ends(r, g, s, f, alts, st, now)
  {
    var t, c := PopTo(r, s, f, now), Attempt(r, s, f, alts, now);
    AttemptKeeps(r, g, s, f, alts, now);
    PopToKeeps(r, g, s, f, now);
    ConnectKeepsAlt(r, t, Blocks(alts), now);
    if c.verdict == Added {
      ConnectStacks(r, g, t, Blocks(alts), c, now);
      ConcludeEnds(r, g, s, f, alts, c, st, now);
    } else if c.verdict != Threw {
      GiveUpEnds(r, g, s, f, alts, c, st, now);
    }
  }

  // ---------- putting the old main chain back, block by block ----------

  /** The branch `alts` is on top of the first `f` blocks of `was`, and still stored. */
  ghost predicate Away(r: Rules, was: seq<Record>, f: nat, alts: seq<Node>, u: State) {
    && f <= |was| && |u.main| == f + |alts|
    && (forall k :: 0 <= k < f ==> u.main[k].node.block == was[k].node.block)
    && forall i :: 0 <= i < |alts| ==> u.main[f + i].node.block == alts[i].block && r.hash(alts[i].block) in u.alt
  }

  /** The block at `m` is nowhere. */
  ghost predicate Cut(r: Rules, was: seq<Record>, m: nat, u: State) {
    m < |was| && r.hash(was[m].node.block) !in u.alt && !InMain(r, u.main, r.hash(was[m].node.block))
  }

  /** The first `k` blocks are the main chain again, and the last of them is not stored. */
  ghost predicate Back(r: Rules, was: seq<Record>, k: nat, u: State) {
    && 1 <= k <= |was| && |u.main| == k && r.hash(was[k - 1].node.block) !in u.alt
    && forall i :: 0 <= i < k ==> u.main[i].node.block == was[i].node.block
  }

  /** Where putting back the blocks from `f` on can stand when it comes to the block at `n`. */
  ghost predicate Stage(r: Rules, g: Record, was: seq<Record>, f: nat, alts: seq<Node>, n: nat, u: State, now: nat) {
    && Healthy(r, g, u, now) && Keyed(r, u.alt)
    && (|| Away(r, was, f, alts, u)
        || (exists m :: f <= m < n && Cut(r, was, m, u))
        || (exists k :: f < k <= n && Back(r, was, k, u)))
  }

  /** `p` is what storing the block at `n` of `was` gives, with `a` as the branch before it. */
  ghost predicate PlacedOld(r: Rules, u: State, was: seq<Record>, n: nat, p: Placed, a: seq<Node>, x: Node) {
    && n < |was| && x.block == was[n].node.block && r.hash(x.block) !in u.alt
    && a == BuildAlt(u.alt, x.block.prev) && Attached(r, u.main, a, x.block.prev)
    && p.state == u.(alt := u.alt[r.hash(x.block) := x]) && p.branch == a + [x]
  }

  lemma {:induction false} PlaceOld(r: Rules, u: State, was: seq<Record>, n: nat) returns (a: seq<Node>, x: Node)
    requires u.main != [] && n < |was|
    ensures var p := PlaceAlt(r, u, was[n].node.block);
            if p.outcome == Heavier || p.outcome == Lighter then PlacedOld(r, u, was, n, p, a, x) else p.state == u
  {
    var b := was[n].node.block;
    var d := PlaceUnfolds(r, u, b);
    a, x := BuildAlt(u.alt, b.prev), Node(b, 0);
    if AltTimely(r, u, b) { x := NewNode(r, u, b, d); }
  }

  /** The branch before an old block hangs on an old block, and consists of old blocks. */
  lemma {:induction false} HangsOnOld(r: Rules, u: State, was: seq<Record>, n: nat, p: Placed, a: seq<Node>, x: Node)
    requires Lawful(r) && Keyed(r, u.alt) && Chained(r, u.main) && Chained(r, was) && 1 <= n
    requires PlacedOld(r, u, was, n, p, a, x) && |a| < n
    ensures var j := n - |a|;
            && 1 <= j <= |u.main| && SplitOf(r, p.state, p.branch) == j && Joins(r, p.state, p.branch)
            && (forall k :: 0 <= k < j ==> u.main[k].node.block == was[k].node.block)
            && (forall i :: 0 <= i < |p.branch| ==> p.branch[i].block == was[j + i].node.block)
            && (forall i :: 0 <= i < |a| ==> r.hash(a[i].block) in u.alt)
  {
    var j := n - |a|;
    BuildKeyed(r, u.alt, x.block.prev);
    BranchOfOld(r, u, was, n, p, a, x);
    assert ChainedAt(r, was, j);
    assert p.branch[0].block == was[j].node.block;
    OldParent(r, u.main, was, j - 1);
    forall k | 0 <= k < j ensures u.main[k].node.block == was[k].node.block {
      SharedBelow(r, u.main, was, j - 1, k);
    }
  }

  lemma {:induction false} BranchOfOld(r: Rules, u: State, was: seq<Record>, n: nat, p: Placed, a: seq<Node>, x: Node)
    requires Lawful(r) && Keyed(r, u.alt) && Chained(r, was) && PlacedOld(r, u, was, n, p, a, x) && |a| < n
    ensures |p.branch| == |a| + 1 && forall i :: 0 <= i < |p.branch| ==> p.branch[i].block == was[n - |a| + i].node.block
  {
    forall i | 0 <= i < |p.branch| ensures p.branch[i].block == was[n - |a| + i].node.block {
      if i < |a| { WalkBack(r, u.alt, was, n, |a| - i); }
    }
  }

  lemma {:induction false} OldParent(r: Rules, c: seq<Record>, was: seq<Record>, k: nat)
    requires Lawful(r) && Chained(r, c) && Chained(r, was) && k < |was| && InMain(r, c, r.hash(was[k].node.block))
    ensures k < |c| && c[k].node.block == was[k].node.block && Find(r, c, r.hash(was[k].node.block)) == k
  {
    SharedAt(r, c, was, k);
    var j := Find(r, c, r.hash(was[k].node.block));
    assert SameHash(r, c[j].node.block, was[k].node.block);
    HeightIs(r, c, j);
    HeightIs(r, was, k);
  }

  /** Behind a missing block nothing is stored. */
  lemma {:induction false} CutStays(r: Rules, u: State, was: seq<Record>, m: nat, n: nat)
    requires Lawful(r) && Keyed(r, u.alt) && Chained(r, u.main) && Chained(r, was) && m < n < |was| && Cut(r, was, m, u)
    ensures var p := PlaceAlt(r, u, was[n].node.block); p.state == u && p.outcome != Heavier
  {
    var a, x := PlaceOld(r, u, was, n);
    CutNotPlaced(r, u, was, m, n, PlaceAlt(r, u, was[n].node.block), a, x);
  }

  lemma {:induction false} CutNotPlaced(r: Rules, u: State, was: seq<Record>, m: nat, n: nat, p: Placed, a: seq<Node>, x: Node)
    requires Lawful(r) && Keyed(r, u.alt) && Chained(r, u.main) && Chained(r, was) && m < n < |was| && Cut(r, was, m, u)
    ensures !PlacedOld(r, u, was, n, p, a, x)
  {
    if PlacedOld(r, u, was, n, p, a, x) {
      BuildKeyed(r, u.alt, x.block.prev);
      if n - m <= |a| {
        WalkBack(r, u.alt, was, n, n - m);
        assert false;
      } else {
        HangsOnOld(r, u, was, n, p, a, x);
        IsOnMain(r, u.main, m);
        assert false;
      }
    }
  }

  // ---------- the nested switch ----------

  /** A branch that ends in the block at `n` and goes on has its fork where the heights say. */
  lemma {:induction false} AddedSplit(r: Rules, g: Record, s: State, f: nat, alts: seq<Node>, now: nat)
    requires IsGenesis(g) && Healthy(r, g, s, now) && 1 <= f <= |s.main| && alts != []
    requires Attempt(r, s, f, alts, now).verdict == Added
    ensures f + |alts| - 1 == Last(alts).block.height
  {
    var t, c := PopTo(r, s, f, now), Attempt(r, s, f, alts, now);
    AttemptKeeps(r, g, s, f, alts, now);
    PopToKeeps(r, g, s, f, now);
    ConnectStacks(r, g, t, Blocks(alts), c, now);
    HealthyChained(r, g, c.state.main, now);
    assert Blocks(alts)[..|alts|] == Blocks(alts);
    TopHeight(r, c.state.main, f, alts);
  }

  lemma {:induction false} TopHeight(r: Rules, main: seq<Record>, f: nat, alts: seq<Node>)
    requires Chained(r, main) && f <= |main| && alts != [] && BlocksOf(Blocks(alts), main[f..])
    ensures f + |alts| - 1 == Last(alts).block.height
  {
    assert main[|main| - 1] == main[f..][|alts| - 1];
    HeightIs(r, main, |main| - 1);
  }

  lemma {:induction false} NestedFork(r: Rules, g: Record, u: State, was: seq<Record>, n: nat, p: Placed, a: seq<Node>, x: Node, now: nat)
    requires Lawful(r) && IsGenesis(g) && Keyed(r, u.alt) && Healthy(r, g, p.state, now) && Chained(r, was) && 1 <= n
    requires PlacedOld(r, u, was, n, p, a, x)
    ensures Joins(r, p.state, p.branch)
    ensures Attempt(r, p.state, SplitOf(r, p.state, p.branch), p.branch, now).verdict == Added ==> |a| < n
  {
    BuildKeyed(r, u.alt, x.block.prev);
    var f := SplitOf(r, p.state, p.branch);
    if Attempt(r, p.state, f, p.branch, now).verdict == Added {
      AddedSplit(r, g, p.state, f, p.branch, now);
      HeightIs(r, was, n);
    }
  }

  /** All that the nested switch disconnects is stored. */
  lemma {:induction false} AwayIsStored(r: Rules, u: State, was: seq<Record>, f: nat, alts: seq<Node>, n: nat, p: Placed, a: seq<Node>, x: Node)
    requires Lawful(r) && Keyed(r, u.alt) && Chained(r, u.main) && Chained(r, was) && 1 <= f <= n
    requires Away(r, was, f, alts, u) && PlacedOld(r, u, was, n, p, a, x) && |a| < n
    ensures forall k :: SplitOf(r, p.state, p.branch) <= k < |u.main| ==> r.hash(u.main[k].node.block) in p.state.alt
  {
    HangsOnOld(r, u, was, n, p, a, x);
    var j := n - |a|;
    forall k | j <= k < |u.main| ensures r.hash(u.main[k].node.block) in p.state.alt {
      if k < f { OldIsStored(r, u, was, n, p, a, x, k); } else { TopIsStored(r, was, f, alts, u, k); }
    }
  }

  /** Back on the old main chain, a nested switch disconnects nothing. */
  lemma {:induction false} BackIsOnTop(r: Rules, u: State, was: seq<Record>, k: nat, n: nat, p: Placed, a: seq<Node>, x: Node)
    requires Lawful(r) && Keyed(r, u.alt) && Chained(r, u.main) && Chained(r, was) && 1 <= k <= n
    requires Back(r, was, k, u) && PlacedOld(r, u, was, n, p, a, x) && |a| < n
    ensures SplitOf(r, p.state, p.branch) == k
  {
    HangsOnOld(r, u, was, n, p, a, x);
    if n - |a| < k { OldIsStored(r, u, was, n, p, a, x, k - 1); }
  }

  lemma {:induction false} OldIsStored(r: Rules, u: State, was: seq<Record>, n: nat, p: Placed, a: seq<Node>, x: Node, k: nat)
    requires Lawful(r) && Keyed(r, u.alt) && Chained(r, u.main) && Chained(r, was) && 1 <= n
    requires PlacedOld(r, u, was, n, p, a, x) && |a| < n && n - |a| <= k < n
    ensures r.hash(was[k].node.block) in u.alt
  {
    HangsOnOld(r, u, was, n, p, a, x);
    var i := k - (n - |a|);
    assert p.branch[i] == a[i];
  }

  /** What the nested switch leaves is the old main chain up to the block at `n`, or what was there before. */
  lemma {:induction false} NestedEnds(r: Rules, u: State, was: seq<Record>, n: nat, p: Placed, a: seq<Node>, x: Node, j: nat, main: seq<Record>)
    requires Lawful(r) && Keyed(r, u.alt) && Chained(r, u.main) && Chained(r, was) && 1 <= n
    requires PlacedOld(r, u, was, n, p, a, x) && |a| < n && j == n - |a|
    requires j <= |u.main| && u.main[..j] <= main && BlocksOf(Blocks(p.branch), main[j..])
    ensures |main| == n + 1 && forall i :: 0 <= i <= n ==> main[i].node.block == was[i].node.block
  {
    HangsOnOld(r, u, was, n, p, a, x);
    forall i | 0 <= i <= n ensures main[i].node.block == was[i].node.block {
      if i < j {
        assert main[..j][i] == u.main[..j][i] == u.main[i];
      } else {
        assert main[j..][i - j].node.block == Blocks(p.branch)[i - j] == p.branch[i - j].block;
      }
    }
  }

  lemma {:induction false} FewerKeyed(r: Rules, alt: map<Hash, Node>, alt': map<Hash, Node>)
    requires Keyed(r, alt) && Fewer(alt, alt')
    ensures Keyed(r, alt')
  {
  }

  /** The nested switch, when putting back began with the branch on top. */
  lemma {:induction false} NestedFromAway(r: Rules, g: Record, u: State, was: seq<Record>, f: nat, alts: seq<Node>, n: nat,
                                          p: Placed, a: seq<Node>, x: Node, st: Step, now: nat)
    requires Lawful(r) && IsGenesis(g) && Keyed(r, u.alt) && Healthy(r, g, u, now) && Healthy(r, g, p.state, now)
    requires Chained(r, was) && 1 <= f <= n && Away(r, was, f, alts, u) && PlacedOld(r, u, was, n, p, a, x)
    requires st == DeepSwitch(r, p.state, p.branch, now, 0)
    ensures st.verdict != Nested && (st.verdict != Threw ==> Stage(r, g, was, f, alts, n + 1, st.state, now))
  {
    HealthyChained(r, g, u.main, now);
    NestedFork(r, g, u, was, n, p, a, x, now);
    if |a| < n { AwayIsStored(r, u, was, f, alts, n, p, a, x); }
    NestedRuns(r, g, u, was, n, p, a, x, st, now);
    if st.verdict == RolledBack {
      NotOnAway(r, u, was, f, alts, n);
      assert Cut(r, was, n, st.state);
    } else if st.verdict == Switched {
      assert Back(r, was, n + 1, st.state);
    }
  }

  /** What a nested switch ends in, when all it disconnects is stored. */
  ghost predicate NestedDone(r: Rules, g: Record, u: State, was: seq<Record>, n: nat, p: Placed, st: Step, now: nat) {
    && n < |was| && (st.verdict == Switched || st.verdict == RolledBack || st.verdict == Threw)
    && Healthy(r, g, st.state, now) && Keyed(r, st.state.alt) && Fewer(p.state.alt, st.state.alt)
    && (st.verdict != Threw ==> r.hash(was[n].node.block) !in st.state.alt)
    && (st.verdict == RolledBack ==> st.state.main == u.main)
    && (st.verdict == Switched ==> Back(r, was, n + 1, st.state))
  }

  lemma {:induction false} NestedRuns(r: Rules, g: Record, u: State, was: seq<Record>, n: nat, p: Placed, a: seq<Node>, x: Node, st: Step, now: nat)
    requires Lawful(r) && IsGenesis(g) && Keyed(r, u.alt) && Healthy(r, g, p.state, now)
    requires Chained(r, u.main) && Chained(r, was) && 1 <= n && PlacedOld(r, u, was, n, p, a, x)
    requires Joins(r, p.state, p.branch) && st == DeepSwitch(r, p.state, p.branch, now, 0)
    requires var j := SplitOf(r, p.state, p.branch);
             Attempt(r, p.state, j, p.branch, now).verdict == Added ==>
               |a| < n && forall k :: j <= k < |u.main| ==> r.hash(u.main[k].node.block) in p.state.alt
    ensures NestedDone(r, g, u, was, n, p, st, now)
  {
    var j := SplitOf(r, p.state, p.branch);
    SwitchEnds(r, g, p.state, j, p.branch, st, now);
    FewerKeyed(r, p.state.alt, st.state.alt);
    assert Last(p.branch) == x;
    if st.verdict == Switched {
      AddedIfSwitched(r, p.state, j, p.branch, st, now);
      HangsOnOld(r, u, was, n, p, a, x);
      NestedEnds(r, u, was, n, p, a, x, j, st.state.main);
    }
  }

  lemma {:induction false} AddedIfSwitched(r: Rules, s: State, f: nat, alts: seq<Node>, st: Step, now: nat)
    requires 1 <= f <= |s.main| && st == DeepSwitchAt(r, s, f, alts, now, 0) && st.verdict == Switched
    ensures Attempt(r, s, f, alts, now).verdict == Added
  {
  }

  lemma {:induction false} NotOnAway(r: Rules, u: State, was: seq<Record>, f: nat, alts: seq<Node>, n: nat)
    requires Lawful(r) && Chained(r, u.main) && Chained(r, was) && f <= n < |was| && Away(r, was, f, alts, u)
    requires r.hash(was[n].node.block) !in u.alt
    ensures !InMain(r, u.main, r.hash(was[n].node.block))
  {
    if InMain(r, u.main, r.hash(was[n].node.block)) {
      SharedAt(r, u.main, was, n);
      TopIsStored(r, was, f, alts, u, n);
    }
  }

  lemma {:induction false} TopIsStored(r: Rules, was: seq<Record>, f: nat, alts: seq<Node>, u: State, k: nat)
    requires Away(r, was, f, alts, u) && f <= k < |u.main|
    ensures r.hash(u.main[k].node.block) in u.alt
  {
    assert r.hash(alts[k - f].block) in u.alt;
  }

  /** And when it was back on the old main chain already. */
  lemma {:induction false} NestedFromBack(r: Rules, g: Record, u: State, was: seq<Record>, f: nat, alts: seq<Node>, k: nat, n: nat,
                                          p: Placed, a: seq<Node>, x: Node, st: Step, now: nat)
    requires Lawful(r) && IsGenesis(g) && Keyed(r, u.alt) && Healthy(r, g, u, now) && Healthy(r, g, p.state, now)
    requires Chained(r, was) && f < k <= n && Back(r, was, k, u) && PlacedOld(r, u, was, n, p, a, x)
    requires st == DeepSwitch(r, p.state, p.branch, now, 0)
    ensures st.verdict != Nested && (st.verdict != Threw ==> Stage(r, g, was, f, alts, n + 1, st.state, now))
  {
    HealthyChained(r, g, u.main, now);
    NestedFork(r, g, u, was, n, p, a, x, now);
    if |a| < n { BackIsOnTop(r, u, was, k, n, p, a, x); }
    NestedRuns(r, g, u, was, n, p, a, x, st, now);
    if st.verdict == RolledBack {
      OthersHash(r, was, k - 1, n);
      assert Back(r, was, k, st.state);
    } else if st.verdict == Switched {
      assert Back(r, was, n + 1, st.state);
    }
  }

  lemma {:induction false} OthersHash(r: Rules, was: seq<Record>, i: nat, j: nat)
    requires Lawful(r) && Chained(r, was) && i < j < |was|
    ensures r.hash(was[i].node.block) != r.hash(was[j].node.block)
  {
    HeightIs(r, was, i);
    HeightIs(r, was, j);
    assert !SameHash(r, was[i].node.block, was[j].node.block);
  }

  // ---------- one block, and all of them ----------

  /** Storing an old block without a switch keeps the stage. */
  lemma {:induction false} StoredKeepsStage(r: Rules, g: Record, u: State, was: seq<Record>, f: nat, alts: seq<Node>, n: nat, p: Placed, a: seq<Node>, x: Node, now: nat)
    requires Lawful(r) && Chained(r, was) && f <= n && Healthy(r, g, p.state, now) && PlacedOld(r, u, was, n, p, a, x) && Keyed(r, u.alt)
    requires Away(r, was, f, alts, u) || exists k :: f < k <= n && Back(r, was, k, u)
    ensures Stage(r, g, was, f, alts, n + 1, p.state, now)
  {
    if Away(r, was, f, alts, u) {
      assert Away(r, was, f, alts, p.state);
    } else {
      var k :| f < k <= n && Back(r, was, k, u);
      OthersHash(r, was, k - 1, n);
      assert Back(r, was, k, p.state);
    }
  }

  lemma {:induction false} StageLater(r: Rules, g: Record, was: seq<Record>, f: nat, alts: seq<Node>, n: nat, u: State, now: nat)
    requires Stage(r, g, was, f, alts, n, u, now)
    ensures Stage(r, g, was, f, alts, n + 1, u, now)
  {
  }

  /** One block put back, with the nested switch it may call for. */
  lemma {:induction false} OneBack(r: Rules, g: Record, u: State, was: seq<Record>, f: nat, alts: seq<Node>, n: nat, st: Step, now: nat)
    requires Lawful(r) && IsGenesis(g) && Chained(r, was) && 1 <= f <= n < |was| && Stage(r, g, was, f, alts, n, u, now)
    requires st == DeepAlt(r, u, was[n].node.block, now, 1)
    ensures st.verdict != Nested && (st.verdict != Threw ==> Stage(r, g, was, f, alts, n + 1, st.state, now))
  {
    var p := PlaceAlt(r, u, was[n].node.block);
    var a, x := PlaceOld(r, u, was, n);
    HealthyChained(r, g, u.main, now);
    StageLater(r, g, was, f, alts, n, u, now);
    if m :| f <= m < n && Cut(r, was, m, u) {
      CutStays(r, u, was, m, n);
      FollowNot(r, p, now, 1);
    } else if p.outcome == Heavier {
      PlacedIntact(r, g, u, was[n].node.block, p, now);
      FollowIs(r, p, DeepSwitch(r, p.state, p.branch, now, 0), now, 0);
      if Away(r, was, f, alts, u) {
        NestedFromAway(r, g, u, was, f, alts, n, p, a, x, st, now);
      } else {
        var k :| f < k <= n && Back(r, was, k, u);
        NestedFromBack(r, g, u, was, f, alts, k, n, p, a, x, st, now);
      }
    } else {
      FollowNot(r, p, now, 1);
      PlacedIntact(r, g, u, was[n].node.block, p, now);
      if p.outcome == Lighter { StoredKeepsStage(r, g, u, was, f, alts, n, p, a, x, now); }
    }
  }

  lemma {:induction false} AllBack(r: Rules, g: Record, u: State, was: seq<Record>, f: nat, alts: seq<Node>, n: nat, bs: seq<Block>, e: Step, now: nat)
    requires Lawful(r) && IsGenesis(g) && Chained(r, was) && 1 <= f <= n <= |was| && Stage(r, g, was, f, alts, n, u, now)
    requires bs == Blocks(Nodes(was[n..])) && e == DeepReadd(r, u, bs, now, 1)
    ensures e.verdict == Threw || (e.verdict == Switched && Stage(r, g, was, f, alts, |was|, e.state, now))
    decreases |bs|
  {
    if bs != [] {
      assert bs[0] == was[n].node.block;
      assert bs[1..] == Blocks(Nodes(was[n + 1..]));
      var st := DeepAlt(r, u, bs[0], now, 1);
      OneBack(r, g, u, was, f, alts, n, st, now);
      if st.verdict != Threw { AllBack(r, g, st.state, was, f, alts, n + 1, bs[1..], e, now); }
    }
  }

  // ---------- any block ----------

  lemma {:induction false} SwitchNestsOnce(r: Rules, g: Record, s: State, f: nat, alts: seq<Node>, st: Step, now: nat)
    requires Lawful(r) && IsGenesis(g) && Healthy(r, g, s, now) && Keyed(r, s.alt) && 1 <= f <= |s.main|
    requires forall i :: 0 <= i < |alts| ==> r.hash(alts[i].block) in s.alt
    requires st == DeepSwitchAt(r, s, f, alts, now, 1)
    ensures st.verdict != Nested
  {
    var t, c := PopTo(r, s, f, now), Attempt(r, s, f, alts, now);
    AttemptKeeps(r, g, s, f, alts, now);
    if c.verdict == Added {
      PopToKeeps(r, g, s, f, now);
      ConnectStacks(r, g, t, Blocks(alts), c, now);
      HealthyChained(r, g, s.main, now);
      BeginsAway(r, s, f, alts, c, now);
      var bs := Blocks(Nodes(s.main[f..]));
      var e := DeepReadd(r, c.state, bs, now, 1);
      AllBack(r, g, c.state, s.main, f, alts, f, bs, e, now);
      ConcludesPlainly(r, s, f, alts, c, e, st, now);
    } else if c.verdict != Threw {
      GiveUpRestores(r, g, s, f, alts, c, now);
    }
  }

  lemma {:induction false} ConcludesPlainly(r: Rules, s: State, f: nat, alts: seq<Node>, c: Connection, e: Step, st: Step, now: nat)
    requires 1 <= f <= |s.main| && c == Attempt(r, s, f, alts, now) && c.verdict == Added
    requires e == DeepReadd(r, c.state, Blocks(Nodes(s.main[f..])), now, 1) && (e.verdict == Threw || e.verdict == Switched)
    requires st == DeepSwitchAt(r, s, f, alts, now, 1)
    ensures st.verdict == Switched || st.verdict == Threw
  {
  }

  lemma {:induction false} BeginsAway(r: Rules, s: State, f: nat, alts: seq<Node>, c: Connection, now: nat)
    requires 1 <= f <= |s.main| && c.count == |alts| && Stacked(r, PopTo(r, s, f, now), Blocks(alts), |alts|, c)
    requires forall i :: 0 <= i < |alts| ==> r.hash(alts[i].block) in s.alt
    ensures Away(r, s.main, f, alts, c.state)
  {
    var main := c.state.main;
    assert Blocks(alts)[..|alts|] == Blocks(alts);
    assert main[..f] == s.main[..f];
    forall k | 0 <= k < f ensures main[k].node.block == s.main[k].node.block { assert main[k] == main[..f][k]; }
    forall i | 0 <= i < |alts| ensures main[f + i].node.block == alts[i].block { assert main[f + i] == main[f..][i]; }
  }

  lemma {:induction false} ChallengeStored(r: Rules, s: State, b: Block, p: Placed)
    requires s.main != [] && Keyed(r, s.alt) && p == PlaceAlt(r, s, b)
    ensures Keyed(r, p.state.alt) && (p.outcome == Heavier ==> p.branch != [] && Joins(r, p.state, p.branch))
    ensures forall i :: 0 <= i < |p.branch| ==> r.hash(p.branch[i].block) in p.state.alt
  {
    var d := PlaceUnfolds(r, s, b);
    BuildKeyed(r, s.alt, b.prev);
    if p.outcome == Heavier || p.outcome == Lighter {
      forall i | 0 <= i < |p.branch| ensures r.hash(p.branch[i].block) in p.state.alt { }
    }
  }

  /**
   Any block in any state: switches nest at most once. With one nested switch followed, what the
   model says is what the node does, and following more changes nothing.
   */
  lemma {:induction false} NestsOnce(r: Rules, g: Record, s: State, b: Block, st: Step, now: nat, depth: nat)
    requires Lawful(r) && IsGenesis(g) && Healthy(r, g, s, now) && Keyed(r, s.alt)
    requires depth == 1 && st == DeepAdd(r, s, b, now, depth)
    ensures st.verdict != Nested
  {
    var p := PlaceAlt(r, s, b);
    if !HaveBlock(r, s, r.hash(b)) && b.prev != TipHash(r, s) {
      ChallengeStored(r, s, b, p);
      if p.outcome == Heavier {
        PlacedIntact(r, g, s, b, p, now);
        FollowIs(r, p, DeepSwitch(r, p.state, p.branch, now, depth), now, depth);
        SwitchNestsOnce(r, g, p.state, SplitOf(r, p.state, p.branch), p.branch, st, now);
      } else {
        FollowNot(r, p, now, depth + 1);
      }
    } else if b.prev == TipHash(r, s) && !HaveBlock(r, s, r.hash(b)) {
      var x := MainKeeps(r, g, s, b, now);
    }
  }

  lemma {:induction false} FollowSame(r: Rules, p: Placed, st: Step, now: nat, least: nat, depth: nat)
    requires p.state.main != [] && st == DeepFollow(r, p, now, least) && st.verdict != Nested && least <= depth
    ensures DeepFollow(r, p, now, depth) == st
    decreases depth
  {
    if least < depth {
      FollowSame(r, p, st, now, least, depth - 1);
      FollowDeeper(r, p, st, now, depth - 1);
    }
  }

  lemma {:induction false} DeeperIsSame(r: Rules, s: State, b: Block, st: Step, now: nat, least: nat, depth: nat)
    requires s.main != [] && st == DeepAdd(r, s, b, now, least) && st.verdict != Nested && least <= depth
    ensures DeepAdd(r, s, b, now, depth) == st
  {
    if !HaveBlock(r, s, r.hash(b)) && b.prev != TipHash(r, s) {
      FollowSame(r, PlaceAlt(r, s, b), st, now, least + 1, depth + 1);
    }
  }

  /** So following one nested switch is the same as following any number. */
  lemma {:induction false} DeepIsEnough(r: Rules, g: Record, s: State, b: Block, st: Step, now: nat, least: nat, depth: nat)
    requires Lawful(r) && IsGenesis(g) && Healthy(r, g, s, now) && Keyed(r, s.alt) && least == 1 <= depth
    requires st == DeepAdd(r, s, b, now, least)
    ensures DeepAdd(r, s, b, now, depth) == st
  {
    NestsOnce(r, g, s, b, st, now, least);
    DeeperIsSame(r, s, b, st, now, least, depth);
  }

  // ---------- every alternative stays under its own hash ----------

  lemma {:induction false} ForgetKeyed(r: Rules, s: State, bs: seq<Block>)
    requires Keyed(r, s.alt)
    ensures Keyed(r, Forget(r, s, bs).state.alt)
    decreases |bs|
  {
    if bs != [] && r.hash(bs[0]) in s.alt { ForgetKeyed(r, s.(alt := s.alt - {r.hash(bs[0])}), bs[1..]); }
  }

  lemma {:induction false} AbandonKeyed(r: Rules, s: State, bs: seq<Block>)
    requires Keyed(r, s.alt)
    ensures Keyed(r, Abandon(r, s, bs).state.alt)
    decreases |bs|
  {
    if bs != [] && r.hash(bs[0]) in s.alt {
      var t := s.(invalid := s.invalid + {r.hash(bs[0])});
      AbandonKeyed(r, t.(alt := s.alt - {r.hash(bs[0])}), bs[1..]);
    }
  }

  lemma {:induction false} GiveUpKeyed(r: Rules, s: State, f: nat, alts: seq<Node>, c: Connection, now: nat)
    requires 1 <= f <= |s.main| && c.state.main != [] && c.count <= |alts| && Keyed(r, c.state.alt)
    ensures Keyed(r, GiveUp(r, s, f, alts, c, now).state.alt)
  {
    var bs := Blocks(Nodes(s.main[f..]));
    if f <= |c.state.main| { ConnectKeepsAlt(r, PopTo(r, c.state, f, now), bs, now); }
    var u := Rollback(r, c.state, bs, f, now);
    AbandonKeyed(r, u.state, Blocks(alts)[c.count..]);
  }

  lemma {:induction false} DeepAltKeyed(r: Rules, s: State, b: Block, now: nat, depth: nat)
    requires s.main != [] && Keyed(r, s.alt)
    ensures Keyed(r, DeepAlt(r, s, b, now, depth).state.alt)
    decreases depth, 1
  {
    var p := PlaceAlt(r, s, b);
    ChallengeStored(r, s, b, p);
    if p.outcome == Heavier && depth != 0 {
      DeepSwitchKeyed(r, p.state, p.branch, now, depth - 1);
    }
  }

  lemma {:induction false} DeepReaddKeyed(r: Rules, s: State, bs: seq<Block>, e: Step, now: nat, depth: nat)
    requires s.main != [] && Keyed(r, s.alt) && e == DeepReadd(r, s, bs, now, depth)
    ensures Keyed(r, e.state.alt)
    decreases depth, 2, |bs|
  {
    if bs != [] {
      var st := DeepAlt(r, s, bs[0], now, depth);
      DeepAltKeyed(r, s, bs[0], now, depth);
      ReaddFirst(r, s, bs, st, e, now, depth);
      if st.verdict != Threw && st.verdict != Nested { DeepReaddKeyed(r, st.state, bs[1..], e, now, depth); }
    }
  }

  lemma {:induction false} DeepSwitchKeyed(r: Rules, s: State, alts: seq<Node>, now: nat, depth: nat)
    requires s.main != [] && Keyed(r, s.alt)
    ensures Keyed(r, DeepSwitch(r, s, alts, now, depth).state.alt)
    decreases depth, 5
  {
    if alts != [] && Joins(r, s, alts) {
      DeepSwitchAtKeyed(r, s, SplitOf(r, s, alts), alts, now, depth);
    }
  }

  lemma {:induction false} DeepSwitchAtKeyed(r: Rules, s: State, f: nat, alts: seq<Node>, now: nat, depth: nat)
    requires 1 <= f <= |s.main| && Keyed(r, s.alt)
    ensures Keyed(r, DeepSwitchAt(r, s, f, alts, now, depth).state.alt)
    decreases depth, 4
  {
    var c := Attempt(r, s, f, alts, now);
    ConnectKeepsAlt(r, PopTo(r, s, f, now), Blocks(alts), now);
    if c.verdict == Added {
      var bs := Blocks(Nodes(s.main[f..]));
      var e := DeepReadd(r, c.state, bs, now, depth);
      DeepReaddKeyed(r, c.state, bs, e, now, depth);
      ForgetKeyed(r, e.state, Blocks(alts));
    } else if c.verdict != Threw {
      GiveUpKeyed(r, s, f, alts, c, now);
    }
  }

  lemma {:induction false} DeepAddKeyed(r: Rules, s: State, b: Block, now: nat, depth: nat)
    requires s.main != [] && Keyed(r, s.alt)
    ensures Keyed(r, DeepAdd(r, s, b, now, depth).state.alt)
  {
    if !HaveBlock(r, s, r.hash(b)) && b.prev != TipHash(r, s) { DeepAltKeyed(r, s, b, now, depth + 1); }
  }

  /** No run stores a block under another hash. */
  lemma {:induction false} RunKeyed(r: Rules, s: State, es: seq<Runs.Event>)
    requires s.main != [] && Keyed(r, s.alt)
    ensures Keyed(r, Runs.Run(r, s, es).alt)
    decreases |es|
  {
    if es != [] {
      if es[0].Incoming? { DeepAddKeyed(r, s, es[0].block, es[0].at, 1); }
      RunKeyed(r, Runs.Apply(r, s, es[0]), es[1..]);
    }
  }
}
