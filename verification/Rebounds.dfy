/**
 What a nested switch comes to: it leads back to the old main chain, and the rest of the old blocks
 follow one by one, unless one of them is too early or an exception stops it.
 */
module Rebounds {
  import opened Ledger
  import opened Windows
  import opened Chain
  import opened Reorg
  import opened Transit
  import opened MainSteps
  import opened Branches
  import opened Switching
  import opened Nesting
  import opened Once
  import opened Bootstrap

  // ---------- what the branch routine sees ----------

  /** On the chain `c`, a branch from height `f` on, the block `b` would not be earlier than the median. */
  ghost predicate TimelyOn(r: Rules, c: seq<Node>, f: nat, b: Block)
    requires 1 <= f <= |c|
  {
    r.median(Reverse(Stamps(c[f..])) + FillStamps(c, f - 1, |c| - f)) <= b.timestamp
  }

  /** `b` comes next on `c`, which leaves the main chain at height `f` and is stored from there on. */
  ghost predicate Hangs(r: Rules, v: State, c: seq<Node>, f: nat, b: Block) {
    && 1 <= f <= |v.main| && f <= |c| && c[..f] == Nodes(v.main)[..f] && b.height == |c|
    && BuildAlt(v.alt, b.prev) == c[f..]
    && (if |c| == f then b.prev == r.hash(v.main[f - 1].node.block)
        else f < |v.main| && c[f].block.prev == r.hash(v.main[f - 1].node.block) && c[f].block.height == f && Last(c).block.height == |c| - 1)
    && Find(r, v.main, r.hash(v.main[f - 1].node.block)) == f - 1
  }

  lemma {:induction false} HangsSeen(r: Rules, v: State, c: seq<Node>, f: nat, b: Block)
    requires Hangs(r, v, c, f, b)
    ensures Attached(r, v.main, c[f..], b.prev) && AltHeight(r, v.main, c[f..], b.prev) == |c|
    ensures ParentChain(r, v.main, c[f..], b.prev) == c
    ensures AltStamps(r, v.main, c[f..], b.prev) == Reverse(Stamps(c[f..])) + FillStamps(c, f - 1, |c| - f)
  {
    assert c[..f] + c[f..] == c;
    FillSame(Nodes(v.main), c, f, |c| - f);
    if |c| != f { assert c[f..][0] == c[f] && Last(c[f..]) == Last(c); }
  }

  /** What becomes of it, if its coinbase passes and it is not stored. */
  ghost predicate Lands(r: Rules, v: State, c: seq<Node>, f: nat, b: Block, p: Placed)
    requires v.main != [] && 1 <= f <= |c|
  {
    var d := r.ahead(c, |v.main|);
    if !TimelyOn(r, c, f, b) then p.state == v && p.outcome == Refused
    else if d.None? then p.state == v && p.outcome == Raised
    else if d.value == 0 || !r.pow(b, d.value) then p.state == v && p.outcome == Refused
    else
      var x := Node(b, Last(c).work + d.value);
      && p.state == v.(alt := v.alt[r.hash(b) := x]) && p.branch == c[f..] + [x]
      && p.outcome == if Last(v.main).node.work < x.work then Heavier else Lighter
  }

  lemma {:induction false} HangsChecks(r: Rules, v: State, c: seq<Node>, f: nat, b: Block, a: seq<Node>)
    requires Hangs(r, v, c, f, b) && a == BuildAlt(v.alt, b.prev)
    ensures a == c[f..] && Attached(r, v.main, a, b.prev) && ParentChain(r, v.main, a, b.prev) == c
    ensures AltTimely(r, v, b) <==> TimelyOn(r, c, f, b)
    ensures AltAhead(r, v, b) == r.ahead(c, |v.main|)
    ensures forall d :: AltPasses(r, v, b, d) <==> d != 0 && r.pow(b, d) && r.coinbase(b) && r.hash(b) !in v.alt
  {
    HangsSeen(r, v, c, f, b);
  }

  lemma {:induction false} HangsLands(r: Rules, v: State, c: seq<Node>, f: nat, b: Block, p: Placed)
    requires Hangs(r, v, c, f, b) && p == PlaceAlt(r, v, b) && r.coinbase(b) && r.hash(b) !in v.alt
    ensures Lands(r, v, c, f, b, p)
  {
    HangsChecks(r, v, c, f, b, BuildAlt(v.alt, b.prev));
    HangsKnown(r, v, c, f, b);
    PlaceCases(r, v, b, p);
    LandsSo(r, v, c, f, b, BuildAlt(v.alt, b.prev), p);
  }

  /** The checks of the branch routine, in their order. */
  ghost predicate Placing(r: Rules, v: State, b: Block, p: Placed)
    requires v.main != []
  {
    if !AltTimely(r, v, b) then p.state == v && p.outcome == Refused
    else
      var d := AltAhead(r, v, b);
      if d.None? then p.state == v && p.outcome == Raised
      else if !AltPasses(r, v, b, d.value) then p.state == v && p.outcome == Refused
      else p == StoreAlt(r, v, b, NewNode(r, v, b, d.value))
  }

  lemma {:induction false} PlaceCases(r: Rules, v: State, b: Block, p: Placed)
    requires v.main != [] && b.height != 0 && (b.prev in v.alt || InMain(r, v.main, b.prev)) && p == PlaceAlt(r, v, b)
    ensures Placing(r, v, b, p)
  {
  }

  lemma {:induction false} LandsSo(r: Rules, v: State, c: seq<Node>, f: nat, b: Block, a: seq<Node>, p: Placed)
    requires v.main != [] && 1 <= f <= |c|
    requires a == BuildAlt(v.alt, b.prev) && a == c[f..] && Attached(r, v.main, a, b.prev) && ParentChain(r, v.main, a, b.prev) == c
    requires AltTimely(r, v, b) <==> TimelyOn(r, c, f, b)
    requires AltAhead(r, v, b) == r.ahead(c, |v.main|)
    requires forall d :: AltPasses(r, v, b, d) <==> d != 0 && r.pow(b, d)
    requires Placing(r, v, b, p)
    ensures Lands(r, v, c, f, b, p)
  {
  }

  lemma {:induction false} HangsKnown(r: Rules, v: State, c: seq<Node>, f: nat, b: Block)
    requires Hangs(r, v, c, f, b)
    ensures b.prev in v.alt || InMain(r, v.main, b.prev)
  {
    if |c| != f { assert BuildAlt(v.alt, b.prev) != []; }
  }

  /** A block that is stored is refused, unless the rule throws. */
  lemma {:induction false} HangsAgain(r: Rules, v: State, c: seq<Node>, f: nat, b: Block, p: Placed)
    requires Hangs(r, v, c, f, b) && p == PlaceAlt(r, v, b) && r.hash(b) in v.alt
    ensures p.state == v && p.outcome == if TimelyOn(r, c, f, b) && r.ahead(c, |v.main|).None? then Raised else Refused
  {
    HangsChecks(r, v, c, f, b, BuildAlt(v.alt, b.prev));
    HangsKnown(r, v, c, f, b);
    PlaceCases(r, v, b, p);
  }

  /** Walking back along stored and linked blocks meets them all. */
  lemma {:induction false} BuildIs(r: Rules, alt: map<Hash, Node>, a: seq<Node>, h: Hash)
    requires AllStored(r, alt, a) && Linked(r, a) && Droppable(r, alt, Blocks(a))
    requires if a == [] then h !in alt else h == r.hash(Last(a).block) && a[0].block.prev !in alt
    ensures BuildAlt(alt, h) == a
    decreases |a|
  {
    if a != [] {
      var n := |a| - 1;
      var left, front := alt - {h}, a[..n];
      assert a[n] == Last(a) && alt[h] == a[n];
      forall i | 0 <= i < n ensures r.hash(front[i].block) in left && left[r.hash(front[i].block)] == front[i] {
        assert r.hash(Blocks(a)[i]) != r.hash(Blocks(a)[n]);
      }
      forall i, j | 0 <= i < j < n ensures r.hash(Blocks(front)[i]) != r.hash(Blocks(front)[j]) {
        assert r.hash(Blocks(a)[i]) != r.hash(Blocks(a)[j]);
      }
      if n != 0 { assert front[0] == a[0] && Last(front) == a[n - 1]; }
      BuildIs(r, left, front, a[n].block.prev);
      assert a == front + [a[n]];
    }
  }

  // ---------- the nested switch ----------

  /** Main chain and alternatives have no block in common. */
  ghost predicate Unmixed(r: Rules, s: State) {
    forall k :: 0 <= k < |s.main| ==> r.hash(s.main[k].node.block) !in s.alt
  }

  /** Old blocks, from `j` to `n`, connected where the old main chain reaches up to `j`. */
  lemma {:induction false} OldGoOn(r: Rules, g: Record, s: State, t: State, j: nat, n: nat, bs: seq<Block>, c: Connection, now: nat)
    requires Healthy(r, g, s, now) && Healthy(r, g, t, now) && NothingLost(s, t)
    requires 1 <= j <= n < |s.main| && t.main == s.main[..j] && bs == Blocks(Nodes(s.main[j..n + 1])) && c == Connect(r, t, bs, now)
    ensures c.state.main == s.main[..n + 1] && c.state.alt == t.alt && c.state.invalid == t.invalid
    ensures c.verdict == if n + 1 < |s.main| || NextDefined(r, s.main) then Added else Threw
  {
    OldFollows(r, g, s.main, t.main, j, n, s.main[j..n + 1], now);
    OldIsSafe(s, t, j, n);
    ReconnectRestores(r, g, t, s.main[j..n + 1], now);
    assert n + 1 == |s.main| ==> s.main[..n + 1] == s.main;
  }

  lemma {:induction false} OldFollows(r: Rules, g: Record, c: seq<Record>, d: seq<Record>, j: nat, n: nat, rest: seq<Record>, now: nat)
    requires Replays(r, g, c, now) && 1 <= j <= n < |c| && d == c[..j] && rest == c[j..n + 1]
    ensures d + rest == c[..n + 1] && Replays(r, g, d + rest, now)
    ensures n + 1 < |c| ==> NextDefined(r, d + rest)
  {
    Glued(c, j, n + 1);
    FrontReplays(r, g, c, n + 1, now);
  }

  lemma {:induction false} FrontReplays(r: Rules, g: Record, c: seq<Record>, k: nat, now: nat)
    requires Replays(r, g, c, now) && 1 <= k <= |c|
    ensures Replays(r, g, c[..k], now) && (k < |c| ==> NextDefined(r, c[..k]))
  {
    PrefixReplays(r, g, c, k, now);
    if k < |c| { assert FitsAt(r, c, k, now); }
  }

  lemma {:induction false} Glued(c: seq<Record>, j: nat, k: nat)
    requires j <= k <= |c|
    ensures c[..j] + c[j..k] == c[..k]
  {
  }

  lemma {:induction false} OldIsSafe(s: State, t: State, j: nat, n: nat)
    requires NothingLost(s, t) && j <= n < |s.main|
    ensures AllSafe(t, s.main[j..n + 1])
  {
    var rest := s.main[j..n + 1];
    OldStaysSafe(s, t, j);
    forall i, m | 0 <= i < |rest| && 0 <= m < |rest[i].txs| ensures Safe(t, rest[i].txs[m]) { assert rest[i] == s.main[j..][i]; }
  }

  /** `branch` are the old blocks from `j` to `n`. */
  ghost predicate OldBranch(s: State, branch: seq<Node>, j: nat, n: nat) {
    && j <= n < |s.main| && |branch| == n + 1 - j
    && forall i :: 0 <= i < |branch| ==> branch[i].block == s.main[j + i].node.block
  }

  lemma {:induction false} OldBlocks(s: State, branch: seq<Node>, j: nat, n: nat)
    requires OldBranch(s, branch, j, n)
    ensures Blocks(branch) == Blocks(Nodes(s.main[j..n + 1]))
  {
  }

  /** Putting back one of these blocks, all stored, throws. */
  ghost predicate Jams(r: Rules, v: State, bs: seq<Block>)
    requires v.main != []
  {
    exists i :: 0 <= i < |bs| && PlaceAlt(r, v, bs[i]).outcome == Raised
  }

  lemma {:induction false} StoredJam(r: Rules, v: State, bs: seq<Block>, e: Step, now: nat)
    requires v.main != [] && (forall i :: 0 <= i < |bs| ==> r.hash(bs[i]) in v.alt) && e == DeepReadd(r, v, bs, now, 0)
    ensures e == Step(v, if Jams(r, v, bs) then Threw else Switched)
    decreases |bs|
  {
    if bs != [] {
      var p := PlaceAlt(r, v, bs[0]);
      StoredRefused(r, v, bs[0]);
      UnplacedIs(r, v, bs[0], now, 0);
      ReaddFirst(r, v, bs, Unplaced(p), e, now, 0);
      if p.outcome != Raised {
        StoredJam(r, v, bs[1..], e, now);
        if i :| 0 <= i < |bs| && PlaceAlt(r, v, bs[i]).outcome == Raised { assert bs[1..][i - 1] == bs[i]; }
      }
    }
  }

  /** `branch` leads from `u` back along the old main chain to the block at `n`; dropping it leaves what was stored before. */
  ghost predicate LeadsBack(r: Rules, g: Record, s: State, u: State, branch: seq<Node>, j: nat, n: nat, now: nat) {
    && Healthy(r, g, u, now) && NothingLost(s, u) && OldBranch(s, branch, j, n)
    && branch != [] && Joins(r, u, branch) && SplitOf(r, u, branch) == j && u.main[..j] == s.main[..j]
    && Droppable(r, u.alt, Blocks(branch)) && u.alt - Hashes(r, Blocks(branch)) == s.alt && u.invalid == s.invalid
    && (forall k :: j <= k < |u.main| ==> r.hash(u.main[k].node.block) in u.alt)
  }

  /** The old main chain is back up to `k` blocks, and nothing else has changed. */
  ghost predicate BackTo(r: Rules, g: Record, s: State, k: nat, u: State, now: nat) {
    && Healthy(r, g, u, now) && NothingLost(s, u)
    && 1 <= k <= |s.main| && u.main == s.main[..k] && u.alt == s.alt && u.invalid == s.invalid
  }

  /** An exception: the old main chain is back up to `k` blocks, but its last block and all that was stored is stored. */
  ghost predicate Wrecked(r: Rules, s: State, k: nat, e: Step) {
    && e.verdict == Threw && 1 <= k <= |s.main| && e.state.main == s.main[..k] && e.state.invalid == s.invalid
    && r.hash(s.main[k - 1].node.block) in e.state.alt
    && forall h :: h in s.alt ==> h in e.state.alt && e.state.alt[h] == s.alt[h]
  }

  /** The state in which the new main chain is put back as alternatives. */
  ghost function Halfway(s: State, u: State, n: nat): State
    requires n < |s.main|
  {
    u.(main := s.main[..n + 1])
  }

  /** What the nested switch comes to: `jams` says whether putting back the blocks it disconnects throws. */
  ghost predicate NestedEnd(r: Rules, g: Record, s: State, n: nat, jams: bool, st: Step, now: nat) {
    n < |s.main| &&
    if jams || (n + 1 == |s.main| && !NextDefined(r, s.main)) then Wrecked(r, s, n + 1, st)
    else st.verdict == Switched && BackTo(r, g, s, n + 1, st.state, now)
  }

  lemma {:induction false} NestedReturns(r: Rules, g: Record, s: State, u: State, branch: seq<Node>, j: nat, n: nat, jams: bool, st: Step, now: nat)
    requires Healthy(r, g, s, now) && LeadsBack(r, g, s, u, branch, j, n, now) && st == DeepSwitch(r, u, branch, now, 0)
    requires jams == Jams(r, Halfway(s, u, n), Blocks(Nodes(u.main[j..])))
    ensures NestedEnd(r, g, s, n, jams, st, now)
  {
    var t, c := PopTo(r, u, j, now), Attempt(r, u, j, branch, now);
    PopToKeeps(r, g, u, j, now);
    NothingLostTrans(s, u, t);
    OldBlocks(s, branch, j, n);
    OldGoOn(r, g, s, t, j, n, Blocks(branch), c, now);
    LastIsStored(r, s, u, branch, j, n);
    DeepSwitchKeeps(r, g, u, branch, st, now, 0);
    NothingLostTrans(s, u, st.state);
    if c.verdict == Added { NestedEnds(r, s, u, branch, j, n, c, jams, st, now); }
  }

  lemma {:induction false} LastIsStored(r: Rules, s: State, u: State, branch: seq<Node>, j: nat, n: nat)
    requires OldBranch(s, branch, j, n) && Droppable(r, u.alt, Blocks(branch)) && u.alt - Hashes(r, Blocks(branch)) == s.alt
    ensures r.hash(s.main[n].node.block) in u.alt && forall h :: h in s.alt ==> h in u.alt && u.alt[h] == s.alt[h]
  {
    assert Blocks(branch)[n - j] == s.main[n].node.block;
  }

  lemma {:induction false} NestedEnds(r: Rules, s: State, u: State, branch: seq<Node>, j: nat, n: nat, c: Connection, jams: bool, st: Step, now: nat)
    requires 1 <= j <= |u.main| && c == Attempt(r, u, j, branch, now) && c.verdict == Added && n < |s.main|
    requires c.state.main == s.main[..n + 1] && c.state.alt == u.alt && c.state.invalid == u.invalid
    requires Droppable(r, u.alt, Blocks(branch)) && (forall k :: j <= k < |u.main| ==> r.hash(u.main[k].node.block) in u.alt)
    requires jams == Jams(r, Halfway(s, u, n), Blocks(Nodes(u.main[j..]))) && st == DeepSwitchAt(r, u, j, branch, now, 0)
    ensures st.state.main == s.main[..n + 1] && st.state.invalid == u.invalid
    ensures if jams then st.verdict == Threw && st.state.alt == u.alt
            else st.verdict == Switched && st.state.alt == u.alt - Hashes(r, Blocks(branch))
  {
    var e := DeepReadd(r, c.state, Blocks(Nodes(u.main[j..])), now, 0);
    NestedReadds(r, u, j, c.state, Halfway(s, u, n), jams, e, now);
    ConcludesSo(r, u, j, branch, c, e, st, now);
    JamForgets(r, c.state, branch, jams, e, st);
  }

  lemma {:induction false} NestedReadds(r: Rules, u: State, j: nat, v: State, w: State, jams: bool, e: Step, now: nat)
    requires j <= |u.main| && v.main != [] && v.main == w.main && v.alt == w.alt == u.alt
    requires forall k :: j <= k < |u.main| ==> r.hash(u.main[k].node.block) in u.alt
    requires jams == Jams(r, w, Blocks(Nodes(u.main[j..]))) && e == DeepReadd(r, v, Blocks(Nodes(u.main[j..])), now, 0)
    ensures e == Step(v, if jams then Threw else Switched)
  {
    var bs := Blocks(Nodes(u.main[j..]));
    forall i | 0 <= i < |bs| ensures r.hash(bs[i]) in v.alt { assert bs[i] == u.main[j + i].node.block; }
    StoredJam(r, v, bs, e, now);
    JamsSame(r, v, w, bs);
  }

  lemma {:induction false} JamForgets(r: Rules, v: State, branch: seq<Node>, jams: bool, e: Step, st: Step)
    requires Droppable(r, v.alt, Blocks(branch)) && e == Step(v, if jams then Threw else Switched)
    requires st == if e.verdict != Switched then e else Forget(r, e.state, Blocks(branch))
    ensures st.state.main == v.main && st.state.invalid == v.invalid
    ensures if jams then st.verdict == Threw && st.state.alt == v.alt
            else st.verdict == Switched && st.state.alt == v.alt - Hashes(r, Blocks(branch))
  {
    if !jams { ForgetDrops(r, v, Blocks(branch)); }
  }

  /** The pool makes no difference. */
  lemma {:induction false} JamsSame(r: Rules, v: State, w: State, bs: seq<Block>)
    requires v.main != [] && v.main == w.main && v.alt == w.alt
    ensures Jams(r, v, bs) <==> Jams(r, w, bs)
  {
    forall b ensures PlaceAlt(r, v, b).outcome == PlaceAlt(r, w, b).outcome { PlaceSame(r, v, w, b); }
  }

  lemma {:induction false} PlaceSame(r: Rules, v: State, w: State, b: Block)
    requires v.main != [] && v.main == w.main && v.alt == w.alt
    ensures PlaceAlt(r, v, b).outcome == PlaceAlt(r, w, b).outcome
  {
    assert AltTimely(r, v, b) == AltTimely(r, w, b);
    if AltTimely(r, v, b) {
      var d := AltAhead(r, v, b);
      assert d == AltAhead(r, w, b);
      if d.Some? { assert AltPasses(r, v, b, d.value) == AltPasses(r, w, b, d.value); }
    }
  }

  lemma {:induction false} ConcludesSo(r: Rules, u: State, j: nat, branch: seq<Node>, c: Connection, e: Step, st: Step, now: nat)
    requires 1 <= j <= |u.main| && c == Attempt(r, u, j, branch, now) && c.verdict == Added
    requires e == DeepReadd(r, c.state, Blocks(Nodes(u.main[j..])), now, 0) && st == DeepSwitchAt(r, u, j, branch, now, 0)
    ensures st == if e.verdict != Switched then e else Forget(r, e.state, Blocks(branch))
  {
  }

  lemma {:induction false} OldDroppable(r: Rules, s: State, u: State, branch: seq<Node>, j: nat, n: nat)
    requires Lawful(r) && Chained(r, s.main) && OldBranch(s, branch, j, n)
    requires forall i :: j <= i <= n ==> r.hash(s.main[i].node.block) in u.alt
    ensures Droppable(r, u.alt, Blocks(branch))
  {
    var bs := Blocks(branch);
    forall i | 0 <= i < |bs| ensures r.hash(bs[i]) in u.alt { assert bs[i] == s.main[j + i].node.block; }
    forall i, m | 0 <= i < m < |bs| ensures r.hash(bs[i]) != r.hash(bs[m]) { OthersHash(r, s.main, j + i, j + m); }
  }

  // ---------- the rest of the old blocks ----------

  lemma {:induction false} FoundAt(r: Rules, c: seq<Record>, d: seq<Record>, k: nat)
    requires Lawful(r) && Chained(r, c) && 1 <= k <= |c| && d == c[..k]
    ensures Find(r, d, r.hash(c[k - 1].node.block)) == k - 1
  {
    var j := Find(r, d, r.hash(c[k - 1].node.block));
    assert d[k - 1] == c[k - 1];
    if j < k - 1 { OthersHash(r, c, j, k - 1); }
  }

  /** On the old main chain the next old block comes on top. */
  lemma {:induction false} NextHangs(r: Rules, g: Record, s: State, k: nat, u: State, now: nat)
    requires Lawful(r) && IsGenesis(g) && Healthy(r, g, s, now) && Unmixed(r, s) && BackTo(r, g, s, k, u, now) && k < |s.main|
    ensures Hangs(r, u, Nodes(u.main), k, s.main[k].node.block)
  {
    HealthyChained(r, g, s.main, now);
    TopHangs(r, s, k, u);
  }

  lemma {:induction false} TopHangs(r: Rules, s: State, k: nat, u: State)
    requires Lawful(r) && Chained(r, s.main) && Unmixed(r, s) && 1 <= k < |s.main| && u.main == s.main[..k] && u.alt == s.alt
    ensures Hangs(r, u, Nodes(u.main), k, s.main[k].node.block)
  {
    assert ChainedAt(r, s.main, k);
    assert u.main[k - 1] == s.main[k - 1];
    FoundAt(r, s.main, u.main, k);
    assert Nodes(u.main)[..k] == Nodes(u.main) && Nodes(u.main)[k..] == [];
  }

  lemma {:induction false} TimelySame(r: Rules, c: seq<Record>, k: nat)
    requires 1 <= k < |c|
    ensures TimelyOn(r, Nodes(c[..k]), k, c[k].node.block) <==> TimelyAt(r, c, k)
  {
    var d := Nodes(c[..k]);
    assert d == Nodes(c)[..k];
    assert d[k..] == [] && Reverse(Stamps(d[k..])) == [];
    FillSame(d, Nodes(c), k, 0);
    assert [] + FillStamps(d, k - 1, 0) == FillStamps(d, k - 1, 0);
  }

  lemma {:induction false} TopAsks(r: Rules, g: Record, s: State, k: nat, u: State, now: nat) returns (d: nat)
    requires Healthy(r, g, s, now) && 1 <= k < |s.main| && u.main == s.main[..k]
    ensures var n := s.main[k].node;
            && r.ahead(Nodes(u.main), |u.main|) == Some(d) && d != 0 && r.pow(n.block, d) && r.coinbase(n.block)
            && n.work == Last(Nodes(u.main)).work + d && Last(u.main).node.work < n.work
  {
    assert FitsAt(r, s.main, k, now);
    assert Last(u.main) == s.main[k - 1];
    assert Last(Nodes(u.main)) == Last(u.main).node;
    d := r.ahead(Nodes(u.main), |u.main|).value;
  }

  /** It is stored as heavier, or refused if it is too early. */
  lemma {:induction false} NextLands(r: Rules, g: Record, s: State, k: nat, u: State, p: Placed, now: nat)
    requires Lawful(r) && IsGenesis(g) && Healthy(r, g, s, now) && Unmixed(r, s) && BackTo(r, g, s, k, u, now) && k < |s.main|
    requires p == PlaceAlt(r, u, s.main[k].node.block)
    ensures var n := s.main[k].node;
            if TimelyAt(r, s.main, k) then p == Placed(u.(alt := u.alt[r.hash(n.block) := n]), [n], Heavier)
            else p.state == u && p.outcome == Refused
  {
    var n, c := s.main[k].node, Nodes(u.main);
    NextHangs(r, g, s, k, u, now);
    TimelySame(r, s.main, k);
    var d := TopAsks(r, g, s, k, u, now);
    HangsLands(r, u, c, k, n.block, p);
    LandsOnTop(r, u, c, k, n, d, p);
  }

  lemma {:induction false} LandsOnTop(r: Rules, u: State, c: seq<Node>, k: nat, n: Node, d: nat, p: Placed)
    requires u.main != [] && 1 <= k == |c| && Lands(r, u, c, k, n.block, p) && r.ahead(c, |u.main|) == Some(d) && d != 0
    requires r.pow(n.block, d) && n.work == Last(c).work + d && Last(u.main).node.work < n.work
    ensures if TimelyOn(r, c, k, n.block) then p == Placed(u.(alt := u.alt[r.hash(n.block) := n]), [n], Heavier)
            else p.state == u && p.outcome == Refused
  {
    assert c[k..] + [n] == [n];
  }

  lemma {:induction false} OneReturns(r: Rules, g: Record, s: State, k: nat, u: State, p: Placed, st: Step, now: nat)
    requires Lawful(r) && IsGenesis(g) && Healthy(r, g, s, now) && Unmixed(r, s) && BackTo(r, g, s, k, u, now) && k < |s.main|
    requires var n := s.main[k].node; p == Placed(u.(alt := u.alt[r.hash(n.block) := n]), [n], Heavier)
    requires p == PlaceAlt(r, u, s.main[k].node.block) && st == DeepAlt(r, u, s.main[k].node.block, now, 1)
    ensures NestedEnd(r, g, s, k, false, st, now)
  {
    FollowIs(r, p, DeepSwitch(r, p.state, p.branch, now, 0), now, 0);
    OneLeadsBack(r, g, s, k, u, p.state, s.main[k].node, now);
    assert Blocks(Nodes(p.state.main[k..])) == [];
    NestedReturns(r, g, s, p.state, p.branch, k, k, false, st, now);
  }

  lemma {:induction false} OneLeadsBack(r: Rules, g: Record, s: State, k: nat, u: State, v: State, n: Node, now: nat)
    requires Lawful(r) && IsGenesis(g) && Healthy(r, g, s, now) && Unmixed(r, s) && BackTo(r, g, s, k, u, now)
    requires k < |s.main| && n == s.main[k].node && v == u.(alt := u.alt[r.hash(n.block) := n])
    ensures LeadsBack(r, g, s, v, [n], k, k, now)
  {
    HealthyChained(r, g, s.main, now);
    assert ChainedAt(r, s.main, k);
    FoundAt(r, s.main, u.main, k);
    SamePoolSafe(s, u, v);
    OldDroppable(r, s, v, [n], k, k);
    OneDropped(r, s, k, u, n);
  }

  lemma {:induction false} OneDropped(r: Rules, s: State, k: nat, u: State, n: Node)
    requires Unmixed(r, s) && k < |s.main| && n == s.main[k].node && u.alt == s.alt
    ensures u.alt[r.hash(n.block) := n] - Hashes(r, Blocks([n])) == s.alt
  {
    assert Blocks([n])[0] == n.block;
    assert Hashes(r, Blocks([n])) == {r.hash(n.block)};
  }

  lemma {:induction false} OldRest(c: seq<Record>, k: nat, bs: seq<Block>)
    requires k <= |c| && bs == Blocks(Nodes(c[k..]))
    ensures bs != [] <==> k < |c|
    ensures bs != [] ==> bs[0] == c[k].node.block && bs[1..] == Blocks(Nodes(c[k + 1..]))
  {
    if k < |c| { assert bs[1..] == Blocks(Nodes(c[k + 1..])); }
  }

  /** How far the old blocks from `k` on follow: up to the first that is earlier than the median below it. */
  ghost function Reach(r: Rules, c: seq<Record>, k: nat): (n: nat)
    requires 1 <= k <= |c|
    ensures k <= n <= |c|
    decreases |c| - k
  {
    if k == |c| || !TimelyAt(r, c, k) then k else Reach(r, c, k + 1)
  }

  /** The median does not depend on which end of the list comes first. */
  ghost predicate EitherWay(r: Rules) { forall w {:trigger SameMedian(r, w)} :: SameMedian(r, w) }

  ghost predicate SameMedian(r: Rules, w: seq<nat>) { r.median(Reverse(w)) == r.median(w) }

  /** Then, from height 12 on, they follow to the last. */
  lemma {:induction false} ReachesAll(r: Rules, g: Record, c: seq<Record>, k: nat, now: nat)
    requires Replays(r, g, c, now) && 12 <= k <= |c| && EitherWay(r)
    ensures Reach(r, c, k) == |c|
    decreases |c| - k
  {
    if k < |c| {
      assert SameMedian(r, Stamps(Nodes(c)[k - STAMP_WINDOW..k]));
      AcceptedIsTimely(r, g, c, k, now);
      ReachesAll(r, g, c, k + 1, now);
    }
  }

  /** What comes of the old blocks: the old main chain is back up to `n` of them, with an exception or not. */
  ghost predicate RestEnd(r: Rules, g: Record, s: State, n: nat, throws: bool, e: Step, now: nat) {
    if throws then Wrecked(r, s, n, e) else e.verdict == Switched && BackTo(r, g, s, n, e.state, now)
  }

  /** The old blocks from `k` on are still to be put back on the old main chain; `e` is how that ends. */
  ghost predicate Rest(r: Rules, g: Record, s: State, k: nat, u: State, e: Step, now: nat) {
    && u.main != [] && BackTo(r, g, s, k, u, now) && e == DeepReadd(r, u, Blocks(Nodes(s.main[k..])), now, 1)
  }

  /** Behind a block that is nowhere all others are refused. */
  lemma {:induction false} StraysDeep(r: Rules, u: State, bs: seq<Block>, e: Step, now: nat, depth: nat)
    requires u.main != [] && (forall i :: 0 <= i < |bs| ==> Stray(r, u, bs[i])) && e == DeepReadd(r, u, bs, now, depth)
    ensures e == Step(u, Switched)
  {
    StraysStayOut(r, u, bs);
    ReaddIsPlain(r, u, bs, now, depth);
  }

  lemma {:induction false} RestStrays(r: Rules, s: State, k: nat, u: State, bs: seq<Block>)
    requires Lawful(r) && Chained(r, s.main) && Unmixed(r, s) && 1 <= k < |s.main| && u.main == s.main[..k] && u.alt == s.alt
    requires bs == Blocks(Nodes(s.main[k + 1..]))
    ensures forall i :: 0 <= i < |bs| ==> Stray(r, u, bs[i])
  {
    forall i | 0 <= i < |bs| ensures Stray(r, u, bs[i]) {
      var n := k + 1 + i;
      assert bs[i] == s.main[n].node.block && ChainedAt(r, s.main, n);
      BeyondIsNot(r, s.main, k, n - 1);
    }
  }

  lemma {:induction false} BeyondIsNot(r: Rules, c: seq<Record>, k: nat, n: nat)
    requires Lawful(r) && Chained(r, c) && k <= n < |c|
    ensures !InMain(r, c[..k], r.hash(c[n].node.block))
  {
    var j := Find(r, c[..k], r.hash(c[n].node.block));
    assert j < k ==> c[..k][j] == c[j];
    if j < k { OthersHash(r, c, j, n); }
  }

  lemma {:induction false} RestStops(r: Rules, g: Record, s: State, k: nat, u: State, bs: seq<Block>, p: Placed, e: Step, now: nat)
    requires Lawful(r) && IsGenesis(g) && Healthy(r, g, s, now) && Unmixed(r, s) && Rest(r, g, s, k, u, e, now)
    requires k < |s.main| && bs == Blocks(Nodes(s.main[k..])) && bs != [] && p == PlaceAlt(r, u, bs[0]) && p.state == u && p.outcome == Refused
    ensures e == Step(u, Switched)
  {
    OldRest(s.main, k, bs);
    HealthyChained(r, g, s.main, now);
    UnplacedIs(r, u, bs[0], now, 1);
    ReaddFirst(r, u, bs, Unplaced(p), e, now, 1);
    RestStrays(r, s, k, u, bs[1..]);
    StraysDeep(r, u, bs[1..], e, now, 1);
  }

  lemma {:induction false} RestStep(r: Rules, g: Record, s: State, k: nat, u: State, bs: seq<Block>, e: Step, now: nat) returns (st: Step)
    requires Lawful(r) && IsGenesis(g) && Healthy(r, g, s, now) && Unmixed(r, s) && Rest(r, g, s, k, u, e, now)
    requires k < |s.main| && bs == Blocks(Nodes(s.main[k..]))
    ensures if !TimelyAt(r, s.main, k) then e == Step(u, Switched)
            else if k + 1 == |s.main| && !NextDefined(r, s.main) then Wrecked(r, s, k + 1, e)
            else Rest(r, g, s, k + 1, st.state, e, now)
  {
    OldRest(s.main, k, bs);
    var p := PlaceAlt(r, u, bs[0]);
    st := DeepAlt(r, u, bs[0], now, 1);
    NextLands(r, g, s, k, u, p, now);
    if TimelyAt(r, s.main, k) {
      ReaddFirst(r, u, bs, st, e, now, 1);
      OneReturns(r, g, s, k, u, p, st, now);
    } else {
      RestStops(r, g, s, k, u, bs, p, e, now);
    }
  }

  /** So it stands in some state; `n` and `throws` tell how it ends. */
  ghost predicate Resting(r: Rules, g: Record, s: State, k: nat, n: nat, throws: bool, e: Step, now: nat) {
    exists u ::
      && Lawful(r) && IsGenesis(g) && Healthy(r, g, s, now) && Unmixed(r, s) && Rest(r, g, s, k, u, e, now)
      && n == Reach(r, s.main, k) && throws == (k < n == |s.main| && !NextDefined(r, s.main))
  }

  /** It is over, or one block more is back. */
  lemma {:induction false} RestNext(r: Rules, g: Record, s: State, k: nat, n: nat, throws: bool, u: State, e: Step, now: nat)
    requires Lawful(r) && IsGenesis(g) && Healthy(r, g, s, now) && Unmixed(r, s) && k < |s.main|
    requires Rest(r, g, s, k, u, e, now) && n == Reach(r, s.main, k) && throws == (k < n == |s.main| && !NextDefined(r, s.main))
    ensures RestEnd(r, g, s, n, throws, e, now) || Resting(r, g, s, k + 1, n, throws, e, now)
  {
    var st := RestStep(r, g, s, k, u, Blocks(Nodes(s.main[k..])), e, now);
    if TimelyAt(r, s.main, k) && (k + 1 < |s.main| || NextDefined(r, s.main)) {
      assert Rest(r, g, s, k + 1, st.state, e, now);
    }
  }

  lemma {:induction false} RestLast(r: Rules, g: Record, s: State, u: State, e: Step, now: nat)
    requires Rest(r, g, s, |s.main|, u, e, now)
    ensures RestEnd(r, g, s, |s.main|, false, e, now)
  {
    assert Blocks(Nodes(s.main[|s.main|..])) == [];
  }

  lemma {:induction false} RestGoesOn(r: Rules, g: Record, s: State, k: nat, n: nat, throws: bool, e: Step, now: nat)
    requires Resting(r, g, s, k, n, throws, e, now) && k <= |s.main|
    ensures RestEnd(r, g, s, n, throws, e, now) || (k < |s.main| && Resting(r, g, s, k + 1, n, throws, e, now))
  {
    var u :| Rest(r, g, s, k, u, e, now);
    if k == |s.main| { RestLast(r, g, s, u, e, now); } else { RestNext(r, g, s, k, n, throws, u, e, now); }
  }

  lemma {:induction false} RestReturns(r: Rules, g: Record, s: State, k: nat, n: nat, throws: bool, e: Step, now: nat)
    requires Resting(r, g, s, k, n, throws, e, now) && k <= |s.main|
    ensures RestEnd(r, g, s, n, throws, e, now)
    decreases |s.main| - k
  {
    RestGoesOn(r, g, s, k, n, throws, e, now);
    if !RestEnd(r, g, s, n, throws, e, now) { RestReturns(r, g, s, k + 1, n, throws, e, now); }
  }
}
