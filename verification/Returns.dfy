/**
 What becomes of the blocks that a switch disconnects, told before it: they are weighed one by one
 with the length of the new main chain, until one is refused, or the rule throws, or one comes out
 heavier than the new tip and leads back.
 */
module Returns {
  import opened Ledger
  import opened Chain
  import opened Reorg
  import opened Transit
  import opened MainSteps
  import opened Branches
  import opened Switching
  import opened Nesting
  import opened Once
  import opened Bootstrap
  import opened Rebounds

  // ---------- told beforehand ----------

  /** How putting the disconnected blocks back ends. */
  datatype Return = Settles | Snags | Bounces(at: nat)

  /**
   The old blocks from height `f` on, put back beside a main chain of `length` blocks and `work`;
   `c` is the old chain as far as it is stored again, with the work it is given there.
   */
  ghost function Returning(r: Rules, was: seq<Record>, f: nat, c: seq<Node>, length: nat, work: nat): (ret: Return)
    requires 1 <= f <= |c| <= |was|
    ensures ret.Bounces? ==> |c| <= ret.at < |was|
    decreases |was| - |c|
  {
    if |c| == |was| then Settles
    else
      var b, d := was[|c|].node.block, r.ahead(c, length);
      if !TimelyOn(r, c, f, b) then Settles
      else if d.None? then Snags
      else if d.value == 0 || !r.pow(b, d.value) then Settles
      else
        var x := Node(b, Last(c).work + d.value);
        if work < x.work then Bounces(|c|) else Returning(r, was, f, c + [x], length, work)
  }

  /** On the way back a block of the branch, still stored, makes the rule throw: it is asked with `length`. */
  ghost predicate Jammed(r: Rules, was: seq<Record>, f: nat, alts: seq<Node>, length: nat)
    requires 1 <= f <= |was|
  {
    exists i :: 0 <= i < |alts| && JamsAt(r, Nodes(was)[..f] + alts[..i], f, alts[i].block, length)
  }

  ghost predicate JamsAt(r: Rules, c: seq<Node>, f: nat, b: Block, length: nat)
    requires 1 <= f <= |c|
  {
    TimelyOn(r, c, f, b) && r.ahead(c, length).None?
  }

  // ---------- the branch is on ----------

  /** What holds before a switch to a stored branch that leaves the main chain at height `f`. */
  ghost predicate Ground(r: Rules, g: Record, s: State, f: nat, alts: seq<Node>, now: nat) {
    && Lawful(r) && IsGenesis(g) && Healthy(r, g, s, now) && Keyed(r, s.alt) && Unmixed(r, s)
    && 1 <= f < |s.main| && alts != [] && alts[0].block.prev == r.hash(s.main[f - 1].node.block)
    && AllStored(r, s.alt, alts) && Linked(r, alts) && Droppable(r, s.alt, Blocks(alts))
  }

  /** The branch is on, and the old blocks below `n` are stored as `c` has them, beside what was stored before. */
  ghost predicate Gone(r: Rules, g: Record, s: State, f: nat, alts: seq<Node>, n: nat, c: seq<Node>, u: State, now: nat) {
    && Healthy(r, g, u, now) && NothingLost(s, u) && Keyed(r, u.alt) && Away(r, s.main, f, alts, u)
    && f <= n <= |s.main| && u.main[..f] == s.main[..f] && u.invalid == s.invalid
    && |c| == n && c[..f] == Nodes(s.main)[..f]
    && (forall h :: h in s.alt ==> h in u.alt && u.alt[h] == s.alt[h])
    && (forall h {:trigger OldHash(r, s, f, n, h)} :: h in u.alt ==> h in s.alt || OldHash(r, s, f, n, h))
    && (forall i {:trigger KeptAt(r, s, c, u, i)} :: f <= i < n ==> KeptAt(r, s, c, u, i))
  }

  ghost predicate OldHash(r: Rules, s: State, f: nat, n: nat, h: Hash) {
    exists i :: f <= i < n <= |s.main| && h == r.hash(s.main[i].node.block)
  }

  ghost predicate KeptAt(r: Rules, s: State, c: seq<Node>, u: State, i: nat) {
    && i < |c| && i < |s.main| && c[i].block == s.main[i].node.block
    && r.hash(c[i].block) in u.alt && u.alt[r.hash(c[i].block)] == c[i]
  }

  lemma {:induction false} NotStored(r: Rules, g: Record, s: State, f: nat, alts: seq<Node>, n: nat, c: seq<Node>, u: State, i: nat, now: nat)
    requires Lawful(r) && Chained(r, s.main) && Unmixed(r, s) && Gone(r, g, s, f, alts, n, c, u, now) && i < |s.main|
    requires i < f || n <= i
    ensures r.hash(s.main[i].node.block) !in u.alt
  {
    var h := r.hash(s.main[i].node.block);
    if OldHash(r, s, f, n, h) {
      var m :| f <= m < n <= |s.main| && h == r.hash(s.main[m].node.block);
      if i < m { OthersHash(r, s.main, i, m); } else { OthersHash(r, s.main, m, i); }
    }
  }

  lemma {:induction false} ForkFound(r: Rules, g: Record, s: State, f: nat, u: State, now: nat)
    requires Lawful(r) && IsGenesis(g) && Healthy(r, g, u, now) && 1 <= f <= |s.main| && f <= |u.main| && u.main[..f] == s.main[..f]
    ensures u.main[f - 1] == s.main[f - 1] && Find(r, u.main, r.hash(s.main[f - 1].node.block)) == f - 1
  {
    assert u.main[..f][f - 1] == s.main[..f][f - 1];
    HealthyChained(r, g, u.main, now);
    FoundOn(r, u.main, f - 1);
  }

  lemma {:induction false} FoundOn(r: Rules, c: seq<Record>, k: nat)
    requires Lawful(r) && Chained(r, c) && k < |c|
    ensures Find(r, c, r.hash(c[k].node.block)) == k
  {
    var j := Find(r, c, r.hash(c[k].node.block));
    if j < k { OthersHash(r, c, j, k); }
  }

  /** The stored old blocks are the branch that ends in the last of them. */
  lemma {:induction false} OldBuilds(r: Rules, s: State, f: nat, n: nat, c: seq<Node>, u: State)
    requires Lawful(r) && Chained(r, s.main) && 1 <= f <= n < |s.main| && |c| == n
    requires forall i {:trigger KeptAt(r, s, c, u, i)} :: f <= i < n ==> KeptAt(r, s, c, u, i)
    requires r.hash(s.main[f - 1].node.block) !in u.alt
    ensures BuildAlt(u.alt, s.main[n].node.block.prev) == c[f..]
  {
    var a := c[f..];
    assert ChainedAt(r, s.main, n);
    forall i | 0 <= i < |a| ensures a[i].block == s.main[f + i].node.block && r.hash(a[i].block) in u.alt && u.alt[r.hash(a[i].block)] == a[i] {
      assert KeptAt(r, s, c, u, f + i);
    }
    forall i | 0 < i < |a| ensures a[i].block.prev == r.hash(a[i - 1].block) { assert ChainedAt(r, s.main, f + i); }
    var bs := Blocks(a);
    forall i, j | 0 <= i < j < |bs| ensures r.hash(bs[i]) != r.hash(bs[j]) { OthersHash(r, s.main, f + i, f + j); }
    if a != [] { assert ChainedAt(r, s.main, f); }
    BuildIs(r, u.alt, a, s.main[n].node.block.prev);
  }

  /** So the next old block hangs on them. */
  lemma {:induction false} OldHangs(r: Rules, g: Record, s: State, f: nat, alts: seq<Node>, n: nat, c: seq<Node>, u: State, now: nat)
    requires Ground(r, g, s, f, alts, now) && Gone(r, g, s, f, alts, n, c, u, now) && n < |s.main|
    ensures Hangs(r, u, c, f, s.main[n].node.block) && r.hash(s.main[n].node.block) !in u.alt
  {
    HealthyChained(r, g, s.main, now);
    NotStored(r, g, s, f, alts, n, c, u, n, now);
    NotStored(r, g, s, f, alts, n, c, u, f - 1, now);
    ForkFound(r, g, s, f, u, now);
    HangsThere(r, s, f, n, c, u);
  }

  lemma {:induction false} HangsThere(r: Rules, s: State, f: nat, n: nat, c: seq<Node>, u: State)
    requires Lawful(r) && Chained(r, s.main) && 1 <= f <= n < |s.main| && |c| == n && f < |u.main| && u.main[..f] == s.main[..f]
    requires forall i {:trigger KeptAt(r, s, c, u, i)} :: f <= i < n ==> KeptAt(r, s, c, u, i)
    requires c[..f] == Nodes(s.main)[..f] && r.hash(s.main[f - 1].node.block) !in u.alt
    requires u.main[f - 1] == s.main[f - 1] && Find(r, u.main, r.hash(s.main[f - 1].node.block)) == f - 1
    ensures Hangs(r, u, c, f, s.main[n].node.block)
  {
    OldBuilds(r, s, f, n, c, u);
    OldLinks(r, s, f, n, c, u);
    assert Nodes(u.main)[..f] == Nodes(u.main[..f]) == Nodes(s.main[..f]) == Nodes(s.main)[..f];
  }

  lemma {:induction false} OldLinks(r: Rules, s: State, f: nat, n: nat, c: seq<Node>, u: State)
    requires Chained(r, s.main) && 1 <= f <= n < |s.main| && |c| == n
    requires forall i {:trigger KeptAt(r, s, c, u, i)} :: f <= i < n ==> KeptAt(r, s, c, u, i)
    ensures s.main[n].node.block.height == n && s.main[n].node.block.prev == r.hash(s.main[n - 1].node.block)
    ensures f < n ==> c[f].block.prev == r.hash(s.main[f - 1].node.block) && c[f].block.height == f && Last(c).block.height == n - 1
  {
    assert ChainedAt(r, s.main, n);
    if f < n {
      assert KeptAt(r, s, c, u, f) && KeptAt(r, s, c, u, n - 1);
      assert ChainedAt(r, s.main, f);
      HeightIs(r, s.main, n - 1);
    }
  }

  // ---------- a block that leads back ----------

  /** The branch block at `i`, put back beside the old main chain. */
  lemma {:induction false} AltHangs(r: Rules, g: Record, s: State, f: nat, alts: seq<Node>, u: State, v: State, i: nat, now: nat)
    requires Ground(r, g, s, f, alts, now) && Away(r, s.main, f, alts, u) && Chained(r, u.main) && i < |alts|
    requires f < |v.main| <= |s.main| && v.main == s.main[..|v.main|] && r.hash(s.main[f - 1].node.block) !in v.alt
    requires forall h :: h in s.alt ==> h in v.alt && v.alt[h] == s.alt[h]
    ensures Hangs(r, v, Nodes(s.main)[..f] + alts[..i], f, alts[i].block) && r.hash(alts[i].block) in v.alt
  {
    var c, a := Nodes(s.main)[..f] + alts[..i], alts[..i];
    assert c[f..] == a && c[..f] == Nodes(s.main)[..f] == Nodes(v.main)[..f];
    HealthyChained(r, g, s.main, now);
    assert v.main[f - 1] == s.main[f - 1];
    FoundAt(r, s.main, s.main[..f], f);
    FindUpTo(r, s.main, v.main, f);
    AltBuilds(r, s, f, alts, v, i);
    AltHeights(r, s.main, f, alts, u, i);
    if 0 < i { AltHeights(r, s.main, f, alts, u, 0); AltHeights(r, s.main, f, alts, u, i - 1); assert c[f] == alts[0] && Last(c) == alts[i - 1]; }
  }

  lemma {:induction false} FindUpTo(r: Rules, c: seq<Record>, d: seq<Record>, f: nat)
    requires 1 <= f <= |d| <= |c| && d == c[..|d|] && Find(r, c[..f], r.hash(c[f - 1].node.block)) == f - 1
    ensures Find(r, d, r.hash(c[f - 1].node.block)) == f - 1
  {
    assert d[f - 1] == c[f - 1];
    var j := Find(r, d, r.hash(c[f - 1].node.block));
    assert forall k :: 0 <= k < f ==> c[..f][k] == d[k];
  }

  lemma {:induction false} AltHeights(r: Rules, was: seq<Record>, f: nat, alts: seq<Node>, u: State, i: nat)
    requires Away(r, was, f, alts, u) && Chained(r, u.main) && i < |alts|
    ensures alts[i].block.height == f + i
  {
    HeightIs(r, u.main, f + i);
  }

  lemma {:induction false} AltBuilds(r: Rules, s: State, f: nat, alts: seq<Node>, v: State, i: nat)
    requires 1 <= f <= |s.main| && alts != [] && alts[0].block.prev == r.hash(s.main[f - 1].node.block) && i < |alts|
    requires AllStored(r, s.alt, alts) && Linked(r, alts) && Droppable(r, s.alt, Blocks(alts)) && r.hash(s.main[f - 1].node.block) !in v.alt
    requires forall h :: h in s.alt ==> h in v.alt && v.alt[h] == s.alt[h]
    ensures BuildAlt(v.alt, alts[i].block.prev) == alts[..i]
  {
    var a := alts[..i];
    var bs := Blocks(a);
    forall j, k | 0 <= j < k < |bs| ensures r.hash(bs[j]) != r.hash(bs[k]) { assert r.hash(Blocks(alts)[j]) != r.hash(Blocks(alts)[k]); }
    BuildIs(r, v.alt, a, alts[i].block.prev);
  }

  /** Putting the branch back throws exactly when it is jammed. */
  lemma {:induction false} JamIff(r: Rules, g: Record, s: State, f: nat, alts: seq<Node>, u: State, v: State, bs: seq<Block>, now: nat)
    requires Ground(r, g, s, f, alts, now) && Away(r, s.main, f, alts, u) && Chained(r, u.main) && bs == Blocks(Nodes(u.main[f..]))
    requires f < |v.main| <= |s.main| && v.main == s.main[..|v.main|] && r.hash(s.main[f - 1].node.block) !in v.alt
    requires forall h :: h in s.alt ==> h in v.alt && v.alt[h] == s.alt[h]
    ensures Jams(r, v, bs) <==> Jammed(r, s.main, f, alts, |v.main|)
  {
    forall i | 0 <= i < |alts|
      ensures bs[i] == alts[i].block
      ensures PlaceAlt(r, v, alts[i].block).outcome == Raised <==> JamsAt(r, Nodes(s.main)[..f] + alts[..i], f, alts[i].block, |v.main|)
    {
      assert u.main[f + i].node.block == alts[i].block;
      AltHangs(r, g, s, f, alts, u, v, i, now);
      HangsAgain(r, v, Nodes(s.main)[..f] + alts[..i], f, alts[i].block, PlaceAlt(r, v, alts[i].block));
    }
  }

  lemma {:induction false} OldHashIs(r: Rules, s: State, f: nat, n: nat)
    requires f <= n < |s.main|
    ensures OldHash(r, s, f, n + 1, r.hash(s.main[n].node.block))
  {
  }

  lemma {:induction false} OldHashMore(r: Rules, s: State, f: nat, n: nat, h: Hash)
    requires n < |s.main|
    ensures OldHash(r, s, f, n, h) ==> OldHash(r, s, f, n + 1, h)
  {
  }

  lemma {:induction false} KeptFurther(r: Rules, s: State, f: nat, n: nat, c: seq<Node>, u: State, x: Node, v: State)
    requires Lawful(r) && Chained(r, s.main) && 1 <= f <= n < |s.main| && |c| == n && x.block == s.main[n].node.block
    requires v == u.(alt := u.alt[r.hash(x.block) := x])
    requires forall i {:trigger KeptAt(r, s, c, u, i)} :: f <= i < n ==> KeptAt(r, s, c, u, i)
    ensures forall i {:trigger KeptAt(r, s, c + [x], v, i)} :: f <= i < n + 1 ==> KeptAt(r, s, c + [x], v, i)
  {
    forall i | f <= i < n + 1 ensures KeptAt(r, s, c + [x], v, i) {
      if i < n { assert KeptAt(r, s, c, u, i); OthersHash(r, s.main, i, n); }
    }
  }

  /** One old block more is stored. */
  lemma {:induction false} GoneFurther(r: Rules, g: Record, s: State, f: nat, alts: seq<Node>, n: nat, c: seq<Node>, u: State, x: Node, v: State, now: nat)
    requires Ground(r, g, s, f, alts, now) && Gone(r, g, s, f, alts, n, c, u, now) && n < |s.main|
    requires x.block == s.main[n].node.block && v == u.(alt := u.alt[r.hash(x.block) := x])
    ensures Gone(r, g, s, f, alts, n + 1, c + [x], v, now)
  {
    HealthyChained(r, g, s.main, now);
    SamePoolSafe(s, u, v);
    assert Away(r, s.main, f, alts, v);
    assert (c + [x])[..f] == c[..f];
    KeptFurther(r, s, f, n, c, u, x, v);
    NotStored(r, g, s, f, alts, n, c, u, n, now);
    forall h | h in v.alt ensures h in s.alt || OldHash(r, s, f, n + 1, h) {
      if h == r.hash(x.block) { OldHashIs(r, s, f, n); } else { OldHashMore(r, s, f, n, h); assert OldHash(r, s, f, n, h) || h in s.alt; }
    }
  }

  /** Dropping the old blocks leaves what was stored before. */
  lemma {:induction false} DroppedAgain(r: Rules, g: Record, s: State, f: nat, alts: seq<Node>, n: nat, c: seq<Node>, v: State, branch: seq<Node>, now: nat)
    requires Unmixed(r, s) && Gone(r, g, s, f, alts, n + 1, c, v, now) && OldBranch(s, branch, f, n)
    ensures v.alt - Hashes(r, Blocks(branch)) == s.alt
  {
    var bs := Blocks(branch);
    forall h | h in Hashes(r, bs) ensures h !in s.alt {
      var i :| 0 <= i < |bs| && h == r.hash(bs[i]);
      assert bs[i] == s.main[f + i].node.block;
    }
    forall h | h in v.alt && h !in s.alt ensures h in Hashes(r, bs) {
      assert OldHash(r, s, f, n + 1, h);
      var i :| f <= i < n + 1 && h == r.hash(s.main[i].node.block);
      assert h == r.hash(bs[i - f]);
    }
  }

  lemma {:induction false} StoredUpTo(r: Rules, g: Record, s: State, f: nat, alts: seq<Node>, n: nat, c: seq<Node>, v: State, now: nat)
    requires Gone(r, g, s, f, alts, n + 1, c, v, now)
    ensures forall i :: f <= i <= n ==> r.hash(s.main[i].node.block) in v.alt
    ensures forall k :: f <= k < |v.main| ==> r.hash(v.main[k].node.block) in v.alt
  {
    forall i | f <= i <= n ensures r.hash(s.main[i].node.block) in v.alt { assert KeptAt(r, s, c, v, i); }
    forall k | f <= k < |v.main| ensures r.hash(v.main[k].node.block) in v.alt { TopIsStored(r, s.main, f, alts, v, k); }
  }

  lemma {:induction false} BranchIsOld(r: Rules, s: State, f: nat, n: nat, c: seq<Node>, v: State, branch: seq<Node>)
    requires 1 <= f <= n < |s.main| && |c| == n + 1 && branch == c[f..]
    requires forall i {:trigger KeptAt(r, s, c, v, i)} :: f <= i < n + 1 ==> KeptAt(r, s, c, v, i)
    ensures OldBranch(s, branch, f, n) && branch != [] && branch[0].block == s.main[f].node.block
  {
    forall i | 0 <= i < |branch| ensures branch[i].block == s.main[f + i].node.block { assert KeptAt(r, s, c, v, f + i); }
  }

  /** The nested switch leads back to the old main chain up to the block that called for it. */
  lemma {:induction false} OldLeadsBack(r: Rules, g: Record, s: State, f: nat, alts: seq<Node>, n: nat, c: seq<Node>, v: State, branch: seq<Node>, now: nat)
    requires Ground(r, g, s, f, alts, now) && Gone(r, g, s, f, alts, n + 1, c, v, now) && f <= n && branch == c[f..]
    ensures LeadsBack(r, g, s, v, branch, f, n, now)
  {
    HealthyChained(r, g, s.main, now);
    BranchIsOld(r, s, f, n, c, v, branch);
    StoredUpTo(r, g, s, f, alts, n, c, v, now);
    OldDroppable(r, s, v, branch, f, n);
    DroppedAgain(r, g, s, f, alts, n, c, v, branch, now);
    ForkFound(r, g, s, f, v, now);
    assert ChainedAt(r, s.main, f);
  }

  // ---------- how it ends ----------

  /** The nested switch that the old block at `n` calls for, and what follows. */
  ghost predicate BounceEnd(r: Rules, g: Record, s: State, f: nat, alts: seq<Node>, n: nat, e: Step, now: nat) {
    1 <= f <= n < |s.main| &&
    var k := Reach(r, s.main, n + 1);
    if Jammed(r, s.main, f, alts, n + 1) then Wrecked(r, s, n + 1, e)
    else RestEnd(r, g, s, k, k == |s.main| && !NextDefined(r, s.main), e, now)
  }

  lemma {:induction false} NestedJam(r: Rules, g: Record, s: State, f: nat, alts: seq<Node>, n: nat, c: seq<Node>, v: State, now: nat)
    requires Ground(r, g, s, f, alts, now) && Gone(r, g, s, f, alts, n + 1, c, v, now) && f <= n
    ensures Jams(r, Halfway(s, v, n), Blocks(Nodes(v.main[f..]))) <==> Jammed(r, s.main, f, alts, n + 1)
  {
    HealthyChained(r, g, s.main, now);
    HealthyChained(r, g, v.main, now);
    NotStored(r, g, s, f, alts, n + 1, c, v, f - 1, now);
    var w := Halfway(s, v, n);
    assert |w.main| == n + 1;
    JamIff(r, g, s, f, alts, v, w, Blocks(Nodes(v.main[f..])), now);
  }

  lemma {:induction false} NestedTold(r: Rules, g: Record, s: State, f: nat, alts: seq<Node>, n: nat, c: seq<Node>, v: State, branch: seq<Node>, st: Step, now: nat)
    requires Ground(r, g, s, f, alts, now) && Gone(r, g, s, f, alts, n + 1, c, v, now) && f <= n && branch == c[f..]
    requires st == DeepSwitch(r, v, branch, now, 0)
    ensures NestedEnd(r, g, s, n, Jammed(r, s.main, f, alts, n + 1), st, now)
  {
    OldLeadsBack(r, g, s, f, alts, n, c, v, branch, now);
    NestedJam(r, g, s, f, alts, n, c, v, now);
    NestedReturns(r, g, s, v, branch, f, n, Jammed(r, s.main, f, alts, n + 1), st, now);
  }

  /** What follows the nested switch. */
  lemma {:induction false} ThenRest(r: Rules, g: Record, s: State, n: nat, k: nat, throws: bool, bs: seq<Block>, st: Step, e: Step, now: nat)
    requires Lawful(r) && IsGenesis(g) && Healthy(r, g, s, now) && Unmixed(r, s) && n < |s.main| && st.state.main != []
    requires NestedEnd(r, g, s, n, false, st, now) && bs == Blocks(Nodes(s.main[n + 1..]))
    requires k == Reach(r, s.main, n + 1) && throws == (k == |s.main| && !NextDefined(r, s.main))
    requires e == if st.verdict == Threw || st.verdict == Nested then st else DeepReadd(r, st.state, bs, now, 1)
    ensures RestEnd(r, g, s, k, throws, e, now)
  {
    if n + 1 < |s.main| || NextDefined(r, s.main) {
      assert Rest(r, g, s, n + 1, st.state, e, now);
      RestReturns(r, g, s, n + 1, k, throws, e, now);
    }
  }

  /** The old blocks below `n` are stored, none of them heavier than the tip. */
  ghost predicate Lodged(r: Rules, g: Record, s: State, f: nat, alts: seq<Node>, n: nat, c: seq<Node>, u: State, work: nat, now: nat) {
    Gone(r, g, s, f, alts, n, c, u, now) && forall i :: f <= i < |c| ==> c[i].work <= work
  }

  /** What putting back ends in, as told; `u` is the state before. */
  ghost predicate Told(r: Rules, g: Record, s: State, f: nat, alts: seq<Node>, u: State, ret: Return, e: Step, now: nat)
    requires u.main != []
  {
    match ret
    case Settles => e.verdict == Switched && Stays(r, g, s, f, alts, u, e.state, now)
    case Snags => e.verdict == Threw && Stays(r, g, s, f, alts, u, e.state, now)
    case Bounces(n) => BounceEnd(r, g, s, f, alts, n, e, now)
  }

  ghost predicate Stays(r: Rules, g: Record, s: State, f: nat, alts: seq<Node>, u: State, v: State, now: nat)
    requires u.main != []
  {
    v.main == u.main && exists n, c :: Lodged(r, g, s, f, alts, n, c, v, Last(u.main).node.work, now)
  }

  /** Putting back stands at the block at `n`; `e` is how it ends and `ret` what is told of it. */
  ghost predicate Under(r: Rules, g: Record, s: State, f: nat, alts: seq<Node>, n: nat, c: seq<Node>, u: State, ret: Return, e: Step, now: nat) {
    && 1 <= f && u.main != [] && Lodged(r, g, s, f, alts, n, c, u, Last(u.main).node.work, now)
    && e == DeepReadd(r, u, Blocks(Nodes(s.main[n..])), now, 1)
    && ret == Returning(r, s.main, f, c, |u.main|, Last(u.main).node.work)
  }

  lemma {:induction false} UnderStays(r: Rules, g: Record, s: State, f: nat, alts: seq<Node>, n: nat, c: seq<Node>, u: State, now: nat)
    requires u.main != [] && Lodged(r, g, s, f, alts, n, c, u, Last(u.main).node.work, now)
    ensures Stays(r, g, s, f, alts, u, u, now)
  {
  }

  /** A block that is refused: all later ones are strays. */
  lemma {:induction false} UnderStops(r: Rules, g: Record, s: State, f: nat, alts: seq<Node>, n: nat, c: seq<Node>, u: State, bs: seq<Block>, p: Placed, e: Step, now: nat)
    requires Ground(r, g, s, f, alts, now) && Gone(r, g, s, f, alts, n, c, u, now) && u.main != [] && n < |s.main|
    requires bs == Blocks(Nodes(s.main[n..])) && bs != [] && p == PlaceAlt(r, u, bs[0]) && p.state == u && p.outcome == Refused
    requires e == DeepReadd(r, u, bs, now, 1)
    ensures e == Step(u, Switched)
  {
    OldRest(s.main, n, bs);
    UnplacedIs(r, u, bs[0], now, 1);
    ReaddFirst(r, u, bs, Unplaced(p), e, now, 1);
    OldStrays(r, g, s, f, alts, n, c, u, bs[1..], now);
    StraysDeep(r, u, bs[1..], e, now, 1);
  }

  lemma {:induction false} OldStrays(r: Rules, g: Record, s: State, f: nat, alts: seq<Node>, n: nat, c: seq<Node>, u: State, bs: seq<Block>, now: nat)
    requires Ground(r, g, s, f, alts, now) && Gone(r, g, s, f, alts, n, c, u, now) && n < |s.main| && bs == Blocks(Nodes(s.main[n + 1..]))
    ensures forall i :: 0 <= i < |bs| ==> Stray(r, u, bs[i])
  {
    HealthyChained(r, g, s.main, now);
    HealthyChained(r, g, u.main, now);
    forall i | 0 <= i < |bs| ensures Stray(r, u, bs[i]) {
      assert bs[i] == s.main[n + 1 + i].node.block;
      OldStray(r, g, s, f, alts, n, c, u, n + 1 + i, now);
    }
  }

  lemma {:induction false} OldStray(r: Rules, g: Record, s: State, f: nat, alts: seq<Node>, n: nat, c: seq<Node>, u: State, k: nat, now: nat)
    requires Lawful(r) && Chained(r, s.main) && Chained(r, u.main) && Unmixed(r, s) && Gone(r, g, s, f, alts, n, c, u, now) && n < k < |s.main|
    ensures Stray(r, u, s.main[k].node.block)
  {
    assert ChainedAt(r, s.main, k);
    NotStored(r, g, s, f, alts, n, c, u, k - 1, now);
    NotOnAway(r, u, s.main, f, alts, k - 1);
  }

  lemma {:induction false} UnderSnags(r: Rules, u: State, bs: seq<Block>, p: Placed, e: Step, now: nat)
    requires u.main != [] && bs != [] && p == PlaceAlt(r, u, bs[0]) && p.state == u && p.outcome == Raised && e == DeepReadd(r, u, bs, now, 1)
    ensures e == Step(u, Threw)
  {
    UnplacedIs(r, u, bs[0], now, 1);
    ReaddFirst(r, u, bs, Unplaced(p), e, now, 1);
  }

  lemma {:induction false} UnderBounces(r: Rules, g: Record, s: State, f: nat, alts: seq<Node>, n: nat, c: seq<Node>, u: State, x: Node, bs: seq<Block>, p: Placed, e: Step, now: nat)
    requires Ground(r, g, s, f, alts, now) && Gone(r, g, s, f, alts, n, c, u, now) && u.main != [] && n < |s.main|
    requires bs == Blocks(Nodes(s.main[n..])) && bs != [] && p == PlaceAlt(r, u, bs[0]) && p.outcome == Heavier
    requires x.block == s.main[n].node.block && p.state == u.(alt := u.alt[r.hash(x.block) := x]) && p.branch == c[f..] + [x]
    requires e == DeepReadd(r, u, bs, now, 1)
    ensures BounceEnd(r, g, s, f, alts, n, e, now)
  {
    var st := DeepAlt(r, u, bs[0], now, 1);
    OldRest(s.main, n, bs);
    FollowIs(r, p, DeepSwitch(r, p.state, p.branch, now, 0), now, 0);
    ReaddFirst(r, u, bs, st, e, now, 1);
    BounceNested(r, g, s, f, alts, n, c, u, x, p.state, p.branch, st, now);
    var k := Reach(r, s.main, n + 1);
    if !Jammed(r, s.main, f, alts, n + 1) { ThenRest(r, g, s, n, k, k == |s.main| && !NextDefined(r, s.main), bs[1..], st, e, now); }
  }

  lemma {:induction false} TailPush(c: seq<Node>, x: Node, f: nat)
    requires f <= |c|
    ensures (c + [x])[f..] == c[f..] + [x]
  {
  }

  lemma {:induction false} BounceNested(r: Rules, g: Record, s: State, f: nat, alts: seq<Node>, n: nat, c: seq<Node>, u: State, x: Node, v: State, branch: seq<Node>, st: Step, now: nat)
    requires Ground(r, g, s, f, alts, now) && Gone(r, g, s, f, alts, n, c, u, now) && n < |s.main|
    requires x.block == s.main[n].node.block && v == u.(alt := u.alt[r.hash(x.block) := x]) && branch == c[f..] + [x] && v.main != []
    requires st == DeepSwitch(r, v, branch, now, 0)
    ensures NestedEnd(r, g, s, n, Jammed(r, s.main, f, alts, n + 1), st, now)
  {
    GoneFurther(r, g, s, f, alts, n, c, u, x, v, now);
    TailPush(c, x, f);
    NestedTold(r, g, s, f, alts, n, c + [x], v, branch, st, now);
  }

  lemma {:induction false} UnderGoesOn(r: Rules, g: Record, s: State, f: nat, alts: seq<Node>, n: nat, c: seq<Node>, u: State, x: Node, bs: seq<Block>, p: Placed, e: Step, now: nat)
    requires Ground(r, g, s, f, alts, now) && u.main != [] && n < |s.main| && Lodged(r, g, s, f, alts, n, c, u, Last(u.main).node.work, now)
    requires bs == Blocks(Nodes(s.main[n..])) && bs != [] && p == PlaceAlt(r, u, bs[0]) && p.outcome == Lighter
    requires x.block == s.main[n].node.block && p.state == u.(alt := u.alt[r.hash(x.block) := x]) && x.work <= Last(u.main).node.work
    requires e == DeepReadd(r, u, bs, now, 1)
    ensures Lodged(r, g, s, f, alts, n + 1, c + [x], p.state, Last(u.main).node.work, now)
    ensures e == DeepReadd(r, p.state, Blocks(Nodes(s.main[n + 1..])), now, 1)
  {
    OldRest(s.main, n, bs);
    UnplacedIs(r, u, bs[0], now, 1);
    ReaddFirst(r, u, bs, Unplaced(p), e, now, 1);
    LodgedFurther(r, g, s, f, alts, n, c, u, x, p.state, Last(u.main).node.work, now);
  }

  lemma {:induction false} LodgedFurther(r: Rules, g: Record, s: State, f: nat, alts: seq<Node>, n: nat, c: seq<Node>, u: State, x: Node, v: State, work: nat, now: nat)
    requires Ground(r, g, s, f, alts, now) && n < |s.main| && Lodged(r, g, s, f, alts, n, c, u, work, now)
    requires x.block == s.main[n].node.block && v == u.(alt := u.alt[r.hash(x.block) := x]) && x.work <= work
    ensures Lodged(r, g, s, f, alts, n + 1, c + [x], v, work, now)
  {
    GoneFurther(r, g, s, f, alts, n, c, u, x, v, now);
  }

  /** What is told of the block that is put back next. */
  lemma {:induction false} ReturningNext(r: Rules, was: seq<Record>, f: nat, c: seq<Node>, v: State, p: Placed) returns (x: Node)
    requires 1 <= f <= |c| < |was| && v.main != [] && Lands(r, v, c, f, was[|c|].node.block, p)
    ensures var b, work, ret := was[|c|].node.block, Last(v.main).node.work, Returning(r, was, f, c, |v.main|, Last(v.main).node.work);
            match p.outcome
            case Refused => p.state == v && ret == Settles
            case Raised => p.state == v && ret == Snags
            case Heavier =>
              && x.block == b && p.state == v.(alt := v.alt[r.hash(b) := x]) && p.branch == c[f..] + [x]
              && ret == Bounces(|c|)
            case Lighter =>
              && x.block == b && p.state == v.(alt := v.alt[r.hash(b) := x]) && x.work <= work
              && ret == Returning(r, was, f, c + [x], |v.main|, work)
            case NoParent => false
  {
    var d := r.ahead(c, |v.main|);
    x := Node(was[|c|].node.block, Last(c).work + if d.Some? then d.value else 0);
  }

  /** One block: it is over, as told, or goes on. */
  lemma {:induction false} UnderStep(r: Rules, g: Record, s: State, f: nat, alts: seq<Node>, n: nat, c: seq<Node>, u: State, ret: Return, e: Step, now: nat)
    returns (d: seq<Node>, v: State)
    requires Ground(r, g, s, f, alts, now) && Under(r, g, s, f, alts, n, c, u, ret, e, now) && n < |s.main|
    ensures v.main == u.main && (Told(r, g, s, f, alts, u, ret, e, now) || Under(r, g, s, f, alts, n + 1, d, v, ret, e, now))
  {
    var bs, b := Blocks(Nodes(s.main[n..])), s.main[n].node.block;
    var p := PlaceAlt(r, u, b);
    OldRest(s.main, n, bs);
    OldHangs(r, g, s, f, alts, n, c, u, now);
    assert FitsAt(r, s.main, n, now);
    HangsLands(r, u, c, f, b, p);
    var x := ReturningNext(r, s.main, f, c, u, p);
    d, v := UnderNext(r, g, s, f, alts, n, c, u, x, bs, p, ret, e, now);
  }

  lemma {:induction false} UnderNext(r: Rules, g: Record, s: State, f: nat, alts: seq<Node>, n: nat, c: seq<Node>, u: State, x: Node, bs: seq<Block>, p: Placed, ret: Return, e: Step, now: nat)
    returns (d: seq<Node>, v: State)
    requires Ground(r, g, s, f, alts, now) && u.main != [] && n < |s.main| && Lodged(r, g, s, f, alts, n, c, u, Last(u.main).node.work, now)
    requires bs == Blocks(Nodes(s.main[n..])) && bs != [] && p == PlaceAlt(r, u, bs[0]) && e == DeepReadd(r, u, bs, now, 1)
    requires x.block == s.main[n].node.block || p.outcome == Refused || p.outcome == Raised
    requires match p.outcome
             case Refused => p.state == u && ret == Settles
             case Raised => p.state == u && ret == Snags
             case Heavier => p.state == u.(alt := u.alt[r.hash(x.block) := x]) && p.branch == c[f..] + [x] && ret == Bounces(n)
             case Lighter =>
               && p.state == u.(alt := u.alt[r.hash(x.block) := x]) && x.work <= Last(u.main).node.work
               && ret == Returning(r, s.main, f, c + [x], |u.main|, Last(u.main).node.work)
             case NoParent => false
    ensures v.main == u.main && (Told(r, g, s, f, alts, u, ret, e, now) || Under(r, g, s, f, alts, n + 1, d, v, ret, e, now))
  {
    d, v := c, u;
    match p.outcome
    case Refused => UnderStops(r, g, s, f, alts, n, c, u, bs, p, e, now); UnderStays(r, g, s, f, alts, n, c, u, now);
    case Raised => UnderSnags(r, u, bs, p, e, now); UnderStays(r, g, s, f, alts, n, c, u, now);
    case Heavier => UnderBounces(r, g, s, f, alts, n, c, u, x, bs, p, e, now);
    case Lighter => UnderGoesOn(r, g, s, f, alts, n, c, u, x, bs, p, e, now); d, v := c + [x], p.state;
  }

  lemma {:induction false} UnderEnds(r: Rules, g: Record, s: State, f: nat, alts: seq<Node>, n: nat, c: seq<Node>, u: State, ret: Return, e: Step, now: nat)
    requires Ground(r, g, s, f, alts, now) && Under(r, g, s, f, alts, n, c, u, ret, e, now)
    ensures Told(r, g, s, f, alts, u, ret, e, now)
    decreases |s.main| - n
  {
    if n < |s.main| {
      var d, v := UnderStep(r, g, s, f, alts, n, c, u, ret, e, now);
      if !Told(r, g, s, f, alts, u, ret, e, now) { UnderEnds(r, g, s, f, alts, n + 1, d, v, ret, e, now); ToldSame(r, g, s, f, alts, u, v, ret, e, now); }
    } else {
      UnderStays(r, g, s, f, alts, n, c, u, now);
    }
  }

  lemma {:induction false} ToldSame(r: Rules, g: Record, s: State, f: nat, alts: seq<Node>, u: State, v: State, ret: Return, e: Step, now: nat)
    requires u.main != [] && v.main == u.main && Told(r, g, s, f, alts, v, ret, e, now)
    ensures Told(r, g, s, f, alts, u, ret, e, now)
  {
  }

  lemma {:induction false} BeginsGone(r: Rules, g: Record, s: State, f: nat, alts: seq<Node>, c: Connection, now: nat)
    requires Ground(r, g, s, f, alts, now) && c == Attempt(r, s, f, alts, now) && c.verdict == Added
    ensures Gone(r, g, s, f, alts, f, Nodes(s.main)[..f], c.state, now)
  {
    var t := PopTo(r, s, f, now);
    AttemptKeeps(r, g, s, f, alts, now);
    PopToKeeps(r, g, s, f, now);
    ConnectStacks(r, g, t, Blocks(alts), c, now);
    BeginsAway(r, s, f, alts, c, now);
    GoneAtFirst(r, g, s, f, alts, c.state, now);
  }

  lemma {:induction false} GoneAtFirst(r: Rules, g: Record, s: State, f: nat, alts: seq<Node>, u: State, now: nat)
    requires Healthy(r, g, u, now) && NothingLost(s, u) && Keyed(r, s.alt) && u.alt == s.alt && u.invalid == s.invalid
    requires Away(r, s.main, f, alts, u) && f <= |u.main| && s.main[..f] <= u.main
    ensures Gone(r, g, s, f, alts, f, Nodes(s.main)[..f], u, now)
  {
    assert u.main[..f] == s.main[..f];
  }

  /** Of a branch that is on, putting back the disconnected blocks ends as told. */
  lemma {:induction false} ReturnTold(r: Rules, g: Record, s: State, f: nat, alts: seq<Node>, c: Connection, ret: Return, e: Step, now: nat)
    requires Ground(r, g, s, f, alts, now) && c == Attempt(r, s, f, alts, now) && c.verdict == Added
    requires ret == Returning(r, s.main, f, Nodes(s.main)[..f], |c.state.main|, Last(c.state.main).node.work)
    requires e == DeepReadd(r, c.state, Blocks(Nodes(s.main[f..])), now, 1)
    ensures Told(r, g, s, f, alts, c.state, ret, e, now)
  {
    BeginsGone(r, g, s, f, alts, c, now);
    UnderEnds(r, g, s, f, alts, f, Nodes(s.main)[..f], c.state, ret, e, now);
  }
}
