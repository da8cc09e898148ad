/**
 How two nodes find out where their chains part: the requester sends some of its block ids, ever
 further apart; the responder looks for the first one it knows and answers with what it has from
 there on.
 */
module History {
  import opened Ledger

  const REPLY_IDS: nat := 10000

  // ---------- chains of ids ----------

  /** What an id says about its block: the id of the parent and the height. */
  datatype Links = Links(parent: Hash -> Hash, height: Hash -> nat)

  ghost predicate LinkedAt(l: Links, c: seq<Hash>, i: nat)
    requires i < |c|
  {
    l.height(c[i]) == i && (0 < i ==> l.parent(c[i]) == c[i - 1])
  }

  ghost predicate Linked(l: Links, c: seq<Hash>) {
    forall i {:trigger LinkedAt(l, c, i)} :: 0 <= i < |c| ==> LinkedAt(l, c, i)
  }

  /** An id is on two linked chains at one and the same height, with the same blocks below it. */
  lemma {:induction false} SameBelow(l: Links, a: seq<Hash>, b: seq<Hash>, i: nat, j: nat)
    requires Linked(l, a) && Linked(l, b) && i < |a| && j < |b| && a[i] == b[j]
    ensures i == j && a[..i + 1] == b[..i + 1]
  {
    assert LinkedAt(l, a, i) && LinkedAt(l, b, j);
    if 0 < i {
      SameBelow(l, a, b, i - 1, j - 1);
      assert a[..i + 1] == a[..i] + [a[i]] && b[..i + 1] == b[..i] + [b[i]];
    }
  }

  /** The last height at which the chains have the same block. */
  ghost predicate PartAfter(a: seq<Hash>, b: seq<Hash>, f: nat) {
    f < |a| && f < |b| && a[f] == b[f] && (f + 1 < |a| && f + 1 < |b| ==> a[f + 1] != b[f + 1])
  }

  lemma {:induction false} CommonUpTo(l: Links, a: seq<Hash>, b: seq<Hash>, f: nat, i: nat)
    requires Linked(l, a) && Linked(l, b) && PartAfter(a, b, f) && i < |a|
    ensures a[i] in b <==> i <= f
    ensures i <= f ==> a[i] == b[i]
  {
    if i <= f {
      SameBelow(l, a, b, f, f);
      assert a[..f + 1][i] == b[..f + 1][i];
    } else if a[i] in b {
      var j :| 0 <= j < |b| && b[j] == a[i];
      SameBelow(l, a, b, i, j);
      AgreeAt(a, b, i, f + 1);
    }
  }

  lemma {:induction false} AgreeAt(a: seq<Hash>, b: seq<Hash>, i: nat, k: nat)
    requires k <= i < |a| && i < |b| && a[..i + 1] == b[..i + 1]
    ensures a[k] == b[k]
  {
    assert a[..i + 1][k] == b[..i + 1][k];
  }

  // ---------- the short history ----------

  function Pow2(k: nat): (p: nat)
    ensures 1 <= p
  {
    if k == 0 then 1 else 2 * Pow2(k - 1)
  }

  /** How far back from the end the `k`-th id lies: 1 to 11, then 13, 17, 25, ... */
  function Back(k: nat): nat {
    if k <= 10 then k + 1 else 9 + Pow2(k - 9)
  }

  /** The ids at the first `m` distances. */
  function Picks(a: seq<Hash>, m: nat): seq<Hash>
    requires forall k :: 0 <= k < m ==> Back(k) < |a|
  {
    seq(m, k requires 0 <= k < m => a[|a| - Back(k)])
  }

  /** The ids at the first `m` distances, and the first block. */
  function Chosen(a: seq<Hash>, m: nat): seq<Hash>
    requires a != [] && forall k :: 0 <= k < m ==> Back(k) < |a|
  {
    Picks(a, m) + [a[0]]
  }

  /** `m` is the number of distances that stay inside a chain of length `n`, not counting its first block. */
  ghost predicate Reaches(n: nat, m: nat) {
    n <= Back(m) && forall k :: 0 <= k < m ==> Back(k) < n
  }

  lemma {:induction false} BackGrows(j: nat, k: nat)
    requires j < k
    ensures Back(j) < Back(k)
    decreases k
  {
    assert Pow2(2) == 2 * Pow2(1) == 4;
    if j < k - 1 { BackGrows(j, k - 1); }
    if 11 < k { assert Pow2(k - 9) == 2 * Pow2(k - 10); }
  }

  method ShortHistory(a: seq<Hash>) returns (ids: seq<Hash>, ghost m: nat)
    ensures a == [] ==> ids == []
    ensures a != [] ==> Reaches(|a|, m) && ids == Chosen(a, m)
  {
    ids, m := [], 0;
    if a == [] { return; }
    var i, multiplier, back := 0, 1, 1;
    assert ids == Picks(a, 0);
    var genesis := false;
    while back < |a|
      invariant i == m && back == Back(i) && multiplier == (if i <= 10 then 1 else Pow2(i - 10))
      invariant forall k :: 0 <= k < m ==> Back(k) < |a|
      invariant !genesis && ids == Picks(a, m)
      decreases |a| - back
    {
      ids := ids + [a[|a| - back]];
      if |a| - back == 0 { genesis := true; }
      assert Pow2(2) == 2 * Pow2(1) == 4 && Pow2(1) == 2 * Pow2(0) == 2;
      BackGrows(i, i + 1);
      if i < 10 {
        back := back + 1;
      } else {
        multiplier := multiplier * 2;
        back := back + multiplier;
      }
      i, m := i + 1, m + 1;
    }
    if !genesis { ids := ids + [a[0]]; }
  }

  // ---------- the split ----------

  /** Position of `h` in `c`, or its length. */
  function IndexOf(c: seq<Hash>, h: Hash): (k: nat)
    ensures k <= |c| && (k < |c| ==> c[k] == h) && forall i :: 0 <= i < k ==> c[i] != h
  {
    if c == [] || c[0] == h then 0 else 1 + IndexOf(c[1..], h)
  }

  /** The height of the first id of `q` that chain `b` has; None when `q` does not end in its first block. */
  method FindSplit(b: seq<Hash>, q: seq<Hash>) returns (split: Option<nat>, ghost at: nat)
    requires b != []
    ensures split.Some? <==> q != [] && q[|q| - 1] == b[0]
    ensures split.Some? ==> split.value < |b| && FirstKnown(b, q, at) && b[split.value] == q[at]
  {
    at := 0;
    if q == [] { return None, at; }
    if q[|q| - 1] != b[0] { return None, at; }
    var i := 0;
    assert b[0] in b;
    while i < |q|
      invariant i <= |q| && forall j :: 0 <= j < i ==> q[j] !in b
    {
      var h := IndexOf(b, q[i]);
      if h < |b| {
        return Some(h), i;
      }
      i := i + 1;
    }
    assert false;
    return None, at;
  }

  ghost predicate FirstKnown(b: seq<Hash>, q: seq<Hash>, i: nat) {
    i < |q| && q[i] in b && forall j :: 0 <= j < i ==> q[j] !in b
  }

  /** The arithmetic of the distances: the first one that reaches `e` blocks back is not much longer. */
  lemma {:induction false} NextDistance(e: nat, k: nat)
    requires 1 <= e && (0 < k ==> Back(k - 1) < e)
    ensures Back(k) <= e || Back(k) <= 2 * e - 11
    ensures e <= 11 ==> Back(k) <= e
  {
    assert Pow2(2) == 2 * Pow2(1) == 4;
    if 11 < k {
      assert Pow2(k - 9) == 2 * Pow2(k - 10);
      BackGrows(10, k - 1);
    }
  }

  /**
   For a requester of length `n` whose chain parts from the responder's after height `f`, the split
   `s` is not above `f`, not more than twice as far back, and exact within the last eleven blocks.
   */
  lemma {:induction false} SplitIsClose(l: Links, a: seq<Hash>, b: seq<Hash>, f: nat, m: nat, i: nat, s: nat)
    requires Linked(l, a) && Linked(l, b) && PartAfter(a, b, f) && Reaches(|a|, m)
    requires FirstKnown(b, Chosen(a, m), i) && s < |b| && b[s] == Chosen(a, m)[i]
    ensures s <= f
    ensures |a| - s <= 2 * (|a| - f)
    ensures |a| - f <= 11 ==> s == f
    ensures s == f || |a| - s <= 2 * (|a| - f) - 11
  {
    var n, q := |a|, Chosen(a, m);
    var at := if i < m then n - Back(i) else 0;
    assert q[i] == a[at];
    SameBelow(l, a, b, at, s);
    CommonUpTo(l, a, b, f, at);
    if 0 < i {
      assert q[i - 1] == a[n - Back(i - 1)];
      CommonUpTo(l, a, b, f, n - Back(i - 1));
    }
    NextDistance(n - f, i);
  }

  // ---------- the reply ----------

  /** The ids from the split on, at most `REPLY_IDS`. */
  function ReplyFrom(b: seq<Hash>, s: nat): seq<Hash>
    requires s <= |b|
  {
    b[s..Min(|b|, s + REPLY_IDS)]
  }

  method Supplement(b: seq<Hash>, q: seq<Hash>) returns (ids: Option<seq<Hash>>, start: nat, ghost known: nat)
    requires b != []
    ensures ids.Some? <==> q != [] && q[|q| - 1] == b[0]
    ensures ids.Some? ==> start < |b| && ids.value == ReplyFrom(b, start)
    ensures ids.Some? ==> FirstKnown(b, q, known) && b[start] == q[known]
  {
    var split, first := FindSplit(b, q);
    if split.None? { return None, 0, 0; }
    start := split.value;
    var hashes, at, count := [], start, 0;
    while at < |b| && count < REPLY_IDS
      invariant start <= at <= |b| && count == at - start <= REPLY_IDS && hashes == b[start..at]
    {
      hashes := hashes + [b[at]];
      at, count := at + 1, count + 1;
    }
    return Some(hashes), start, first;
  }

  /**
   Unless the chains part more than 10000 blocks before the requester's tip, the reply of a
   responder that has a block above the last common one contains that block, and the requester's
   main chain does not.
   */
  lemma {:induction false} ReplyHasNews(l: Links, a: seq<Hash>, b: seq<Hash>, f: nat, m: nat, i: nat, s: nat)
    requires Linked(l, a) && Linked(l, b) && PartAfter(a, b, f) && Reaches(|a|, m)
    requires FirstKnown(b, Chosen(a, m), i) && s < |b| && b[s] == Chosen(a, m)[i]
    requires |a| - f <= REPLY_IDS && f + 1 < |b|
    ensures b[f + 1] in ReplyFrom(b, s) && b[f + 1] !in a
  {
    SplitIsClose(l, a, b, f, m, i, s);
    assert ReplyFrom(b, s)[f + 1 - s] == b[f + 1];
    if b[f + 1] in a {
      var j :| 0 <= j < |a| && a[j] == b[f + 1];
      SameBelow(l, a, b, j, f + 1);
    }
  }

  /** One exchange between a node with chain `a` and a node with chain `b`, which part after height `f`. */
  method Exchange(a: seq<Hash>, b: seq<Hash>, ghost l: Links, ghost f: nat) returns (ids: seq<Hash>, start: nat)
    requires Linked(l, a) && Linked(l, b) && PartAfter(a, b, f)
    ensures start <= f && |a| - start <= 2 * (|a| - f) && (|a| - f <= 11 ==> start == f)
    ensures ids == ReplyFrom(b, start) && ids[0] == a[start] == b[start]
    ensures |a| - f <= REPLY_IDS && f + 1 < |b| ==> b[f + 1] in ids && b[f + 1] !in a
  {
    var q, m := ShortHistory(a);
    CommonUpTo(l, a, b, f, 0);
    var reply, s, known := Supplement(b, q);
    SplitIsClose(l, a, b, f, m, known, s);
    CommonUpTo(l, a, b, f, s);
    if |a| - f <= REPLY_IDS && f + 1 < |b| { ReplyHasNews(l, a, b, f, m, known, s); }
    return reply.value, s;
  }
}
