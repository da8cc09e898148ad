/**
 The age of ring members. Input checking remembers only the height of the last member of each
 ring, yet every member has to be four blocks deep.
 */
module RingAge {
  import opened Ledger
  import opened ScanTable

  const SPENDABLE_AGE: nat := 4
  const MIXIN: nat := 31

  // ---------- distinct key images ----------

  /** The list is sorted for the comparison "not less": no neighbour is not less than the one before. */
  predicate SortedImages(images: seq<Image>) {
    forall i :: 0 < i < |images| ==> !(images[i - 1] <= images[i])
  }

  /** That comparison accepts exactly the strictly decreasing lists, so no image comes twice. */
  lemma {:induction false} SortedMeansDistinct(images: seq<Image>)
    ensures SortedImages(images) <==> forall i, j :: 0 <= i < j < |images| ==> images[j] < images[i]
    ensures SortedImages(images) ==> Distinct(images)
  {
    if SortedImages(images) {
      forall i, j | 0 <= i < j < |images| ensures images[j] < images[i] { Falls(images, i, j); }
    } else {
      var i :| 0 < i < |images| && images[i - 1] <= images[i];
      assert !(images[i] < images[i - 1]);
    }
  }

  lemma {:induction false} Falls(images: seq<Image>, i: nat, j: nat)
    requires SortedImages(images) && i < j < |images|
    ensures images[j] < images[i]
    decreases j
  {
    assert !(images[j - 1] <= images[j]);
    if i < j - 1 { Falls(images, i, j - 1); }
  }

  function Images(s: Spend): seq<Image> {
    seq(|s.inputs|, i requires 0 <= i < |s.inputs| => s.inputs[i].image)
  }

  // ---------- the size of rings ----------

  /** There is an input, and every ring has 32 members. */
  ghost predicate RightSize(xs: seq<Input>) {
    xs != [] && forall i :: 0 <= i < |xs| ==> |xs[i].offsets| == MIXIN + 1
  }

  /** Members beside the real one, in the 64-bit arithmetic in which an empty ring has most. */
  function Decoys(x: Input): nat { if x.offsets == [] then U64 - 1 else |x.offsets| - 1 }

  /** Smallest and largest ring have to be alike, and of the one size; without inputs they are not. */
  method CheckSizes(xs: seq<Input>) returns (ok: bool)
    ensures ok <==> RightSize(xs)
  {
    var least: nat, most: nat := U64 - 1, 0;
    for i := 0 to |xs|
      invariant if i == 0 then least == U64 - 1 && most == 0 else least <= Decoys(xs[0]) <= most
      invariant forall j :: 0 <= j < i ==> least <= Decoys(xs[j]) <= most
      invariant 0 < i && (forall j :: 0 <= j < i ==> Decoys(xs[j]) == MIXIN) ==> least == most == MIXIN
    {
      least, most := Min(least, Decoys(xs[i])), Max(most, Decoys(xs[i]));
    }
    return least == most && least == MIXIN;
  }

  // ---------- the check ----------

  /** Height of the newest of the last members, starting from `base`. */
  function Newest(db: Db, xs: seq<Input>, usable: Output -> bool, base: nat): nat
    decreases |xs|
  {
    if xs == [] then base
    else
      var m, ring := Newest(db, xs[..|xs| - 1], usable, base), RingOf(db, xs[|xs| - 1], usable);
      if ring.None? then m else Max(m, ring.value[|ring.value| - 1].height)
  }

  ghost predicate Complete(db: Db, xs: seq<Input>, usable: Output -> bool) {
    forall i :: 0 <= i < |xs| ==> RingOf(db, xs[i], usable).Some?
  }

  /** What input checking asks of the rings of a transaction. */
  ghost predicate Passes(db: Db, xs: seq<Input>, usable: Output -> bool, base: nat, length: nat) {
    RightSize(xs) && Complete(db, xs, usable) && Newest(db, xs, usable, base) + SPENDABLE_AGE <= length
  }

  lemma {:induction false} ImagesApart(s: Spend)
    requires SortedImages(Images(s))
    ensures DistinctImages(s)
  {
    SortedMeansDistinct(Images(s));
    forall i, j | 0 <= i < j < |s.inputs| ensures s.inputs[i].image != s.inputs[j].image {
      assert Images(s)[i] != Images(s)[j];
    }
  }

  /** No key image is among those spent on the chain. */
  ghost predicate Unspent(xs: seq<Input>, spent: set<Image>) {
    forall i :: 0 <= i < |xs| ==> xs[i].image !in spent
  }

  /** The check itself, with the rings out of the prefetched table; `spent` are the images on the chain. */
  method CheckAges(scanner: Scanner, db: Db, s: Spend, spent: set<Image>, usable: Output -> bool, base: nat, length: nat)
    returns (ok: bool, top: nat)
    requires TableOk(scanner.prefix, scanner.table, db)
    ensures ok <==> SortedImages(Images(s)) && Unspent(s.inputs, spent) && Passes(db, s.inputs, usable, base, length)
    ensures ok ==> top == Newest(db, s.inputs, usable, base)
  {
    top := base;
    var sized := CheckSizes(s.inputs);
    if !sized { return false, top; }
    if !SortedImages(Images(s)) { return false, top; }
    ImagesApart(s);
    var xs := s.inputs;
    for i := 0 to |xs|
      invariant CheckedTo(db, xs, i, spent, usable, base, top)
    {
      if xs[i].image in spent { return false, top; }
      var ring := scanner.Scan(db, s, i, usable);
      if ring.None? { return false, top; }
      CheckOne(db, xs, i, spent, usable, base, top, ring.value);
      top := Max(top, ring.value[|ring.value| - 1].height);
    }
    assert xs[..|xs|] == xs;
    return top + SPENDABLE_AGE <= length, top;
  }

  /** The first `i` inputs pass, and `top` is the newest of their last members. */
  ghost predicate CheckedTo(db: Db, xs: seq<Input>, i: nat, spent: set<Image>, usable: Output -> bool, base: nat, top: nat) {
    && i <= |xs| && Complete(db, xs[..i], usable) && Unspent(xs[..i], spent)
    && top == Newest(db, xs[..i], usable, base)
  }

  lemma {:induction false} CheckOne(db: Db, xs: seq<Input>, i: nat, spent: set<Image>, usable: Output -> bool, base: nat, top: nat,
                                    ring: seq<Output>)
    requires CheckedTo(db, xs, i, spent, usable, base, top) && i < |xs|
    requires xs[i].image !in spent && RingOf(db, xs[i], usable) == Some(ring) && ring != []
    ensures CheckedTo(db, xs, i + 1, spent, usable, base, Max(top, ring[|ring| - 1].height))
  {
    assert xs[..i + 1][..i] == xs[..i];
    assert xs[..i + 1] == xs[..i] + [xs[i]];
  }

  // ---------- what it is good for ----------

  /** Outputs are indexed in the order of their blocks. */
  ghost predicate ByHeight(db: Db) {
    forall a, i, j {:trigger Stock(db, a)[i], Stock(db, a)[j]} ::
      0 <= i <= j < |Stock(db, a)| ==> Stock(db, a)[i].height <= Stock(db, a)[j].height
  }

  /** The last index is the greatest. */
  ghost predicate LastIsGreatest(offs: seq<nat>) {
    forall i :: 0 <= i < |offs| ==> offs[i] <= offs[|offs| - 1]
  }

  /** Every member of every ring is old enough. */
  ghost predicate AllDeep(db: Db, xs: seq<Input>, length: nat) {
    forall i {:trigger RingDeep(db, xs[i], length)} :: 0 <= i < |xs| ==> RingDeep(db, xs[i], length)
  }

  ghost predicate RingDeep(db: Db, x: Input, length: nat) {
    forall j :: 0 <= j < |Absolute(x.offsets)| && Absolute(x.offsets)[j] < |Stock(db, x.amount)| ==>
      Stock(db, x.amount)[Absolute(x.offsets)[j]].height + SPENDABLE_AGE <= length
  }

  lemma {:induction false} NewestCovers(db: Db, xs: seq<Input>, usable: Output -> bool, base: nat, i: nat)
    requires i < |xs| && RingOf(db, xs[i], usable).Some?
    ensures var ring := RingOf(db, xs[i], usable).value;
            ring[|ring| - 1].height <= Newest(db, xs, usable, base)
    decreases |xs|
  {
    if i < |xs| - 1 { NewestCovers(db, xs[..|xs| - 1], usable, base, i); }
  }

  lemma {:induction false} LastMember(db: Db, x: Input, usable: Output -> bool)
    requires RingOf(db, x, usable).Some?
    ensures var offs, ring := Absolute(x.offsets), RingOf(db, x, usable).value;
            && offs != [] && offs[|offs| - 1] < |Stock(db, x.amount)|
            && ring[|ring| - 1] == Stock(db, x.amount)[offs[|offs| - 1]]
  {
  }

  /** If the last index is the greatest, a last member that is deep enough vouches for the ring. */
  lemma {:induction false} LastVouches(db: Db, x: Input, last: nat, length: nat)
    requires ByHeight(db) && LastIsGreatest(Absolute(x.offsets)) && Absolute(x.offsets) != []
    requires last == Absolute(x.offsets)[|Absolute(x.offsets)| - 1] && last < |Stock(db, x.amount)|
    requires Stock(db, x.amount)[last].height + SPENDABLE_AGE <= length
    ensures RingDeep(db, x, length)
  {
    var offs := Absolute(x.offsets);
    forall j | 0 <= j < |offs| && offs[j] < |Stock(db, x.amount)|
      ensures Stock(db, x.amount)[offs[j]].height + SPENDABLE_AGE <= length
    {
      assert Stock(db, x.amount)[offs[j]].height <= Stock(db, x.amount)[last].height;
    }
  }

  lemma {:induction false} RingPasses(db: Db, xs: seq<Input>, usable: Output -> bool, base: nat, length: nat, i: nat)
    requires ByHeight(db) && Passes(db, xs, usable, base, length) && i < |xs| && LastIsGreatest(Absolute(xs[i].offsets))
    ensures RingDeep(db, xs[i], length)
  {
    NewestCovers(db, xs, usable, base, i);
    LastMember(db, xs[i], usable);
    var offs := Absolute(xs[i].offsets);
    LastVouches(db, xs[i], offs[|offs| - 1], length);
  }

  /** If the last index of each ring is its greatest, a transaction that passes has only deep members. */
  lemma {:induction false} PassesMeansDeep(db: Db, xs: seq<Input>, usable: Output -> bool, base: nat, length: nat)
    requires ByHeight(db) && Passes(db, xs, usable, base, length)
    requires forall i :: 0 <= i < |xs| ==> LastIsGreatest(Absolute(xs[i].offsets))
    ensures AllDeep(db, xs, length)
  {
    forall i | 0 <= i < |xs| ensures RingDeep(db, xs[i], length) {
      RingPasses(db, xs, usable, base, length, i);
    }
  }

  // ---------- offsets that do not wrap ----------

  lemma {:induction false} SumFront(s: seq<nat>, k: nat)
    requires k <= |s|
    ensures Sum(s[..k]) <= Sum(s)
    decreases |s|
  {
    if k < |s| {
      SumFront(s[..|s| - 1], k);
      assert s[..|s| - 1][..k] == s[..k];
    } else {
      assert s[..k] == s;
    }
  }

  lemma {:induction false} AbsoluteIsSum(offsets: seq<nat>)
    requires Sum(offsets) < U64 && offsets != []
    ensures Absolute(offsets)[|offsets| - 1] == Sum(offsets)
    decreases |offsets|
  {
    var n := |offsets| - 1;
    if n == 0 {
      assert offsets[..0] == [];
      assert Sum(offsets) == Sum(offsets[..0]) + offsets[0];
    } else {
      SumFront(offsets, n);
      AbsoluteIsSum(offsets[..n]);
    }
  }

  lemma {:induction false} AbsoluteAt(offsets: seq<nat>, k: nat)
    requires k < |offsets|
    ensures Absolute(offsets)[k] == Absolute(offsets[..k + 1])[k]
    decreases |offsets|
  {
    var n := |offsets| - 1;
    if k < n {
      AbsoluteAt(offsets[..n], k);
      assert offsets[..n][..k + 1] == offsets[..k + 1];
    } else {
      assert offsets[..k + 1] == offsets;
    }
  }

  /** Offsets whose sum fits 64 bits do not wrap: the last index is the greatest. */
  lemma {:induction false} NoWrap(offsets: seq<nat>)
    requires Sum(offsets) < U64
    ensures LastIsGreatest(Absolute(offsets))
  {
    var a := Absolute(offsets);
    forall i | 0 <= i < |a| ensures a[i] <= a[|a| - 1] {
      AbsoluteAt(offsets, i);
      SumFront(offsets, i + 1);
      AbsoluteIsSum(offsets[..i + 1]);
      AbsoluteIsSum(offsets);
    }
  }

  // ---------- and those that do ----------

  /** The check does its job for the ring of `x` on every chain with at most `n` outputs of its amount. */
  ghost predicate Sufficient(x: Input, n: nat) {
    forall db, length {:trigger RingDeep(db, x, length)} ::
      ByHeight(db) && |Stock(db, x.amount)| <= n && Passes(db, [x], Any, 0, length) ==> RingDeep(db, x, length)
  }

  predicate Any(o: Output) { true }

  /** A chain with `n` outputs, those up to index `last` old and the others new. */
  ghost function Split(amount: nat, last: nat, n: nat): Db {
    map[amount := seq(n, i => Output(0, 0, 0, if i <= last then 0 else 1))]
  }

  lemma {:induction false} SplitFools(x: Input, n: nat, j: nat)
    requires |x.offsets| == MIXIN + 1 && forall i :: 0 <= i < |x.offsets| ==> Absolute(x.offsets)[i] < n
    requires j < |x.offsets| && Absolute(x.offsets)[MIXIN] < Absolute(x.offsets)[j]
    ensures !Sufficient(x, n)
  {
    var offs := Absolute(x.offsets);
    var last := offs[MIXIN];
    var db := Split(x.amount, last, n);
    var st := Stock(db, x.amount);
    assert ByHeight(db) by { SplitByHeight(x.amount, last, n); }
    assert AllThere(db, x.amount, offs);
    assert Passes(db, [x], Any, 0, SPENDABLE_AGE) by {
      assert [x][..0] == [];
      assert RingOf(db, x, Any).Some?;
      assert Newest(db, [x], Any, 0) == Max(Newest(db, [], Any, 0), st[last].height) == 0;
    }
    assert st[offs[j]].height == 1;
    assert !RingDeep(db, x, SPENDABLE_AGE);
  }

  lemma {:induction false} SplitByHeight(amount: nat, last: nat, n: nat)
    ensures ByHeight(Split(amount, last, n))
  {
    var db := Split(amount, last, n);
    forall a, i, j | 0 <= i <= j < |Stock(db, a)| ensures Stock(db, a)[i].height <= Stock(db, a)[j].height {
      assert a == amount;
    }
  }

  lemma {:induction false} TooFewOutputs(db: Db, x: Input, i: nat, length: nat)
    requires i < |x.offsets| && |Stock(db, x.amount)| <= Absolute(x.offsets)[i]
    ensures !Passes(db, [x], Any, 0, length)
  {
    assert !AllThere(db, x.amount, Absolute(x.offsets));
    assert RingOf(db, [x][0], Any).None?;
  }

  /**
   On the chains with at most `n` outputs, remembering the last member only is enough exactly for
   the rings whose last index is the greatest, or which no such chain can fill.
   */
  lemma {:induction false} SufficientIff(x: Input, n: nat)
    requires |x.offsets| == MIXIN + 1
    ensures var a := Absolute(x.offsets);
            Sufficient(x, n) <==> LastIsGreatest(a) || exists i :: 0 <= i < |a| && n <= a[i]
  {
    var a := Absolute(x.offsets);
    if i :| 0 <= i < |a| && n <= a[i] {
      forall db, length | |Stock(db, x.amount)| <= n ensures !Passes(db, [x], Any, 0, length) {
        TooFewOutputs(db, x, i, length);
      }
    } else if LastIsGreatest(a) {
      forall db, length | ByHeight(db) && Passes(db, [x], Any, 0, length) ensures RingDeep(db, x, length) {
        PassesMeansDeep(db, [x], Any, 0, length);
        assert RingDeep(db, [x][0], length);
      }
    } else {
      var j :| 0 <= j < |a| && a[|a| - 1] < a[j];
      SplitFools(x, n, j);
    }
  }

  /** The first `k` offsets of the ring below: 40, then ones. */
  function Climbing(k: nat): seq<nat> { seq(k, i => if i == 0 then 40 else 1) }

  /** A ring whose last offset wraps: its indices are 40 up to 70, and then 35. */
  function Wrapped(): seq<nat> { Climbing(MIXIN) + [U64 - 35] }

  lemma {:induction false} ClimbingIs(k: nat)
    requires 40 + k < U64
    ensures forall i :: 0 <= i < k ==> Absolute(Climbing(k))[i] == 40 + i
    decreases k
  {
    if 1 < k {
      assert Climbing(k)[..k - 1] == Climbing(k - 1);
      ClimbingIs(k - 1);
    }
  }

  /** Its offsets pass every check on offsets, and it makes the check pass on a chain of 71 outputs with members too young. */
  lemma {:induction false} WrappedRing(image: Image, amount: nat)
    ensures |Wrapped()| == MIXIN + 1 && forall i :: 0 <= i < |Wrapped()| ==> 0 < Wrapped()[i] < U64
    ensures !Sufficient(Input(image, amount, Wrapped()), 71)
  {
    var a := Absolute(Wrapped());
    assert Wrapped()[..MIXIN] == Climbing(MIXIN);
    ClimbingIs(MIXIN);
    assert a[..MIXIN] == Absolute(Climbing(MIXIN)) && a[MIXIN] == (U64 - 35 + 70) % U64 == 35;
    forall i | 0 <= i < |a| ensures a[i] < 71 { if i < MIXIN { assert a[i] == a[..MIXIN][i]; } }
    assert a[0] == a[..MIXIN][0] == 40;
    SplitFools(Input(image, amount, Wrapped()), 71, 0);
  }
}
