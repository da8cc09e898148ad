/**
 Ring members are looked up by absolute output index. For a batch of blocks all of them are
 fetched in bulk into a table beforehand; looking a ring up through the table gives what looking
 up every index one by one would give.
 */
module ScanTable {
  import opened Ledger

  /** `height` is that of the block that made the output. */
  datatype Output = Output(key: nat, commitment: nat, unlock: nat, height: nat)

  /** The outputs of each amount, in the order in which the chain made them. */
  type Db = map<nat, seq<Output>>

  /** `offsets` are relative: each counts from the one before. */
  datatype Input = Input(image: Image, amount: nat, offsets: seq<nat>)

  datatype Spend = Spend(inputs: seq<Input>, rest: nat)

  type Table = map<Hash, map<Image, seq<Output>>>

  // ---------- offsets ----------

  /** Running sums in 64-bit arithmetic. */
  function Absolute(offsets: seq<nat>): (a: seq<nat>)
    ensures |a| == |offsets|
    decreases |offsets|
  {
    if |offsets| <= 1 then offsets
    else
      var n := |offsets| - 1;
      var a := Absolute(offsets[..n]);
      a + [(offsets[n] + a[n - 1]) % U64]
  }

  method AbsoluteOffsets(offsets: seq<nat>) returns (res: seq<nat>)
    ensures res == Absolute(offsets)
  {
    res := offsets;
    var i := 1;
    while i < |res|
      invariant |res| == |offsets| && 1 <= i && (i <= |res| || |res| == 0)
      invariant i <= |res| ==> res[..i] == Absolute(offsets[..i]) && res[i..] == offsets[i..]
    {
      assert offsets[..i + 1][..i] == offsets[..i];
      res := res[i := (res[i] + res[i - 1]) % U64];
      i := i + 1;
    }
    assert offsets[..|offsets|] == offsets && res[..|res|] == res;
  }

  // ---------- lookups ----------

  function Stock(db: Db, amount: nat): seq<Output> {
    if amount in db then db[amount] else []
  }

  predicate AllThere(db: Db, amount: nat, offs: seq<nat>) {
    forall i :: 0 <= i < |offs| ==> offs[i] < |Stock(db, amount)|
  }

  /** The outputs at `offs`, up to the first that does not exist. */
  function Prefix(db: Db, amount: nat, offs: seq<nat>): seq<Output> {
    if offs == [] || |Stock(db, amount)| <= offs[0] then []
    else [Stock(db, amount)[offs[0]]] + Prefix(db, amount, offs[1..])
  }

  /** Every index looked up on its own. */
  function Each(db: Db, amount: nat, offs: seq<nat>): (outs: seq<Output>)
    requires AllThere(db, amount, offs)
    ensures |outs| == |offs| && forall i :: 0 <= i < |offs| ==> outs[i] == Stock(db, amount)[offs[i]]
  {
    seq(|offs|, i requires 0 <= i < |offs| => Stock(db, amount)[offs[i]])
  }

  /** The ring of an input, looked up directly; None when it is empty, incomplete or not usable. */
  function RingOf(db: Db, x: Input, usable: Output -> bool): Option<seq<Output>> {
    var offs := Absolute(x.offsets);
    if offs == [] || !AllThere(db, x.amount, offs) then None
    else
      var outs := Each(db, x.amount, offs);
      if forall i :: 0 <= i < |outs| ==> usable(outs[i]) then Some(outs) else None
  }

  lemma {:induction false} PrefixIs(db: Db, amount: nat, offs: seq<nat>)
    ensures |Prefix(db, amount, offs)| <= |offs|
    ensures AllThere(db, amount, offs[..|Prefix(db, amount, offs)|])
    ensures Prefix(db, amount, offs) == Each(db, amount, offs[..|Prefix(db, amount, offs)|])
    ensures |Prefix(db, amount, offs)| < |offs| ==> |Stock(db, amount)| <= offs[|Prefix(db, amount, offs)|]
  {
    if !(offs == [] || |Stock(db, amount)| <= offs[0]) {
      PrefixIs(db, amount, offs[1..]);
      var n := |Prefix(db, amount, offs[1..])|;
      assert offs[..n + 1] == [offs[0]] + offs[1..][..n];
      assert Each(db, amount, offs[..n + 1])
          == [Stock(db, amount)[offs[0]]] + Each(db, amount, offs[1..][..n]);
    }
  }

  /** The walk over `offs` that has collected `outs` is `i` members into the ring. */
  ghost predicate Walked(db: Db, amount: nat, offs: seq<nat>, i: nat, outs: seq<Output>) {
    i <= |offs| && outs + Prefix(db, amount, offs[i..]) == Prefix(db, amount, offs)
  }

  lemma {:induction false} WalkStarts(db: Db, amount: nat, offs: seq<nat>)
    ensures Walked(db, amount, offs, 0, [])
  {
    assert offs[0..] == offs;
  }

  lemma {:induction false} WalkStep(db: Db, amount: nat, offs: seq<nat>, i: nat, outs: seq<Output>)
    requires Walked(db, amount, offs, i, outs)
    ensures i == |offs| || |Stock(db, amount)| <= offs[i] ==> outs == Prefix(db, amount, offs)
    ensures i < |offs| && offs[i] < |Stock(db, amount)| ==> Walked(db, amount, offs, i + 1, outs + [Stock(db, amount)[offs[i]]])
  {
    if i < |offs| && offs[i] < |Stock(db, amount)| {
      var o := Stock(db, amount)[offs[i]];
      assert offs[i..][1..] == offs[i + 1..];
      assert outs + ([o] + Prefix(db, amount, offs[i + 1..])) == (outs + [o]) + Prefix(db, amount, offs[i + 1..]);
    }
  }

  method GetOutputs(db: Db, amount: nat, offs: seq<nat>) returns (outs: seq<Output>)
    ensures outs == Prefix(db, amount, offs)
  {
    outs := [];
    WalkStarts(db, amount, offs);
    for i := 0 to |offs|
      invariant Walked(db, amount, offs, i, outs)
    {
      WalkStep(db, amount, offs, i, outs);
      if |Stock(db, amount)| <= offs[i] { return; }
      outs := outs + [Stock(db, amount)[offs[i]]];
    }
    WalkStep(db, amount, offs, |offs|, outs);
  }

  // ---------- the table and what it is good for ----------

  ghost predicate SamePrefix(prefix: Spend -> Hash, s: Spend, t: Spend) { prefix(s) == prefix(t) }

  ghost predicate Injective(prefix: Spend -> Hash) {
    forall s, t {:trigger SamePrefix(prefix, s, t)} :: SamePrefix(prefix, s, t) ==> s == t
  }

  predicate DistinctImages(s: Spend) {
    forall i, j :: 0 <= i < j < |s.inputs| ==> s.inputs[i].image != s.inputs[j].image
  }

  /** An entry holds the first members of the ring of `x`, as the chain has them. */
  ghost predicate EntryOk(db: Db, x: Input, entry: seq<Output>) {
    var offs := Absolute(x.offsets);
    |entry| <= |offs| && AllThere(db, x.amount, offs[..|entry|]) && entry == Each(db, x.amount, offs[..|entry|])
  }

  ghost predicate Listed(prefix: Spend -> Hash, table: Table, s: Spend, i: nat) {
    i < |s.inputs| && prefix(s) in table && s.inputs[i].image in table[prefix(s)]
  }

  ghost predicate TableOk(prefix: Spend -> Hash, table: Table, db: Db) {
    forall s, i: nat {:trigger Listed(prefix, table, s, i)} :: DistinctImages(s) && Listed(prefix, table, s, i) ==>
      EntryOk(db, s.inputs[i], table[prefix(s)][s.inputs[i].image])
  }

  /** `later` has every output of `db`, at its place. */
  ghost predicate Grows(db: Db, later: Db) {
    forall a :: |Stock(db, a)| <= |Stock(later, a)| && Stock(later, a)[..|Stock(db, a)|] == Stock(db, a)
  }

  lemma {:induction false} EntryStays(db: Db, later: Db, x: Input, entry: seq<Output>)
    requires EntryOk(db, x, entry) && Grows(db, later)
    ensures EntryOk(later, x, entry)
  {
    var offs := Absolute(x.offsets)[..|entry|];
    var s, t := Stock(db, x.amount), Stock(later, x.amount);
    assert t[..|s|] == s;
    forall i | 0 <= i < |offs| ensures offs[i] < |t| && entry[i] == t[offs[i]] {
      assert s[offs[i]] == t[..|s|][offs[i]];
    }
    assert entry == Each(later, x.amount, offs);
  }

  /** The table stays right while the chain grows. */
  lemma {:induction false} TableStays(prefix: Spend -> Hash, table: Table, db: Db, later: Db)
    requires TableOk(prefix, table, db) && Grows(db, later)
    ensures TableOk(prefix, table, later)
  {
    forall s, i: nat | DistinctImages(s) && Listed(prefix, table, s, i)
      ensures EntryOk(later, s.inputs[i], table[prefix(s)][s.inputs[i].image])
    {
      EntryStays(db, later, s.inputs[i], table[prefix(s)][s.inputs[i].image]);
    }
  }

  /** Completing an entry with the rest of the ring. */
  lemma {:induction false} EntryCompletes(db: Db, x: Input, entry: seq<Output>)
    requires EntryOk(db, x, entry)
    ensures var offs := Absolute(x.offsets);
            var more := Prefix(db, x.amount, offs[|entry|..]);
            && (|entry| + |more| == |offs| <==> AllThere(db, x.amount, offs))
            && (AllThere(db, x.amount, offs) ==> entry + more == Each(db, x.amount, offs))
  {
    var offs := Absolute(x.offsets);
    var n := |entry|;
    var more := Prefix(db, x.amount, offs[n..]);
    PrefixIs(db, x.amount, offs[n..]);
    if |more| == |offs| - n {
      forall i | 0 <= i < |offs| ensures offs[i] < |Stock(db, x.amount)| {
        if i < n { assert offs[..n][i] == offs[i]; } else { assert offs[n..][..|more|][i - n] == offs[i]; }
      }
      forall i | 0 <= i < |offs| ensures (entry + more)[i] == Stock(db, x.amount)[offs[i]] {
        if n <= i { assert offs[n..][..|more|][i - n] == offs[i]; }
      }
    } else {
      assert offs[n..][|more|] == offs[n + |more|];
    }
  }

  // ---------- building the table ----------

  ghost predicate Increasing(s: seq<nat>) {
    forall i, j :: 0 <= i < j < |s| ==> s[i] < s[j]
  }

  /** Sort and drop repetitions. */
  method SortUnique(s: seq<nat>) returns (t: seq<nat>)
    ensures Increasing(t) && forall x :: x in t <==> x in s
  {
    t := [];
    for i := 0 to |s|
      invariant Increasing(t) && forall x :: x in t <==> x in s[..i]
    {
      assert s[..i + 1] == s[..i] + [s[i]];
      if s[i] in t { continue; }
      var k := 0;
      while k < |t| && t[k] < s[i]
        invariant 0 <= k <= |t| && forall j :: 0 <= j < k ==> t[j] < s[i]
      {
        k := k + 1;
      }
      assert forall x :: x in t[..k] + [s[i]] + t[k..] <==> x in t || x == s[i] by { Insertion(t, k, s[i]); }
      t := t[..k] + [s[i]] + t[k..];
    }
    assert s[..|s|] == s;
  }

  lemma {:induction false} Insertion(t: seq<nat>, k: nat, y: nat)
    requires k <= |t|
    ensures forall x :: x in t[..k] + [y] + t[k..] <==> x in t || x == y
  {
    assert t == t[..k] + t[k..];
  }

  /** What the bulk query answers for sorted indices: exactly those that exist. */
  lemma {:induction false} BulkAnswers(db: Db, amount: nat, offs: seq<nat>, pos: nat)
    requires Increasing(offs) && pos < |offs|
    ensures pos < |Prefix(db, amount, offs)| <==> offs[pos] < |Stock(db, amount)|
    ensures pos < |Prefix(db, amount, offs)| ==> Prefix(db, amount, offs)[pos] == Stock(db, amount)[offs[pos]]
  {
    PrefixIs(db, amount, offs);
    var n := |Prefix(db, amount, offs)|;
    if pos < n { assert offs[..n][pos] == offs[pos]; }
    if n < pos { assert offs[n] < offs[pos]; }
  }

  /** The bulk results: for every amount the indices asked for and what came back. */
  datatype Bulk = Bulk(asked: map<nat, seq<nat>>, got: map<nat, seq<Output>>)

  ghost predicate BulkOk(db: Db, b: Bulk) {
    && b.got.Keys == b.asked.Keys
    && forall a :: a in b.asked ==> Increasing(b.asked[a]) && b.got[a] == Prefix(db, a, b.asked[a])
  }

  ghost predicate Covers(asked: map<nat, seq<nat>>, x: Input) {
    Absolute(x.offsets) != [] ==> x.amount in asked && forall o :: o in Absolute(x.offsets) ==> o in asked[x.amount]
  }

  ghost predicate CoversAll(asked: map<nat, seq<nat>>, xs: seq<Input>) {
    forall i :: 0 <= i < |xs| ==> Covers(asked, xs[i])
  }

  /** Position of an index among those asked for, or their number. */
  method Locate(asked: seq<nat>, offset: nat) returns (pos: nat)
    ensures pos <= |asked| && (pos < |asked| ==> asked[pos] == offset)
    ensures pos == |asked| ==> offset !in asked
  {
    pos := 0;
    while pos < |asked| && asked[pos] != offset
      invariant pos <= |asked| && forall j :: 0 <= j < pos ==> asked[j] != offset
    {
      pos := pos + 1;
    }
  }

  /** One member out of the bulk results. */
  method PickOne(b: Bulk, amount: nat, offset: nat, ghost db: Db) returns (o: Option<Output>)
    requires BulkOk(db, b) && amount in b.asked && offset in b.asked[amount]
    ensures o == if offset < |Stock(db, amount)| then Some(Stock(db, amount)[offset]) else None
  {
    var pos := Locate(b.asked[amount], offset);
    BulkAnswers(db, amount, b.asked[amount], pos);
    return if pos < |b.got[amount]| then Some(b.got[amount][pos]) else None;
  }

  /** One ring out of the bulk results, up to the first member that is missing. */
  method PickOut(b: Bulk, x: Input, ghost db: Db) returns (outs: seq<Output>)
    requires BulkOk(db, b) && Covers(b.asked, x)
    ensures outs == Prefix(db, x.amount, Absolute(x.offsets))
  {
    var offs := AbsoluteOffsets(x.offsets);
    outs := [];
    WalkStarts(db, x.amount, offs);
    for i := 0 to |offs|
      invariant Walked(db, x.amount, offs, i, outs)
    {
      WalkStep(db, x.amount, offs, i, outs);
      assert offs[i] in b.asked[x.amount];
      var found := PickOne(b, x.amount, offs[i], db);
      if found.None? { return; }
      outs := outs + [found.value];
    }
    WalkStep(db, x.amount, offs, |offs|, outs);
  }

  /** The entries of a transaction; of two inputs with one image the first counts. */
  function Entries(db: Db, xs: seq<Input>): map<Image, seq<Output>> {
    if xs == [] then map[]
    else
      var x, m := xs[|xs| - 1], Entries(db, xs[..|xs| - 1]);
      if x.image in m then m else m[x.image := Prefix(db, x.amount, Absolute(x.offsets))]
  }

  lemma {:induction false} EntriesAt(db: Db, xs: seq<Input>, i: nat)
    requires i < |xs| && forall j, k :: 0 <= j < k < |xs| ==> xs[j].image != xs[k].image
    ensures xs[i].image in Entries(db, xs)
    ensures Entries(db, xs)[xs[i].image] == Prefix(db, xs[i].amount, Absolute(xs[i].offsets))
    decreases |xs|
  {
    var n := |xs| - 1;
    if i < n {
      EntriesAt(db, xs[..n], i);
    } else {
      EntriesFrom(db, xs[..n], xs[n].image);
    }
  }

  lemma {:induction false} EntriesFrom(db: Db, xs: seq<Input>, k: Image)
    requires forall j :: 0 <= j < |xs| ==> xs[j].image != k
    ensures k !in Entries(db, xs)
    decreases |xs|
  {
    if xs != [] { EntriesFrom(db, xs[..|xs| - 1], k); }
  }

  /** The table of a batch. */
  ghost predicate Built(prefix: Spend -> Hash, table: Table, db: Db, batch: seq<Spend>) {
    && (forall i :: 0 <= i < |batch| ==> prefix(batch[i]) in table && table[prefix(batch[i])] == Entries(db, batch[i].inputs))
    && (forall h :: h in table ==> exists i :: 0 <= i < |batch| && prefix(batch[i]) == h)
  }

  lemma {:induction false} PrefixIsEntry(db: Db, x: Input)
    ensures EntryOk(db, x, Prefix(db, x.amount, Absolute(x.offsets)))
  {
    PrefixIs(db, x.amount, Absolute(x.offsets));
  }

  /** A table that was just built is right. */
  lemma {:induction false} BuiltIsOk(prefix: Spend -> Hash, table: Table, db: Db, batch: seq<Spend>)
    requires Injective(prefix) && Built(prefix, table, db, batch)
    ensures TableOk(prefix, table, db)
  {
    forall s, i: nat | DistinctImages(s) && Listed(prefix, table, s, i)
      ensures EntryOk(db, s.inputs[i], table[prefix(s)][s.inputs[i].image])
    {
      var n :| 0 <= n < |batch| && prefix(batch[n]) == prefix(s);
      assert SamePrefix(prefix, batch[n], s);
      EntriesAt(db, s.inputs, i);
      PrefixIsEntry(db, s.inputs[i]);
    }
  }

  // ---------- the object ----------

  class Scanner {
    var table: Table
    const prefix: Spend -> Hash

    constructor(p: Spend -> Hash)
      ensures prefix == p && table == map[]
    {
      table, prefix := map[], p;
    }

    /** Pops and the end of a batch empty the table. */
    method Clear()
      modifies this
      ensures table == map[]
      ensures forall db :: TableOk(prefix, table, db)
    {
      table := map[];
    }

    /** Enter the transactions of a batch, and note which outputs they need. */
    method Register(batch: seq<Spend>) returns (ok: bool, needed: map<nat, seq<nat>>)
      modifies this
      ensures ok <==> forall i, j :: 0 <= i < j < |batch| ==> prefix(batch[i]) != prefix(batch[j])
      ensures ok ==> forall i :: 0 <= i < |batch| ==> CoversAll(needed, batch[i].inputs)
      ensures ok ==> table.Keys == set i | 0 <= i < |batch| :: prefix(batch[i])
    {
      table, needed, ok := map[], map[], false;
      for n := 0 to |batch|
        invariant forall h :: h in table <==> exists i :: 0 <= i < n && prefix(batch[i]) == h
        invariant forall i, j :: 0 <= i < j < n ==> prefix(batch[i]) != prefix(batch[j])
        invariant forall i :: 0 <= i < n ==> CoversAll(needed, batch[i].inputs)
      {
        if prefix(batch[n]) in table {
          table := map[];
          return;
        }
        table := table[prefix(batch[n]) := map[]];
        ghost var before := needed;
        needed := NoteInputs(needed, batch[n].inputs);
        forall i | 0 <= i < n ensures CoversAll(needed, batch[i].inputs) {
          StillCovered(before, needed, batch[i].inputs);
        }
      }
      ok := true;
    }

    /**
     Fetch the rings of a batch into the table. A batch with a repeated transaction is refused.
     */
    method Prepare(db: Db, batch: seq<Spend>) returns (ok: bool)
      requires Injective(prefix)
      modifies this
      ensures ok <==> forall i, j :: 0 <= i < j < |batch| ==> prefix(batch[i]) != prefix(batch[j])
      ensures ok ==> Built(prefix, table, db, batch)
      ensures TableOk(prefix, table, db)
    {
      var needed;
      ok, needed := Register(batch);
      if !ok {
        table := map[];
        return;
      }
      var bulk := FetchAll(db, needed);
      for n := 0 to |batch|
        invariant table.Keys == set i | 0 <= i < |batch| :: prefix(batch[i])
        invariant forall i :: 0 <= i < n ==> prefix(batch[i]) in table && table[prefix(batch[i])] == Entries(db, batch[i].inputs)
      {
        StillCovered(needed, bulk.asked, batch[n].inputs);
        var m := FillEntries(bulk, batch[n].inputs, db);
        table := table[prefix(batch[n]) := m];
      }
      BuiltIsOk(prefix, table, db, batch);
    }

    /** What the table, completed from the chain, or the chain alone gives as outputs of a ring. */
    method Fetch(db: Db, s: Spend, i: nat, offs: seq<nat>) returns (outs: Option<seq<Output>>)
      requires i < |s.inputs| && DistinctImages(s) && TableOk(prefix, table, db)
      requires offs == Absolute(s.inputs[i].offsets)
      ensures outs.Some? ==> EntryOk(db, s.inputs[i], outs.value)
      ensures outs.None? ==> !AllThere(db, s.inputs[i].amount, offs)
    {
      var x := s.inputs[i];
      if prefix(s) in table && x.image in table[prefix(s)] {
        assert Listed(prefix, table, s, i);
        var entry := table[prefix(s)][x.image];
        if 0 < |entry| < |offs| {
          var more := GetOutputs(db, x.amount, offs[|entry|..]);
          EntryCompletes(db, x, entry);
          if |more| != |offs| - |entry| { return None; }
          entry := entry + more;
          assert offs[..|entry|] == offs;
        }
        return Some(entry);
      }
      var all := GetOutputs(db, x.amount, offs);
      PrefixIs(db, x.amount, offs);
      if |all| != |offs| { return None; }
      assert offs[..|all|] == offs;
      return Some(all);
    }

    /** Collect the ring of an input, as its members come out of the table or the chain. */
    method Scan(db: Db, s: Spend, i: nat, usable: Output -> bool) returns (ring: Option<seq<Output>>)
      requires i < |s.inputs| && DistinctImages(s) && TableOk(prefix, table, db)
      ensures ring == RingOf(db, s.inputs[i], usable)
    {
      var x := s.inputs[i];
      if x.offsets == [] { return None; }
      var offs := AbsoluteOffsets(x.offsets);
      var fetched := Fetch(db, s, i, offs);
      if fetched.None? { return None; }
      var outs, res := fetched.value, [];
      for count := 0 to |offs|
        invariant |res| == count && AllThere(db, x.amount, offs[..count]) && res == Each(db, x.amount, offs[..count])
        invariant forall j :: 0 <= j < count ==> usable(res[j])
      {
        if |outs| <= count && |Stock(db, x.amount)| <= offs[count] { return None; }
        assert count < |outs| ==> offs[..|outs|][count] == offs[count];
        var o := if count < |outs| then outs[count] else Stock(db, x.amount)[offs[count]];
        assert o == Stock(db, x.amount)[offs[count]];
        assert offs[..count + 1] == offs[..count] + [offs[count]];
        if !usable(o) {
          if AllThere(db, x.amount, offs) { assert Each(db, x.amount, offs)[count] == o; }
          return None;
        }
        res := res + [o];
      }
      assert offs[..|offs|] == offs;
      return Some(res);
    }
  }

  /** `later` asks for everything `asked` asks for. */
  ghost predicate AsksMore(asked: map<nat, seq<nat>>, later: map<nat, seq<nat>>) {
    forall a :: a in asked ==> a in later && forall o :: o in asked[a] ==> o in later[a]
  }

  lemma {:induction false} StillCovered(asked: map<nat, seq<nat>>, later: map<nat, seq<nat>>, xs: seq<Input>)
    requires CoversAll(asked, xs) && AsksMore(asked, later)
    ensures CoversAll(later, xs)
  {
    forall i | 0 <= i < |xs| ensures Covers(later, xs[i]) { assert Covers(asked, xs[i]); }
  }

  /** Note the outputs that the inputs of a transaction need. */
  method NoteInputs(needed: map<nat, seq<nat>>, xs: seq<Input>) returns (more: map<nat, seq<nat>>)
    ensures AsksMore(needed, more) && CoversAll(more, xs)
  {
    more := needed;
    for i := 0 to |xs|
      invariant AsksMore(needed, more) && CoversAll(more, xs[..i])
    {
      var offs := AbsoluteOffsets(xs[i].offsets);
      var have := if xs[i].amount in more then more[xs[i].amount] else [];
      ghost var before := more;
      more := more[xs[i].amount := have + offs];
      assert AsksMore(before, more);
      StillCovered(before, more, xs[..i]);
      assert Covers(more, xs[i]);
      assert xs[..i + 1] == xs[..i] + [xs[i]];
    }
    assert xs[..|xs|] == xs;
  }

  /** One bulk query per amount. */
  method FetchAll(db: Db, needed: map<nat, seq<nat>>) returns (b: Bulk)
    ensures BulkOk(db, b) && AsksMore(needed, b.asked)
  {
    var asked: map<nat, seq<nat>>, got: map<nat, seq<Output>> := map[], map[];
    var left := needed.Keys;
    while left != {}
      invariant left <= needed.Keys && asked.Keys == needed.Keys - left
      invariant BulkOk(db, Bulk(asked, got))
      invariant forall a :: a in asked ==> forall o :: o in needed[a] ==> o in asked[a]
      decreases left
    {
      var a :| a in left;
      left := left - {a};
      var offs := SortUnique(needed[a]);
      var outs := GetOutputs(db, a, offs);
      asked, got := asked[a := offs], got[a := outs];
    }
    b := Bulk(asked, got);
  }

  /** The entries of one transaction. */
  method FillEntries(b: Bulk, xs: seq<Input>, ghost db: Db) returns (m: map<Image, seq<Output>>)
    requires BulkOk(db, b) && CoversAll(b.asked, xs)
    ensures m == Entries(db, xs)
  {
    m := map[];
    for i := 0 to |xs|
      invariant m == Entries(db, xs[..i])
    {
      assert Covers(b.asked, xs[i]);
      var outs := PickOut(b, xs[i], db);
      assert xs[..i + 1][..i] == xs[..i];
      if xs[i].image !in m { m := m[xs[i].image := outs]; }
    }
    assert xs[..|xs|] == xs;
  }

  // ---------- runs ----------

  /** Around the table: the chain grows, a pop shrinks it, a batch is prepared or ends. */
  datatype Event = GrowTo(db: Db) | PopTo(db: Db) | Prepared(batch: seq<Spend>, table: Table) | Ended

  datatype World = World(db: Db, table: Table)

  function Next(w: World, e: Event): World {
    match e
    case GrowTo(db) => w.(db := db)
    case PopTo(db) => World(db, map[])
    case Prepared(_, table) => w.(table := table)
    case Ended => w.(table := map[])
  }

  ghost predicate Proper(prefix: Spend -> Hash, w: World, es: seq<Event>)
    decreases |es|
  {
    es == [] ||
    (&& (es[0].GrowTo? ==> Grows(w.db, es[0].db))
     && (es[0].Prepared? ==> Built(prefix, es[0].table, w.db, es[0].batch) || es[0].table == map[])
     && Proper(prefix, Next(w, es[0]), es[1..]))
  }

  function Run(w: World, es: seq<Event>): World
    decreases |es|
  {
    if es == [] then w else Run(Next(w, es[0]), es[1..])
  }

  /** However the chain grows and shrinks between batches, the table is right. */
  lemma {:induction false} RunKeepsTable(prefix: Spend -> Hash, w: World, es: seq<Event>)
    requires Injective(prefix) && TableOk(prefix, w.table, w.db) && Proper(prefix, w, es)
    ensures TableOk(prefix, Run(w, es).table, Run(w, es).db)
    decreases |es|
  {
    if es != [] {
      var e := es[0];
      if e.GrowTo? { TableStays(prefix, w.table, w.db, e.db); }
      if e.Prepared? && e.table != map[] { BuiltIsOk(prefix, e.table, w.db, e.batch); }
      RunKeepsTable(prefix, Next(w, e), es[1..]);
    }
  }
}
