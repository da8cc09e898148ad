/**
 What the pool does in one call: add, take, prune and expire, as functions of the pool
 value, with the facts that hold of every such step.
 */
module PoolSteps {
  import opened Ledger
  import opened MemPool

  const FEE_PER_BYTE: nat := 300000
  const FEE_QUANTUM: nat := 1000

  // ---------- prune ----------

  predicate IsFromBlock(txs: map<TxId, Entry>, id: TxId) {
    id in txs && txs[id].relay.FromBlock?
  }

  /** Walk from slot `i` towards the front, dropping what is not from a block while too heavy. */
  function PruneAt(p: Pool, i: nat, bytes: nat): Pool
    requires i < |p.index|
    decreases i
  {
    if i == 0 || p.weight <= bytes || p.index[i].id !in p.txs then p
    else if IsFromBlock(p.txs, p.index[i].id) then PruneAt(p, i - 1, bytes)
    else PruneAt(DropSlot(p, i), i - 1, bytes)
  }

  function Prune(p: Pool, bytes: nat): Pool {
    if p.index == [] then p else PruneAt(p, |p.index| - 1, bytes)
  }

  lemma {:induction false} PruneAtWF(p: Pool, i: nat, bytes: nat)
    requires WF(p) && i < |p.index|
    ensures WF(PruneAt(p, i, bytes))
    decreases i
  {
    if i == 0 || p.weight <= bytes || p.index[i].id !in p.txs {
    } else if IsFromBlock(p.txs, p.index[i].id) {
      PruneAtWF(p, i - 1, bytes);
    } else {
      DropWF(p, i);
      PruneAtWF(DropSlot(p, i), i - 1, bytes);
    }
  }

  /** `q` holds some of the entries of `p`, unchanged, and every one that came from a block. */
  ghost predicate Thinned(p: Pool, q: Pool) {
    && q.limit == p.limit && q.timedOut == p.timedOut
    && (forall id :: id in q.txs ==> id in p.txs && q.txs[id] == p.txs[id])
    && (forall id :: IsFromBlock(p.txs, id) ==> id in q.txs)
  }

  lemma {:induction false} ThinsTwice(p: Pool, q: Pool, r: Pool)
    requires Thinned(p, q) && Thinned(q, r)
    ensures Thinned(p, r)
  {
    forall id | IsFromBlock(p.txs, id) ensures id in r.txs {
      assert IsFromBlock(q.txs, id);
    }
  }

  lemma {:induction false} PruneAtThins(p: Pool, i: nat, bytes: nat)
    requires i < |p.index|
    ensures Thinned(p, PruneAt(p, i, bytes))
    decreases i
  {
    if i == 0 || p.weight <= bytes || p.index[i].id !in p.txs {
    } else if IsFromBlock(p.txs, p.index[i].id) {
      PruneAtThins(p, i - 1, bytes);
    } else {
      PruneAtThins(DropSlot(p, i), i - 1, bytes);
      ThinsTwice(p, DropSlot(p, i), PruneAt(p, i, bytes));
    }
  }

  /** Pruning keeps the pool consistent and never drops a transaction that came from a block. */
  lemma {:induction false} PruneThins(p: Pool, bytes: nat)
    requires WF(p)
    ensures WF(Prune(p, bytes))
    ensures Thinned(p, Prune(p, bytes))
  {
    if p.index != [] {
      PruneAtThins(p, |p.index| - 1, bytes);
      PruneAtWF(p, |p.index| - 1, bytes);
    }
  }

  /** The slots of `s` that hold transactions from blocks. */
  ghost function BlockOnly(s: seq<Slot>, txs: map<TxId, Entry>): seq<Slot> {
    if s == [] then []
    else (if IsFromBlock(txs, s[0].id) then [s[0]] else []) + BlockOnly(s[1..], txs)
  }

  ghost predicate AllFromBlock(s: seq<Slot>, txs: map<TxId, Entry>) {
    forall j :: 0 <= j < |s| ==> IsFromBlock(txs, s[j].id)
  }

  lemma {:induction false} BlockOnlyAll(s: seq<Slot>, txs: map<TxId, Entry>)
    requires AllFromBlock(s, txs)
    ensures BlockOnly(s, txs) == s
  {
    if s != [] {
      assert IsFromBlock(txs, s[0].id);
      BlockOnlyAll(s[1..], txs);
    }
  }

  lemma {:induction false} BlockOnlySkip(a: seq<Slot>, x: Slot, b: seq<Slot>, txs: map<TxId, Entry>)
    requires !IsFromBlock(txs, x.id)
    ensures BlockOnly(a + [x] + b, txs) == BlockOnly(a + b, txs)
  {
    if a == [] {
      assert a + [x] + b == [x] + b && a + b == b;
      assert ([x] + b)[1..] == b;
    } else {
      BlockOnlySkip(a[1..], x, b, txs);
      assert (a + [x] + b)[1..] == a[1..] + [x] + b;
      assert (a + b)[1..] == a[1..] + b;
    }
  }

  /**
   What pruning an index `s` to `bytes` leaves, `m` being the first slot dropped (or |s|):
   everything up to `m`, behind it only what came from blocks; the weight fits, or nothing but
   the first slot could have gone; and one slot more would have been too much.
   */
  ghost predicate CutAt(s: seq<Slot>, w: int, t: seq<Slot>, w': int, m: nat, bytes: nat, txs: map<TxId, Entry>) {
    && m <= |s|
    && t == s[..m] + BlockOnly(s[m..], txs)
    && (w' <= bytes || forall j :: 1 <= j < m ==> IsFromBlock(txs, s[j].id))
    && (m == |s| ==> w' == w)
    && (m < |s| ==> 1 <= m && !IsFromBlock(txs, s[m].id) && bytes < w' + WeightOf(txs, s[m].id))
  }

  lemma {:induction false} CutStepLast(s: seq<Slot>, w: int, i: nat, t: seq<Slot>, w': int, bytes: nat, txs: map<TxId, Entry>)
    requires 1 <= i < |s| && AllFromBlock(s[i + 1..], txs) && !IsFromBlock(txs, s[i].id) && bytes < w
    requires CutAt(Without(s, i), w - WeightOf(txs, s[i].id), t, w', |s| - 1, bytes, txs)
    ensures CutAt(s, w, t, w', i, bytes, txs)
  {
    var tail := s[i + 1..];
    BlockOnlyAll(tail, txs);
    BlockOnlySkip([], s[i], tail, txs);
    assert [] + [s[i]] + tail == s[i..] && [] + tail == tail;
    var r := Without(s, i);
    assert r[|s| - 1..] == [] && r[..|s| - 1] == r;
    assert t == r == s[..i] + tail;
    forall j | 1 <= j < i && !(w' <= bytes) ensures IsFromBlock(txs, s[j].id) { assert r[j] == s[j]; }
  }

  lemma {:induction false} CutStepInner(s: seq<Slot>, w: int, i: nat, t: seq<Slot>, w': int, m: nat, bytes: nat, txs: map<TxId, Entry>)
    requires 1 <= i < |s| && AllFromBlock(s[i + 1..], txs) && !IsFromBlock(txs, s[i].id) && bytes < w
    requires CutAt(Without(s, i), w - WeightOf(txs, s[i].id), t, w', m, bytes, txs) && m < |s| - 1
    ensures CutAt(s, w, t, w', m, bytes, txs)
  {
    var tail := s[i + 1..];
    var r := Without(s, i);
    assert m < i;
    var mid := s[m..i];
    assert r[m..] == mid + tail;
    assert s[m..] == mid + [s[i]] + tail;
    BlockOnlySkip(mid, s[i], tail, txs);
    assert r[..m] == s[..m];
    assert r[m] == s[m];
    forall j | 1 <= j < m && !(w' <= bytes) ensures IsFromBlock(txs, s[j].id) { assert r[j] == s[j]; }
  }

  lemma {:induction false} CutNothing(s: seq<Slot>, w: int, i: nat, bytes: nat, txs: map<TxId, Entry>)
    requires i < |s| && (i == 0 || w <= bytes) && AllFromBlock(s[i + 1..], txs)
    ensures CutAt(s, w, s, w, |s|, bytes, txs)
  {
    assert s[..|s|] + BlockOnly(s[|s|..], txs) == s;
    forall j | 1 <= j < |s| && bytes < w ensures IsFromBlock(txs, s[j].id) {
      assert s[i + 1..][j - 1] == s[j];
    }
  }

  /** The index and weight that pruning from slot `i` leaves. */
  ghost function Cut(s: seq<Slot>, w: int, i: nat, bytes: nat, txs: map<TxId, Entry>): (seq<Slot>, int)
    requires i < |s|
    decreases i
  {
    if i == 0 || w <= bytes then (s, w)
    else if IsFromBlock(txs, s[i].id) then Cut(s, w, i - 1, bytes, txs)
    else Cut(Without(s, i), w - WeightOf(txs, s[i].id), i - 1, bytes, txs)
  }

  ghost predicate SameEntry(a: map<TxId, Entry>, b: map<TxId, Entry>, id: TxId) {
    id in a && id in b && a[id] == b[id]
  }

  lemma {:induction false} PruneAtCuts(p: Pool, i: nat, bytes: nat, txs: map<TxId, Entry>)
    requires i < |p.index| && OncePerId(p.index)
    requires forall j :: 0 <= j < |p.index| ==> SameEntry(p.txs, txs, p.index[j].id)
    ensures Cut(p.index, p.weight, i, bytes, txs) == (PruneAt(p, i, bytes).index, PruneAt(p, i, bytes).weight)
    decreases i
  {
    if i == 0 || p.weight <= bytes || p.index[i].id !in p.txs {
    } else if IsFromBlock(p.txs, p.index[i].id) {
      PruneAtCuts(p, i - 1, bytes, txs);
    } else {
      OnceWithout(p.index, i);
      PruneAtCuts(DropSlot(p, i), i - 1, bytes, txs);
    }
  }

  lemma {:induction false} CutDrop(s: seq<Slot>, w: int, i: nat, t: seq<Slot>, w': int, m': nat, bytes: nat, txs: map<TxId, Entry>)
    returns (m: nat)
    requires 1 <= i < |s| && AllFromBlock(s[i + 1..], txs) && !IsFromBlock(txs, s[i].id) && bytes < w
    requires CutAt(Without(s, i), w - WeightOf(txs, s[i].id), t, w', m', bytes, txs)
    ensures CutAt(s, w, t, w', m, bytes, txs)
  {
    if m' == |s| - 1 {
      CutStepLast(s, w, i, t, w', bytes, txs);
      m := i;
    } else {
      CutStepInner(s, w, i, t, w', m', bytes, txs);
      m := m';
    }
  }

  lemma {:induction false} AllFromBlockDown(s: seq<Slot>, i: nat, txs: map<TxId, Entry>)
    requires 1 <= i < |s| && AllFromBlock(s[i + 1..], txs)
    ensures IsFromBlock(txs, s[i].id) ==> AllFromBlock(s[i..], txs)
    ensures AllFromBlock(Without(s, i)[i..], txs)
  {
    assert s[i..] == [s[i]] + s[i + 1..];
    assert Without(s, i)[i..] == s[i + 1..];
  }

  lemma {:induction false} CutShape(s: seq<Slot>, w: int, i: nat, bytes: nat, txs: map<TxId, Entry>) returns (m: nat)
    requires i < |s| && AllFromBlock(s[i + 1..], txs)
    ensures CutAt(s, w, Cut(s, w, i, bytes, txs).0, Cut(s, w, i, bytes, txs).1, m, bytes, txs)
    decreases i
  {
    var c := Cut(s, w, i, bytes, txs);
    if i == 0 || w <= bytes {
      m := |s|;
      CutNothing(s, w, i, bytes, txs);
    } else {
      AllFromBlockDown(s, i, txs);
      if IsFromBlock(txs, s[i].id) {
        m := CutShape(s, w, i - 1, bytes, txs);
      } else {
        m := CutShape(Without(s, i), w - WeightOf(txs, s[i].id), i - 1, bytes, txs);
        m := CutDrop(s, w, i, c.0, c.1, m, bytes, txs);
      }
    }
  }

  /** Pruning keeps the best of the pool: see `CutAt`. */
  lemma {:induction false} PruneShape(p: Pool, bytes: nat) returns (m: nat)
    requires WF(p)
    ensures CutAt(p.index, p.weight, Prune(p, bytes).index, Prune(p, bytes).weight, m, bytes, p.txs)
  {
    if p.index == [] {
      m := 0;
    } else {
      PruneAtCuts(p, |p.index| - 1, bytes, p.txs);
      m := CutShape(p.index, p.weight, |p.index| - 1, bytes, p.txs);
    }
  }

  lemma {:induction false} BlockOnlyHas(s: seq<Slot>, txs: map<TxId, Entry>, x: Slot)
    requires x in BlockOnly(s, txs)
    ensures IsFromBlock(txs, x.id)
  {
    if !(IsFromBlock(txs, s[0].id) && x == s[0]) { BlockOnlyHas(s[1..], txs, x); }
  }

  lemma {:induction false} FrontHas(s: seq<Slot>, m: nat, j: nat)
    requires m <= |s|
    ensures j < m ==> s[j] in s[..m]
  {
    if j < m { assert s[..m][j] == s[j]; }
  }

  /** Whatever pruning removes ranks behind every transaction it keeps that is not from a block. */
  lemma {:induction false} PruneRanks(p: Pool, bytes: nat, i: nat, j: nat)
    requires WF(p) && i < |p.index| && j < |p.index|
    requires p.index[i] in Prune(p, bytes).index && !IsFromBlock(p.txs, p.index[i].id)
    requires p.index[j] !in Prune(p, bytes).index
    ensures i < j && !Before(p.index[j], p.index[i])
  {
    var s, t := p.index, Prune(p, bytes).index;
    var m := PruneShape(p, bytes);
    FrontHas(s, m, j);
    if s[i] in BlockOnly(s[m..], p.txs) { BlockOnlyHas(s[m..], p.txs, s[i]); }
    var k :| 0 <= k < m && s[..m][k] == s[i];
    assert i < k ==> !SameId(s, i, k);
    assert k < i ==> !SameId(s, k, i);
  }

  // ---------- add ----------

  /**
   A transaction offered to the pool: `sound` is the outcome of the checks on the transaction
   alone, `inputsOk` that of checking its inputs against the chain.
   */
  datatype Offer = Offer(tx: Tx, relay: Relay, sound: bool, inputsOk: bool)

  predicate FeeOk(weight: nat, fee: nat) {
    var needed := (weight * FEE_PER_BYTE + FEE_QUANTUM - 1) / FEE_QUANTUM * FEE_QUANTUM;
    needed - needed / 50 <= fee
  }

  /** Whether the pool lets `tx` spend image `k`: nobody else does, or only its own private copy. */
  predicate ImageTaken(p: Pool, k: Image, id: TxId) {
    && k in p.spent && p.spent[k] != {}
    && (p.spent[k] != {id} || (id in p.txs && !p.txs[id].relay.Local?))
  }

  predicate Accepts(p: Pool, o: Offer) {
    && o.sound
    && o.tx.weight <= TX_WEIGHT_LIMIT
    && (o.relay.FromBlock? ||
        (&& o.tx.id !in p.timedOut
         && FeeOk(o.tx.weight, o.tx.fee)
         && (forall i :: 0 <= i < |o.tx.images| ==> !ImageTaken(p, o.tx.images[i], o.tx.id))
         && o.inputsOk))
    && !(o.tx.id in p.txs && !o.inputsOk && !p.txs[o.tx.id].relay.Local? && o.tx.images != [])
  }

  function EntryOf(o: Offer, now: nat): Entry {
    Entry(o.tx, o.relay, Rate(o.tx), now)
  }

  function AddTx(p: Pool, o: Offer, now: nat): Pool {
    if Accepts(p, o) then Prune(Insert(p, EntryOf(o, now)), p.limit) else p
  }

  /** The pool holds `tx` and will not prune it. */
  ghost predicate Kept(p: Pool, tx: Tx) {
    tx.id in p.txs && p.txs[tx.id].tx == tx && p.txs[tx.id].relay.FromBlock?
  }

  /** `q` has no entry that `p` has not, apart from `more`. */
  ghost predicate Within(q: Pool, p: Pool, more: set<TxId>) {
    forall id :: id in q.txs ==> id in more || (id in p.txs && q.txs[id] == p.txs[id])
  }

  /** Every offer of an id that is not stored leaves the pool consistent. */
  lemma {:induction false} AddTxWF(p: Pool, o: Offer, now: nat)
    requires WF(p) && Poolable(o.tx) && o.tx.id !in p.txs
    ensures WF(AddTx(p, o, now))
    ensures Within(AddTx(p, o, now), p, {o.tx.id})
    ensures forall x: Tx {:trigger Kept(AddTx(p, o, now), x)} :: Kept(p, x) ==> Kept(AddTx(p, o, now), x)
    ensures o.relay.FromBlock? && o.sound ==> Kept(AddTx(p, o, now), o.tx)
  {
    if Accepts(p, o) {
      var q := Insert(p, EntryOf(o, now));
      InsertWF(p, EntryOf(o, now));
      PruneThins(q, p.limit);
      forall x: Tx | Kept(p, x) || (x == o.tx && o.relay.FromBlock?) ensures Kept(AddTx(p, o, now), x) {
        assert IsFromBlock(q.txs, x.id);
      }
    }
  }

  // ---------- adding what is there already ----------

  /** Two slots have the same id. */
  ghost predicate Doubled(p: Pool) {
    exists i, j {:trigger SameId(p.index, i, j)} :: 0 <= i < j < |p.index| && SameId(p.index, i, j)
  }

  /** A slot has no transaction. */
  ghost predicate Dangling(p: Pool) {
    exists i :: 0 <= i < |p.index| && p.index[i].id !in p.txs
  }

  /** Ways in which a pool can be inconsistent that no pruning repairs. */
  ghost predicate Broken(p: Pool) {
    Doubled(p) || Dangling(p) || Total(p.index, p.txs) < p.weight
  }

  lemma {:induction false} BrokenIsNotWF(p: Pool)
    requires Broken(p)
    ensures !WF(p)
  {
    if Doubled(p) {
      var i, j :| 0 <= i < j < |p.index| && SameId(p.index, i, j);
    } else if Dangling(p) {
      var i :| 0 <= i < |p.index| && p.index[i].id !in p.txs;
    }
  }

  lemma {:induction false} TotalFalls(index: seq<Slot>, txs: map<TxId, Entry>, id: TxId)
    ensures Total(index, txs - {id}) <= Total(index, txs)
  {
    if index != [] { TotalFalls(index[1..], txs, id); }
  }

  lemma {:induction false} DroppedExcess(p: Pool, k: nat)
    requires k < |p.index| && Total(p.index, p.txs) < p.weight
    ensures Total(DropSlot(p, k).index, DropSlot(p, k).txs) < DropSlot(p, k).weight
  {
    TotalAround(p.index, k, p.txs);
    TotalFalls(Without(p.index, k), p.txs, p.index[k].id);
  }

  lemma {:induction false} DroppedDouble(p: Pool, k: nat)
    requires k < |p.index| && Doubled(p)
    ensures Doubled(DropSlot(p, k)) || Dangling(DropSlot(p, k))
  {
    var i, j :| 0 <= i < j < |p.index| && SameId(p.index, i, j);
    var t := DropSlot(p, k).index;
    if k == i || k == j {
      var o := if k == i then j - 1 else i;
      assert t[o].id == p.index[k].id;
    } else {
      var ii, jj := if i < k then i else i - 1, if j < k then j else j - 1;
      assert t[ii] == p.index[i] && t[jj] == p.index[j];
      assert SameId(t, ii, jj);
    }
  }

  lemma {:induction false} DroppedDangling(p: Pool, k: nat)
    requires k < |p.index| && p.index[k].id in p.txs && Dangling(p)
    ensures Dangling(DropSlot(p, k))
  {
    var i :| 0 <= i < |p.index| && p.index[i].id !in p.txs;
    var t := DropSlot(p, k).index;
    assert t[if i < k then i else i - 1] == p.index[i];
  }

  lemma {:induction false} BrokenDrop(p: Pool, k: nat)
    requires k < |p.index| && p.index[k].id in p.txs && Broken(p)
    ensures Broken(DropSlot(p, k))
  {
    if Doubled(p) {
      DroppedDouble(p, k);
    } else if Dangling(p) {
      DroppedDangling(p, k);
    } else {
      DroppedExcess(p, k);
    }
  }

  /** Pruning repairs nothing. */
  lemma {:induction false} BrokenPrune(p: Pool, i: nat, bytes: nat)
    requires i < |p.index| && Broken(p)
    ensures Broken(PruneAt(p, i, bytes))
    decreases i
  {
    if i == 0 || p.weight <= bytes || p.index[i].id !in p.txs {
    } else if IsFromBlock(p.txs, p.index[i].id) {
      BrokenPrune(p, i - 1, bytes);
    } else {
      BrokenDrop(p, i);
      BrokenPrune(DropSlot(p, i), i - 1, bytes);
    }
  }

  /** A stored transaction added again is counted twice, or gets a second slot. */
  lemma {:induction false} InsertAgainBreaks(p: Pool, e: Entry)
    requires WF(p) && Poolable(e.tx) && e.tx.id in p.txs && p.txs[e.tx.id].tx == e.tx
    ensures Broken(Insert(p, e))
  {
    var q := Insert(p, e);
    var s := SlotOf(e);
    if s in p.index {
      TotalFrame(p.index, p.txs, q.txs);
    } else {
      assert Indexed(p.index, p.txs, e.tx.id);
      var i :| 0 <= i < |p.index| && p.index[i] == SlotOf(p.txs[e.tx.id]);
      var k := Place(p.index, s);
      var j := if i < k then i else i + 1;
      assert q.index[j] == p.index[i] && q.index[k] == s;
      assert p.index[i].id == e.tx.id;
      assert SameId(q.index, j, k) && SameId(q.index, k, j);
    }
  }

  /**
   Offering a transaction leaves the pool consistent exactly when it is not stored yet or not
   accepted. (A privately held one that arrives from a peer is stored and accepted.)
   */
  lemma {:induction false} AddTxWFIff(p: Pool, o: Offer, now: nat)
    requires WF(p) && Poolable(o.tx) && (o.tx.id in p.txs ==> p.txs[o.tx.id].tx == o.tx)
    ensures WF(AddTx(p, o, now)) <==> o.tx.id !in p.txs || !Accepts(p, o)
  {
    if o.tx.id !in p.txs {
      AddTxWF(p, o, now);
    } else if Accepts(p, o) {
      var q := Insert(p, EntryOf(o, now));
      InsertAgainBreaks(p, EntryOf(o, now));
      if q.index != [] { BrokenPrune(q, |q.index| - 1, p.limit); }
      BrokenIsNotWF(AddTx(p, o, now));
    }
  }

  /** A private transaction that a peer sends with its inputs in order is accepted, and breaks the pool. */
  lemma {:induction false} ResubmittedLocalBreaks(p: Pool, o: Offer, now: nat)
    requires WF(p) && Poolable(o.tx) && o.tx.id in p.txs && p.txs[o.tx.id].tx == o.tx
    requires p.txs[o.tx.id].relay.Local? && o.relay.Fluff? && o.sound && o.inputsOk
    requires o.tx.id !in p.timedOut && FeeOk(o.tx.weight, o.tx.fee)
    requires forall k, id :: Uses(p.txs, k, id) && k in o.tx.images ==> id == o.tx.id
    ensures Accepts(p, o) && !WF(AddTx(p, o, now))
  {
    forall i | 0 <= i < |o.tx.images| ensures !ImageTaken(p, o.tx.images[i], o.tx.id) {
      OnlyOwnImages(p, o.tx.images[i], o.tx);
    }
    AddTxWFIff(p, o, now);
  }

  lemma {:induction false} OnlyOwnImages(p: Pool, k: Image, tx: Tx)
    requires Inverse(p.spent, p.txs) && k in tx.images
    requires forall k, id :: Uses(p.txs, k, id) && k in tx.images ==> id == tx.id
    ensures k in p.spent ==> p.spent[k] == {tx.id}
  {
    if k in p.spent {
      forall id | id in p.spent[k] ensures id == tx.id {
        assert Spends(p.spent, k, id);
        assert Uses(p.txs, k, id);
      }
    }
  }

  // ---------- expire ----------

  predicate Stale(e: Entry, now: nat) {
    var age := (now - e.received) % U64;
    (TX_LIFETIME < age && !e.relay.FromBlock?) || (BLOCK_TX_LIFETIME < age && e.relay.FromBlock?)
  }

  predicate StaleId(txs: map<TxId, Entry>, id: TxId, now: nat) {
    id in txs && Stale(txs[id], now)
  }

  /** Drop the stale transactions among the first `i` slots. */
  function ExpireBelow(p: Pool, i: nat, now: nat): Pool
    requires i <= |p.index|
    decreases i
  {
    if i == 0 then p
    else
      var id := p.index[i - 1].id;
      if StaleId(p.txs, id, now) then
        ExpireBelow(DropSlot(p, i - 1).(timedOut := p.timedOut + {id}), i - 1, now)
      else ExpireBelow(p, i - 1, now)
  }

  function Expire(p: Pool, now: nat): Pool {
    ExpireBelow(p, |p.index|, now)
  }

  /** `q` is `p` without its stale transactions, whose ids it remembers. */
  ghost predicate Expired(p: Pool, q: Pool, now: nat) {
    && (forall id :: id in q.txs <==> id in p.txs && !StaleId(p.txs, id, now))
    && (forall id :: id in q.txs ==> q.txs[id] == p.txs[id])
    && (forall id :: id in q.timedOut <==> id in p.timedOut || StaleId(p.txs, id, now))
  }

  lemma {:induction false} ExpiredNone(p: Pool, now: nat)
    requires WF(p)
    requires forall j :: 0 <= j < |p.index| ==> !StaleId(p.txs, p.index[j].id, now)
    ensures Expired(p, p, now)
  {
    forall id | id in p.txs ensures !StaleId(p.txs, id, now) {
      assert Indexed(p.index, p.txs, id);
      var j :| 0 <= j < |p.index| && p.index[j] == SlotOf(p.txs[id]);
      assert !StaleId(p.txs, p.index[j].id, now);
    }
  }

  lemma {:induction false} ExpiredStep(p: Pool, p': Pool, q: Pool, id: TxId, now: nat)
    requires StaleId(p.txs, id, now) && p'.txs == p.txs - {id} && p'.timedOut == p.timedOut + {id}
    requires Expired(p', q, now)
    ensures Expired(p, q, now)
  {
  }

  lemma {:induction false} ExpireBelowDrops(p: Pool, i: nat, now: nat)
    requires WF(p) && i <= |p.index|
    requires forall j :: i <= j < |p.index| ==> !StaleId(p.txs, p.index[j].id, now)
    ensures WF(ExpireBelow(p, i, now)) && Expired(p, ExpireBelow(p, i, now), now)
    decreases i
  {
    if i == 0 {
      ExpiredNone(p, now);
    } else {
      var id := p.index[i - 1].id;
      if StaleId(p.txs, id, now) {
        var p' := DropSlot(p, i - 1).(timedOut := p.timedOut + {id});
        DropWF(p, i - 1);
        forall j | i - 1 <= j < |p'.index| ensures !StaleId(p'.txs, p'.index[j].id, now) {
          assert p'.index[j] == p.index[j + 1];
          assert !StaleId(p.txs, p.index[j + 1].id, now);
        }
        ExpireBelowDrops(p', i - 1, now);
        ExpiredStep(p, p', ExpireBelow(p', i - 1, now), id, now);
      } else {
        ExpireBelowDrops(p, i - 1, now);
      }
    }
  }

  /** Expiry removes exactly the stale transactions and remembers their ids. */
  lemma {:induction false} ExpireDrops(p: Pool, now: nat)
    requires WF(p)
    ensures WF(Expire(p, now)) && Expired(p, Expire(p, now), now)
  {
    ExpireBelowDrops(p, |p.index|, now);
  }
}
