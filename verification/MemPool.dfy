/**
 The memory pool as a value: the stored transactions, the map from key image to the
 transactions that spend it, the fee-ordered index and the running weight.
 Every operation of the pool object is specified by a function of this module.
 */
module MemPool {
  import opened Ledger

  /** How a transaction reached the pool. */
  datatype Relay = NoRelay | Local | Fluff | FromBlock

  /** A stored transaction; `rate` is its fee per byte, kept as the sort key of the index. */
  datatype Entry = Entry(tx: Tx, relay: Relay, rate: real, received: nat)

  /** An element of the index; greater fee rates come first, then earlier arrivals. */
  datatype Slot = Slot(rate: real, received: nat, id: TxId)

  datatype Pool = Pool(
    txs: map<TxId, Entry>,
    spent: map<Image, set<TxId>>,
    index: seq<Slot>,
    weight: int,
    limit: nat,
    timedOut: set<TxId>)

  const MIN_BLOCK_BOUND: nat := 128 * 1024
  const COINBASE_RESERVED: nat := 600
  const TX_WEIGHT_LIMIT: nat := MIN_BLOCK_BOUND / 2 - COINBASE_RESERVED
  const TX_LIFETIME: nat := 86400 * 3
  const BLOCK_TX_LIFETIME: nat := 604800

  // ---------- the index ----------

  function Rate(tx: Tx): real {
    tx.fee as real / (if tx.weight == 0 then 1 else tx.weight) as real
  }

  function SlotOf(e: Entry): Slot {
    Slot(e.rate, e.received, e.tx.id)
  }

  predicate Before(a: Slot, b: Slot) {
    a.rate > b.rate || (a.rate == b.rate && a.received < b.received)
  }

  /** Where a new slot goes: behind every slot strictly before it, ahead of its ties. */
  function Place(index: seq<Slot>, s: Slot): (k: nat)
    ensures k <= |index|
    ensures forall i :: 0 <= i < k ==> Before(index[i], s)
    ensures k < |index| ==> !Before(index[k], s)
  {
    if index == [] || !Before(index[0], s) then 0
    else 1 + Place(index[1..], s)
  }

  function Emplace(index: seq<Slot>, s: Slot): seq<Slot> {
    if s in index then index
    else InsertAt(index, Place(index, s), s)
  }

  ghost predicate Sorted(index: seq<Slot>) {
    forall i, j {:trigger Before(index[j], index[i])} :: 0 <= i < j < |index| ==> !Before(index[j], index[i])
  }

  ghost predicate SameId(index: seq<Slot>, i: int, j: int) {
    0 <= i < |index| && 0 <= j < |index| && index[i].id == index[j].id
  }

  /** No id has two slots. */
  ghost predicate OncePerId(index: seq<Slot>) {
    forall i, j {:trigger SameId(index, i, j)} :: 0 <= i < j < |index| ==> !SameId(index, i, j)
  }

  function Position(index: seq<Slot>, id: TxId): (k: nat)
    ensures k <= |index|
    ensures forall i :: 0 <= i < k ==> index[i].id != id
    ensures k < |index| ==> index[k].id == id
  {
    if index == [] || index[0].id == id then 0 else 1 + Position(index[1..], id)
  }

  function InsertAt<T>(s: seq<T>, k: nat, x: T): (t: seq<T>)
    requires k <= |s|
    ensures |t| == |s| + 1 && t[k] == x
    ensures forall i :: 0 <= i < k ==> t[i] == s[i]
    ensures forall i :: k < i < |t| ==> t[i] == s[i - 1]
  {
    s[..k] + [x] + s[k..]
  }

  function Without<T>(s: seq<T>, k: nat): (t: seq<T>)
    requires k < |s|
    ensures |t| == |s| - 1
    ensures forall i :: 0 <= i < k ==> t[i] == s[i]
    ensures forall i :: k <= i < |t| ==> t[i] == s[i + 1]
  {
    s[..k] + s[k + 1..]
  }

  // ---------- the key images ----------

  ghost predicate Spends(spent: map<Image, set<TxId>>, k: Image, id: TxId) {
    k in spent && id in spent[k]
  }

  ghost predicate Uses(txs: map<TxId, Entry>, k: Image, id: TxId) {
    id in txs && k in txs[id].tx.images
  }

  function Spend(spent: map<Image, set<TxId>>, images: seq<Image>, id: TxId): map<Image, set<TxId>> {
    map k | k in spent.Keys + (set i | i in images) ::
      (if k in spent then spent[k] else {}) + (if k in images then {id} else {})
  }

  function Unspend(spent: map<Image, set<TxId>>, images: seq<Image>, id: TxId): map<Image, set<TxId>> {
    map k | k in spent && !(k in images && spent[k] == {id}) ::
      if k in images then spent[k] - {id} else spent[k]
  }

  /** The key-image map is the exact inverse of the stored transactions and holds no empty set. */
  ghost predicate Inverse(spent: map<Image, set<TxId>>, txs: map<TxId, Entry>) {
    && (forall k :: k in spent ==> spent[k] != {})
    && (forall k, id :: Spends(spent, k, id) <==> Uses(txs, k, id))
  }

  // ---------- the weight ----------

  function WeightOf(txs: map<TxId, Entry>, id: TxId): nat {
    if id in txs then txs[id].tx.weight else 0
  }

  ghost function Total(index: seq<Slot>, txs: map<TxId, Entry>): nat {
    if index == [] then 0 else WeightOf(txs, index[0].id) + Total(index[1..], txs)
  }

  // ---------- the invariant ----------

  /** The checks on a transaction alone that every way into the pool and the chain makes. */
  predicate Poolable(tx: Tx) {
    Distinct(tx.images) && 0 < tx.weight <= TX_WEIGHT_LIMIT
  }

  ghost predicate Indexed(index: seq<Slot>, txs: map<TxId, Entry>, id: TxId) {
    id in txs && SlotOf(txs[id]) in index
  }

  /** The index holds exactly the stored transactions, each once, in order. */
  ghost predicate Lists(index: seq<Slot>, txs: map<TxId, Entry>) {
    && Sorted(index)
    && OncePerId(index)
    && (forall i :: 0 <= i < |index| ==> index[i].id in txs && index[i] == SlotOf(txs[index[i].id]))
    && (forall id {:trigger Indexed(index, txs, id)} :: id in txs ==> Indexed(index, txs, id))
  }

  ghost predicate Stored(txs: map<TxId, Entry>) {
    forall id :: id in txs ==> txs[id].tx.id == id && Poolable(txs[id].tx)
  }

  ghost predicate WF(p: Pool) {
    && Stored(p.txs)
    && Lists(p.index, p.txs)
    && Inverse(p.spent, p.txs)
    && p.weight == Total(p.index, p.txs)
  }

  // ---------- insert and remove ----------

  function Insert(p: Pool, e: Entry): Pool {
    p.(txs := p.txs[e.tx.id := e],
       spent := Spend(p.spent, e.tx.images, e.tx.id),
       index := Emplace(p.index, SlotOf(e)),
       weight := p.weight + e.tx.weight)
  }

  /** Take out the transaction of slot `k`. */
  function DropSlot(p: Pool, k: nat): Pool
    requires k < |p.index|
  {
    var id := p.index[k].id;
    p.(txs := p.txs - {id},
       spent := if id in p.txs then Unspend(p.spent, p.txs[id].tx.images, id) else p.spent,
       index := Without(p.index, k),
       weight := p.weight - WeightOf(p.txs, id))
  }

  /** Take out the transaction `id`, if it is stored and indexed. */
  function Remove(p: Pool, id: TxId): Pool {
    var k := Position(p.index, id);
    if k < |p.index| then DropSlot(p, k) else p
  }

  // ---------- lemmas ----------

  lemma {:induction false} TotalConcat(a: seq<Slot>, b: seq<Slot>, txs: map<TxId, Entry>)
    ensures Total(a + b, txs) == Total(a, txs) + Total(b, txs)
  {
    if a == [] {
      assert a + b == b;
    } else {
      TotalConcat(a[1..], b, txs);
      assert (a + b)[1..] == a[1..] + b;
    }
  }

  lemma {:induction false} TotalFrame(index: seq<Slot>, txs: map<TxId, Entry>, txs': map<TxId, Entry>)
    requires forall i :: 0 <= i < |index| ==> WeightOf(txs, index[i].id) == WeightOf(txs', index[i].id)
    ensures Total(index, txs) == Total(index, txs')
  {
    if index != [] { TotalFrame(index[1..], txs, txs'); }
  }

  lemma {:induction false} TotalAround(index: seq<Slot>, k: nat, txs: map<TxId, Entry>)
    requires k < |index|
    ensures Total(index, txs) == Total(Without(index, k), txs) + WeightOf(txs, index[k].id)
  {
    var a, b := index[..k], index[k + 1..];
    assert index == a + ([index[k]] + b);
    TotalConcat(a, [index[k]] + b, txs);
    TotalConcat([index[k]], b, txs);
    TotalConcat(a, b, txs);
  }

  lemma {:induction false} EmplaceSorted(index: seq<Slot>, s: Slot)
    requires Sorted(index) && s !in index
    ensures Sorted(Emplace(index, s))
  {
    var k := Place(index, s);
    var t := Emplace(index, s);
    forall i, j | 0 <= i < j < |t|
      ensures !Before(t[j], t[i])
    {
      var ii := if i < k then i else i - 1;
      var jj := if j < k then j else j - 1;
      if i == k {
        assert t[j] == index[jj];
        assert jj == k || !Before(index[jj], index[k]);
        assert !Before(index[k], s);
      } else if j == k {
        assert t[i] == index[ii] && Before(index[ii], s);
      } else {
        assert t[i] == index[ii] && t[j] == index[jj];
      }
    }
  }

  lemma {:induction false} SpendInverse(spent: map<Image, set<TxId>>, txs: map<TxId, Entry>, e: Entry)
    requires Inverse(spent, txs) && e.tx.id !in txs
    ensures Inverse(Spend(spent, e.tx.images, e.tx.id), txs[e.tx.id := e])
  {
    var spent', txs' := Spend(spent, e.tx.images, e.tx.id), txs[e.tx.id := e];
    forall k, id
      ensures Spends(spent', k, id) <==> Uses(txs', k, id)
    {
      assert Spends(spent, k, id) <==> Uses(txs, k, id);
    }
  }

  lemma {:induction false} UnspendInverse(spent: map<Image, set<TxId>>, txs: map<TxId, Entry>, id: TxId)
    requires Inverse(spent, txs) && id in txs
    ensures Inverse(Unspend(spent, txs[id].tx.images, id), txs - {id})
  {
    var spent', txs' := Unspend(spent, txs[id].tx.images, id), txs - {id};
    forall k, x
      ensures Spends(spent', k, x) <==> Uses(txs', k, x)
    {
      assert Spends(spent, k, x) <==> Uses(txs, k, x);
      assert Spends(spent, k, id) <==> Uses(txs, k, id);
    }
    forall k | k in spent'
      ensures spent'[k] != {}
    {
      assert Spends(spent, k, id) <==> Uses(txs, k, id);
      if k in txs[id].tx.images {
        assert spent[k] == (spent[k] - {id}) + {id};
      }
    }
  }

  lemma {:induction false} OnceInsert(index: seq<Slot>, k: nat, s: Slot)
    requires OncePerId(index) && k <= |index|
    requires forall i :: 0 <= i < |index| ==> index[i].id != s.id
    ensures OncePerId(InsertAt(index, k, s))
  {
    var t := InsertAt(index, k, s);
    forall i, j | 0 <= i < j < |t| ensures !SameId(t, i, j) {
      if i != k && j != k {
        assert !SameId(index, if i < k then i else i - 1, if j < k then j else j - 1);
      }
    }
  }

  lemma {:induction false} OnceWithout(index: seq<Slot>, k: nat)
    requires OncePerId(index) && k < |index|
    ensures OncePerId(Without(index, k))
    ensures forall i :: 0 <= i < |index| - 1 ==> Without(index, k)[i].id != index[k].id
  {
    var t := Without(index, k);
    forall i, j | 0 <= i < j < |t| ensures !SameId(t, i, j) {
      assert !SameId(index, if i < k then i else i + 1, if j < k then j else j + 1);
    }
    forall i | 0 <= i < |t| ensures t[i].id != index[k].id {
      assert if i < k then !SameId(index, i, k) else !SameId(index, k, i + 1);
    }
  }

  lemma {:induction false} SortedWithout(index: seq<Slot>, k: nat)
    requires Sorted(index) && k < |index|
    ensures Sorted(Without(index, k))
  {
    var t := Without(index, k);
    forall i, j | 0 <= i < j < |t| ensures !Before(t[j], t[i]) {
      assert !Before(index[if j < k then j else j + 1], index[if i < k then i else i + 1]);
    }
  }

  lemma {:induction false} EmplaceLists(index: seq<Slot>, txs: map<TxId, Entry>, e: Entry, k: nat)
    requires Lists(index, txs) && e.tx.id !in txs && k <= |index|
    requires Sorted(InsertAt(index, k, SlotOf(e)))
    ensures Lists(InsertAt(index, k, SlotOf(e)), txs[e.tx.id := e])
  {
    var t := InsertAt(index, k, SlotOf(e));
    var txs' := txs[e.tx.id := e];
    OnceInsert(index, k, SlotOf(e));
    forall id | id in txs'
      ensures Indexed(t, txs', id)
    {
      if id == e.tx.id {
        assert t[k] == SlotOf(e);
      } else {
        assert Indexed(index, txs, id);
        var i :| 0 <= i < |index| && index[i] == SlotOf(txs[id]);
        assert t[if i < k then i else i + 1] == index[i];
      }
    }
  }

  lemma {:induction false} ListsInsert(index: seq<Slot>, txs: map<TxId, Entry>, e: Entry)
    requires Lists(index, txs) && e.tx.id !in txs
    ensures SlotOf(e) !in index
    ensures Lists(Emplace(index, SlotOf(e)), txs[e.tx.id := e])
    ensures Total(Emplace(index, SlotOf(e)), txs[e.tx.id := e]) == Total(index, txs) + e.tx.weight
  {
    var k := Place(index, SlotOf(e));
    var t := InsertAt(index, k, SlotOf(e));
    assert SlotOf(e) !in index;
    EmplaceSorted(index, SlotOf(e));
    EmplaceLists(index, txs, e, k);
    assert Without(t, k) == index;
    TotalAround(t, k, txs[e.tx.id := e]);
    TotalFrame(index, txs, txs[e.tx.id := e]);
  }

  lemma {:induction false} ListsPosition(index: seq<Slot>, txs: map<TxId, Entry>, id: TxId)
    requires Lists(index, txs) && Stored(txs) && id in txs
    ensures Position(index, id) < |index|
  {
    assert Indexed(index, txs, id);
    var i :| 0 <= i < |index| && index[i] == SlotOf(txs[id]);
    assert index[i].id == id;
  }

  lemma {:induction false} ListsRemove(index: seq<Slot>, txs: map<TxId, Entry>, k: nat)
    requires Lists(index, txs) && Stored(txs) && k < |index|
    ensures Lists(Without(index, k), txs - {index[k].id})
    ensures Total(Without(index, k), txs - {index[k].id}) == Total(index, txs) - WeightOf(txs, index[k].id)
  {
    var t := Without(index, k);
    var txs' := txs - {index[k].id};
    OnceWithout(index, k);
    SortedWithout(index, k);
    TotalAround(index, k, txs);
    TotalFrame(t, txs, txs');
    forall id | id in txs'
      ensures Indexed(t, txs', id)
    {
      assert Indexed(index, txs, id);
      var i :| 0 <= i < |index| && index[i] == SlotOf(txs[id]);
      assert i != k;
      assert t[if i < k then i else i - 1] == index[i];
    }
  }

  /** Adding an id that is not stored keeps the pool consistent. */
  lemma {:induction false} InsertWF(p: Pool, e: Entry)
    requires WF(p) && Poolable(e.tx) && e.tx.id !in p.txs
    ensures WF(Insert(p, e))
  {
    ListsInsert(p.index, p.txs, e);
    SpendInverse(p.spent, p.txs, e);
  }

  lemma {:induction false} DropWF(p: Pool, k: nat)
    requires WF(p) && k < |p.index|
    ensures WF(DropSlot(p, k))
    ensures DropSlot(p, k).txs == p.txs - {p.index[k].id}
  {
    ListsRemove(p.index, p.txs, k);
    UnspendInverse(p.spent, p.txs, p.index[k].id);
  }

  /** Removing a stored id keeps the pool consistent; the weight cannot run below zero. */
  lemma {:induction false} RemoveWF(p: Pool, id: TxId)
    requires WF(p) && id in p.txs
    ensures WF(Remove(p, id))
    ensures Remove(p, id).txs == p.txs - {id}
    ensures p.txs[id].tx.weight <= p.weight
  {
    ListsPosition(p.index, p.txs, id);
    TotalAround(p.index, Position(p.index, id), p.txs);
    DropWF(p, Position(p.index, id));
  }
}
