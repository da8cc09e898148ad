/**
 The memory pool as the object that is updated in place. Every method is proved to do what the
 functions of `MemPool` and `PoolSteps` say.
 */
module PoolObject {
  import opened Ledger
  import opened MemPool
  import opened PoolSteps
  import Chain
  import Emission
  import Template

  // ---------- key images, one at a time ----------

  /** The spent-image map refuses image `k` for transaction `id`. */
  predicate Refuses(spent: map<Image, set<TxId>>, k: Image, id: TxId, fromBlock: bool, seen: bool) {
    k in spent && ((!fromBlock && spent[k] != {} && spent[k] != {id}) || (id in spent[k] && seen))
  }

  lemma {:induction false} SpendNone(spent: map<Image, set<TxId>>, id: TxId)
    ensures Spend(spent, [], id) == spent
  {
    forall x | x in spent ensures Spend(spent, [], id)[x] == spent[x] { }
  }

  /** Recording one image more. */
  function SpendOne(spent: map<Image, set<TxId>>, k: Image, id: TxId): map<Image, set<TxId>> {
    spent[k := (if k in spent then spent[k] else {}) + {id}]
  }

  lemma {:induction false} SpendPush(spent: map<Image, set<TxId>>, images: seq<Image>, k: Image, id: TxId)
    requires k !in images
    ensures k in Spend(spent, images, id) <==> k in spent
    ensures k in spent ==> Spend(spent, images, id)[k] == spent[k]
    ensures Spend(spent, images + [k], id) == SpendOne(Spend(spent, images, id), k, id)
  {
    var s, t := Spend(spent, images, id), Spend(spent, images + [k], id);
    forall x | x in t ensures x in SpendOne(s, k, id) && t[x] == SpendOne(s, k, id)[x] {
      assert x in images + [k] <==> x in images || x == k;
    }
    forall x | x in SpendOne(s, k, id) ensures x in t {
      assert x in images + [k] <==> x in images || x == k;
    }
  }

  lemma {:induction false} SpendNext(spent: map<Image, set<TxId>>, images: seq<Image>, i: nat, id: TxId)
    requires i < |images| && Distinct(images)
    ensures var s, k := Spend(spent, images[..i], id), images[i];
            && (k in s <==> k in spent) && (k in spent ==> s[k] == spent[k])
            && Spend(spent, images[..i + 1], id) == SpendOne(s, k, id)
  {
    assert images[..i + 1] == images[..i] + [images[i]];
    SpendPush(spent, images[..i], images[i], id);
  }

  /** `spent` is `was` with `id` recorded under its first `i` images, none of which was refused. */
  ghost predicate Entered(was: map<Image, set<TxId>>, spent: map<Image, set<TxId>>, images: seq<Image>, i: nat, id: TxId,
                          fromBlock: bool, seen: bool)
  {
    && i <= |images| && spent == Spend(was, images[..i], id)
    && forall j :: 0 <= j < i ==> !Refuses(was, images[j], id, fromBlock, seen)
  }

  lemma {:induction false} EnteredNext(was: map<Image, set<TxId>>, spent: map<Image, set<TxId>>, images: seq<Image>, i: nat, id: TxId,
                                       fromBlock: bool, seen: bool)
    requires Distinct(images) && i < |images| && Entered(was, spent, images, i, id, fromBlock, seen)
    ensures images[i] in spent <==> images[i] in was
    ensures images[i] in spent ==> spent[images[i]] == was[images[i]]
    ensures !Refuses(was, images[i], id, fromBlock, seen) ==>
              Entered(was, SpendOne(spent, images[i], id), images, i + 1, id, fromBlock, seen)
  {
    SpendNext(was, images, i, id);
  }

  lemma {:induction false} UnspendPush(spent: map<Image, set<TxId>>, images: seq<Image>, i: nat, id: TxId)
    requires i < |images| && Distinct(images)
    ensures var s := Unspend(spent, images[..i], id);
            var k := images[i];
            && (k in s <==> k in spent) && (k in s ==> s[k] == spent[k])
            && (k in s && id in s[k] ==>
                  Unspend(spent, images[..i + 1], id) == if s[k] - {id} == {} then s - {k} else s[k := s[k] - {id}])
  {
    var s := Unspend(spent, images[..i], id);
    var k := images[i];
    assert images[..i + 1] == images[..i] + [k];
    assert k !in images[..i];
    if k in s && id in s[k] {
      assert s[k] - {id} == {} <==> s[k] == {id};
    }
  }

  /** The images of a stored transaction are all spent by it. */
  lemma {:induction false} StoredSpends(p: Pool, id: TxId, i: nat)
    requires Inverse(p.spent, p.txs) && id in p.txs && i < |p.txs[id].tx.images|
    ensures p.txs[id].tx.images[i] in p.spent && id in p.spent[p.txs[id].tx.images[i]]
  {
    assert Uses(p.txs, p.txs[id].tx.images[i], id);
    assert Spends(p.spent, p.txs[id].tx.images[i], id);
  }

  /** When the pool accepts an offer, no image is refused; when it is refused late, the first one is. */
  lemma {:induction false} InsertNeverStops(p: Pool, o: Offer, i: nat)
    requires WF(p) && Accepts(p, o) && i < |o.tx.images|
    ensures !Refuses(p.spent, o.tx.images[i], o.tx.id, o.relay.FromBlock?,
                     !o.inputsOk && o.tx.id in p.txs && !p.txs[o.tx.id].relay.Local?)
  {
    var k := o.tx.images[i];
    if !o.relay.FromBlock? && k in p.spent {
      assert !ImageTaken(p, k, o.tx.id);
    }
  }

  /** The checks that come before the key images are recorded. */
  predicate Admits(p: Pool, o: Offer) {
    && o.sound && o.tx.weight <= TX_WEIGHT_LIMIT
    && (o.relay.FromBlock? ||
        (&& o.tx.id !in p.timedOut && FeeOk(o.tx.weight, o.tx.fee) && o.inputsOk
         && (forall i :: 0 <= i < |o.tx.images| ==> !ImageTaken(p, o.tx.images[i], o.tx.id))))
  }

  lemma {:induction false} InsertStopsAtOnce(p: Pool, o: Offer)
    requires WF(p) && Admits(p, o) && !Accepts(p, o) && (o.tx.id in p.txs ==> p.txs[o.tx.id].tx == o.tx)
    ensures o.tx.images != [] && o.tx.id in p.txs && !o.inputsOk && !p.txs[o.tx.id].relay.Local?
    ensures Refuses(p.spent, o.tx.images[0], o.tx.id, o.relay.FromBlock?, true)
  {
    StoredSpends(p, o.tx.id, 0);
  }

  // ---------- the object ----------

  /** The spent images and stored transactions agree; what removal needs. */
  ghost predicate Tidy(p: Pool) {
    Stored(p.txs) && Inverse(p.spent, p.txs)
  }

  lemma {:induction false} TidyDrop(p: Pool, k: nat)
    requires Tidy(p) && k < |p.index|
    ensures Tidy(DropSlot(p, k))
  {
    if p.index[k].id in p.txs {
      UnspendInverse(p.spent, p.txs, p.index[k].id);
    } else {
      assert p.txs - {p.index[k].id} == p.txs;
    }
  }

  lemma {:induction false} TidyInsert(p: Pool, e: Entry)
    requires Tidy(p) && Poolable(e.tx) && (e.tx.id in p.txs ==> p.txs[e.tx.id].tx == e.tx)
    ensures Tidy(Insert(p, e))
  {
    var q := Insert(p, e);
    forall k, id ensures Spends(q.spent, k, id) <==> Uses(q.txs, k, id) {
      assert Spends(p.spent, k, id) <==> Uses(p.txs, k, id);
    }
  }

  // ---------- expiry ----------

  /** The slots whose ids are not in `ids`. */
  ghost function KeepOut(s: seq<Slot>, ids: set<TxId>): seq<Slot> {
    if s == [] then []
    else if s[0].id in ids then KeepOut(s[1..], ids)
    else [s[0]] + KeepOut(s[1..], ids)
  }

  lemma {:induction false} KeepOutNone(s: seq<Slot>)
    ensures KeepOut(s, {}) == s
  {
    if s != [] { KeepOutNone(s[1..]); }
  }

  lemma {:induction false} KeepOutLast(s: seq<Slot>, x: Slot, ids: set<TxId>)
    ensures KeepOut(s + [x], ids) == KeepOut(s, ids) + if x.id in ids then [] else [x]
  {
    if s == [] {
      assert s + [x] == [x] && [x][1..] == [];
    } else {
      KeepOutLast(s[1..], x, ids);
      assert (s + [x])[1..] == s[1..] + [x];
    }
  }

  lemma {:induction false} KeepOutOther(s: seq<Slot>, ids: set<TxId>, id: TxId)
    requires forall i :: 0 <= i < |s| ==> s[i].id != id
    ensures KeepOut(s, ids + {id}) == KeepOut(s, ids)
    ensures Position(KeepOut(s, ids), id) == |KeepOut(s, ids)|
  {
    if s != [] {
      KeepOutOther(s[1..], ids, id);
      var rest := KeepOut(s[1..], ids);
      assert ([s[0]] + rest)[1..] == rest;
    }
  }

  ghost function DropId(t: seq<Slot>, id: TxId): seq<Slot> {
    var k := Position(t, id);
    if k < |t| then Without(t, k) else t
  }

  lemma {:induction false} DropIdFirst(x: Slot, t: seq<Slot>, id: TxId)
    ensures DropId([x] + t, id) == if x.id == id then t else [x] + DropId(t, id)
  {
    var s := [x] + t;
    assert s[1..] == t;
    if x.id == id {
      assert Without(s, 0) == t;
    } else {
      var k := Position(t, id);
      assert Position(s, id) == k + 1;
      if k < |t| { assert Without(s, k + 1) == [x] + Without(t, k); }
    }
  }

  lemma {:induction false} OnceTail(s: seq<Slot>)
    requires OncePerId(s) && s != []
    ensures OncePerId(s[1..])
    ensures forall i :: 0 <= i < |s[1..]| ==> s[1..][i].id != s[0].id
  {
    forall i, j | 0 <= i < j < |s[1..]| ensures !SameId(s[1..], i, j) { assert !SameId(s, i + 1, j + 1); }
    forall i | 0 <= i < |s[1..]| ensures s[1..][i].id != s[0].id { assert !SameId(s, 0, i + 1); }
  }

  /** Keeping one id more out takes its only slot away. */
  lemma {:induction false} KeepOutMore(s: seq<Slot>, ids: set<TxId>, id: TxId)
    requires OncePerId(s) && id !in ids
    ensures KeepOut(s, ids + {id}) == DropId(KeepOut(s, ids), id)
  {
    if s != [] {
      OnceTail(s);
      DropIdFirst(s[0], KeepOut(s[1..], ids), id);
      if s[0].id == id {
        KeepOutOther(s[1..], ids, id);
      } else {
        KeepOutMore(s[1..], ids, id);
      }
    }
  }

  /** Among the first `i` slots, `dead` has exactly the stale ids. */
  ghost predicate DeadBelow(index: seq<Slot>, txs: map<TxId, Entry>, i: nat, dead: set<TxId>, now: nat)
    requires i <= |index|
  {
    forall j :: 0 <= j < i ==> (index[j].id in dead <==> StaleId(txs, index[j].id, now))
  }

  lemma {:induction false} DeadBelowDrop(index: seq<Slot>, txs: map<TxId, Entry>, i: nat, dead: set<TxId>, now: nat)
    requires OncePerId(index) && i < |index| && DeadBelow(index, txs, i + 1, dead, now)
    ensures OncePerId(Without(index, i)) && DeadBelow(Without(index, i), txs - {index[i].id}, i, dead, now)
    ensures Without(index, i)[..i] == index[..i] && Without(index, i)[i..] == index[i + 1..]
  {
    OnceWithout(index, i);
    forall j | 0 <= j < i
      ensures Without(index, i)[j].id in dead <==> StaleId(txs - {index[i].id}, Without(index, i)[j].id, now)
    {
      assert Without(index, i)[j] == index[j] && index[j].id != index[i].id;
    }
  }

  lemma {:induction false} KeepOutBoundary(s: seq<Slot>, i: nat, ids: set<TxId>)
    requires 0 < i <= |s|
    ensures KeepOut(s[..i], ids) + s[i..]
         == KeepOut(s[..i - 1], ids) + if s[i - 1].id in ids then s[i..] else s[i - 1..]
  {
    assert s[..i] == s[..i - 1] + [s[i - 1]];
    KeepOutLast(s[..i - 1], s[i - 1], ids);
    assert s[i - 1..] == [s[i - 1]] + s[i..];
  }

  lemma {:induction false} ExpireKeepsOut(p: Pool, i: nat, now: nat, dead: set<TxId>)
    requires OncePerId(p.index) && i <= |p.index| && DeadBelow(p.index, p.txs, i, dead, now)
    ensures ExpireBelow(p, i, now).index == KeepOut(p.index[..i], dead) + p.index[i..]
    decreases i
  {
    if i != 0 {
      var x := p.index[i - 1];
      KeepOutBoundary(p.index, i, dead);
      if StaleId(p.txs, x.id, now) {
        DeadBelowDrop(p.index, p.txs, i - 1, dead, now);
        ExpireKeepsOut(DropSlot(p, i - 1).(timedOut := p.timedOut + {x.id}), i - 1, now, dead);
      } else {
        ExpireKeepsOut(p, i - 1, now, dead);
      }
    }
  }

  lemma {:induction false} SameSpent(a: map<Image, set<TxId>>, b: map<Image, set<TxId>>, txs: map<TxId, Entry>)
    requires Inverse(a, txs) && Inverse(b, txs)
    ensures forall k :: k in a ==> k in b && a[k] <= b[k]
  {
    forall k | k in a ensures k in b && a[k] <= b[k] {
      var id :| id in a[k];
      forall x | x in a[k] ensures Spends(b, k, x) {
        assert Spends(a, k, x);
        assert Uses(txs, k, x);
      }
      assert Spends(b, k, id);
    }
  }

  /** The transactions and the index fix a consistent pool. */
  lemma {:induction false} SamePool(p: Pool, q: Pool)
    requires WF(p) && WF(q) && p.txs == q.txs && p.index == q.index
    ensures p.spent == q.spent && p.weight == q.weight
  {
    SameSpent(p.spent, q.spent, p.txs);
    SameSpent(q.spent, p.spent, p.txs);
    forall k | k in p.spent ensures p.spent[k] == q.spent[k] { }
  }

  lemma {:induction false} RemoveUnfolds(p: Pool, id: TxId)
    requires WF(p) && id in p.txs
    ensures WF(Remove(p, id)) && Remove(p, id).txs == p.txs - {id}
    ensures Remove(p, id).spent == Unspend(p.spent, p.txs[id].tx.images, id)
    ensures Remove(p, id).weight == p.weight - WeightOf(p.txs, id)
    ensures Remove(p, id).index == DropId(p.index, id)
  {
    ListsPosition(p.index, p.txs, id);
    RemoveWF(p, id);
  }

  /** `p` is `was` without the transactions `gone`. */
  ghost predicate Halfway(was: Pool, p: Pool, gone: set<TxId>) {
    WF(p) && p.txs == was.txs - gone && p.index == KeepOut(was.index, gone)
  }

  lemma {:induction false} HalfwayNext(was: Pool, p: Pool, gone: set<TxId>, id: TxId)
    requires WF(was) && Halfway(was, p, gone) && id in was.txs && id !in gone
    ensures Halfway(was, Remove(p, id), gone + {id})
    ensures id in p.txs && Remove(p, id).txs == p.txs - {id}
    ensures Remove(p, id).spent == Unspend(p.spent, p.txs[id].tx.images, id)
    ensures Remove(p, id).weight == p.weight - WeightOf(p.txs, id)
  {
    RemoveUnfolds(p, id);
    KeepOutMore(was.index, gone, id);
  }

  /** The ids of the stale transactions. */
  ghost predicate AreStale(p: Pool, dead: set<TxId>, now: nat) {
    forall id :: id in dead <==> StaleId(p.txs, id, now)
  }

  lemma {:induction false} ExpireIs(p: Pool, q: Pool, dead: set<TxId>, now: nat)
    requires WF(p) && WF(q) && AreStale(p, dead, now)
    requires q.txs == p.txs - dead && q.index == KeepOut(p.index, dead)
    requires q.timedOut == p.timedOut + dead && q.limit == p.limit
    ensures q == Expire(p, now)
  {
    var e := Expire(p, now);
    ExpireDrops(p, now);
    ExpireKeepsOut(p, |p.index|, now, dead);
    assert p.index[..|p.index|] == p.index && e.index == KeepOut(p.index, dead);
    forall id ensures id in e.txs <==> id in q.txs { assert id in dead <==> StaleId(p.txs, id, now); }
    assert e.txs == q.txs;
    forall id ensures id in e.timedOut <==> id in q.timedOut { assert id in dead <==> StaleId(p.txs, id, now); }
    assert e.timedOut == q.timedOut;
    SamePool(e, q);
    ExpireLimit(p, |p.index|, now);
  }

  lemma {:induction false} ExpireLimit(p: Pool, i: nat, now: nat)
    requires i <= |p.index|
    ensures ExpireBelow(p, i, now).limit == p.limit
    decreases i
  {
    if i != 0 {
      if StaleId(p.txs, p.index[i - 1].id, now) {
        ExpireLimit(DropSlot(p, i - 1).(timedOut := p.timedOut + {p.index[i - 1].id}), i - 1, now);
      } else {
        ExpireLimit(p, i - 1, now);
      }
    }
  }

  class TxPool {
    var txs: map<TxId, Entry>
    var spent: map<Image, set<TxId>>
    var index: seq<Slot>
    var weight: int
    var limit: nat
    var timedOut: set<TxId>

    function State(): Pool
      reads this
    {
      Pool(txs, spent, index, weight, limit, timedOut)
    }

    ghost predicate Valid()
      reads this
    {
      WF(State())
    }

    constructor(bytes: nat)
      ensures Valid() && State() == Pool(map[], map[], [], 0, bytes, {})
    {
      txs, spent, index, weight, limit, timedOut := map[], map[], [], 0, bytes, {};
    }

    /** Record `id` under its key images, up to the first image that is refused. */
    method InsertImages(images: seq<Image>, id: TxId, fromBlock: bool, seen: bool) returns (ok: bool, ghost count: nat)
      requires Distinct(images)
      modifies this`spent
      ensures count <= |images| && (ok <==> count == |images|)
      ensures spent == Spend(old(spent), images[..count], id)
      ensures forall i :: 0 <= i < count ==> !Refuses(old(spent), images[i], id, fromBlock, seen)
      ensures !ok ==> Refuses(old(spent), images[count], id, fromBlock, seen)
    {
      var i := 0;
      ghost var was := spent;
      SpendNone(spent, id);
      while i < |images|
        invariant 0 <= i && Entered(was, spent, images, i, id, fromBlock, seen)
      {
        EnteredNext(was, spent, images, i, id, fromBlock, seen);
        var k := images[i];
        var holders := if k in spent then spent[k] else {};
        if !fromBlock && holders != {} && holders != {id} { return false, i; }
        if id in holders && seen { return false, i; }
        spent := spent[k := holders + {id}];
        i := i + 1;
      }
      return true, i;
    }

    /** Forget `id` under its key images; stops at an image that `id` does not hold. */
    method RemoveImages(images: seq<Image>, id: TxId) returns (ok: bool, ghost count: nat)
      requires Distinct(images)
      modifies this`spent
      ensures count <= |images| && (ok <==> count == |images|)
      ensures spent == Unspend(old(spent), images[..count], id)
      ensures !ok ==> !(images[count] in old(spent) && id in old(spent)[images[count]])
    {
      var i := 0;
      assert spent == Unspend(spent, images[..0], id);
      while i < |images|
        invariant i <= |images|
        invariant spent == Unspend(old(spent), images[..i], id)
      {
        var k := images[i];
        UnspendPush(old(spent), images, i, id);
        if k !in spent || id !in spent[k] { return false, i; }
        var rest := spent[k] - {id};
        spent := if rest == {} then spent - {k} else spent[k := rest];
        i := i + 1;
      }
      return true, i;
    }

    /** Delete the stored transaction `id` together with its weight and key images. */
    method Delete(id: TxId)
      requires Tidy(State()) && id in txs
      modifies this`txs, this`weight, this`spent
      ensures txs == old(txs) - {id}
      ensures weight == old(weight) - WeightOf(old(txs), id)
      ensures spent == Unspend(old(spent), old(txs)[id].tx.images, id)
    {
      var tx := txs[id].tx;
      ghost var p := State();
      txs := txs - {id};
      weight := weight - tx.weight;
      var ok, count := RemoveImages(tx.images, id);
      if !ok { StoredSpends(p, id, count); }
      assert tx.images[..|tx.images|] == tx.images;
    }

    /** Take the transaction of slot `i` out of the pool. */
    method DropAt(i: nat)
      requires Tidy(State()) && i < |index| && index[i].id in txs
      modifies this`txs, this`weight, this`spent, this`index
      ensures State() == DropSlot(old(State()), i) && Tidy(State())
    {
      TidyDrop(State(), i);
      Delete(index[i].id);
      index := Without(index, i);
    }

    /** Drop from the back of the index until the weight fits; what came from a block stays. */
    method Prune(bytes: nat)
      requires Tidy(State())
      modifies this`txs, this`weight, this`spent, this`index
      ensures State() == PoolSteps.Prune(old(State()), if bytes == 0 then old(limit) else bytes)
    {
      if index == [] { return; }
      var target := if bytes == 0 then limit else bytes;
      ghost var pruned := PoolSteps.Prune(State(), target);
      var i := |index| - 1;
      while i != 0
        invariant 0 <= i < |index| && limit == old(limit) && timedOut == old(timedOut)
        invariant Tidy(State()) && PruneAt(State(), i, target) == pruned
      {
        if weight <= target || index[i].id !in txs { break; }
        if !txs[index[i].id].relay.FromBlock? { DropAt(i); }
        i := i - 1;
      }
    }

    /** Whether the pool has an image of `tx` as spent. */
    method HasSpentImage(tx: Tx) returns (taken: bool)
      ensures taken <==> exists i :: 0 <= i < |tx.images| && ImageTaken(State(), tx.images[i], tx.id)
    {
      for i := 0 to |tx.images|
        invariant forall j :: 0 <= j < i ==> !ImageTaken(State(), tx.images[j], tx.id)
      {
        var k := tx.images[i];
        if k in spent && spent[k] != {} {
          if spent[k] != {tx.id} { return true; }
          if tx.id in txs && !txs[tx.id].relay.Local? { return true; }
        }
      }
      return false;
    }

    /** The checks on an offer, in the order in which they are made. */
    method Check(o: Offer) returns (ok: bool)
      ensures ok <==> Admits(State(), o)
    {
      var fromBlock := o.relay.FromBlock?;
      if !fromBlock && o.tx.id in timedOut { return false; }
      if !o.sound { return false; }
      if !fromBlock && !FeeOk(o.tx.weight, o.tx.fee) { return false; }
      if TX_WEIGHT_LIMIT < o.tx.weight { return false; }
      if !fromBlock {
        var taken := HasSpentImage(o.tx);
        if taken { return false; }
      }
      return o.inputsOk || fromBlock;
    }

    /** Enter the key images of a checked offer; all of them, or none. */
    method Enter(o: Offer) returns (ok: bool)
      requires Valid() && Poolable(o.tx) && Admits(State(), o)
      requires o.tx.id in txs ==> txs[o.tx.id].tx == o.tx
      modifies this`spent
      ensures ok <==> Accepts(old(State()), o)
      ensures spent == if ok then Spend(old(spent), o.tx.images, o.tx.id) else old(spent)
    {
      ghost var p := State();
      var seen := !o.inputsOk && o.tx.id in txs && !txs[o.tx.id].relay.Local?;
      ghost var count;
      ok, count := InsertImages(o.tx.images, o.tx.id, o.relay.FromBlock?, seen);
      if Accepts(p, o) {
        if !ok { InsertNeverStops(p, o, count); }
        assert o.tx.images[..|o.tx.images|] == o.tx.images;
      } else {
        InsertStopsAtOnce(p, o);
        assert o.tx.images[..count] == [];
        SpendNone(p.spent, o.tx.id);
      }
    }

    /** Offer a transaction: the checks, then the three structures and the weight, then pruning. */
    method AddTx(o: Offer, now: nat) returns (ok: bool)
      requires Valid() && Poolable(o.tx)
      requires o.tx.id in txs ==> txs[o.tx.id].tx == o.tx
      modifies this
      ensures State() == PoolSteps.AddTx(old(State()), o, now)
      ensures ok <==> Accepts(old(State()), o)
      ensures old(o.tx.id !in txs) ==> Valid()
    {
      ghost var p := State();
      ok := Check(o);
      if ok { ok := Enter(o); }
      if !ok { return; }
      txs := txs[o.tx.id := EntryOf(o, now)];
      index := Emplace(index, SlotOf(EntryOf(o, now)));
      weight := weight + o.tx.weight;
      assert State() == Insert(p, EntryOf(o, now));
      TidyInsert(p, EntryOf(o, now));
      Prune(limit);
      if o.tx.id !in p.txs { AddTxWF(p, o, now); }
    }

    /** Position of `id` in the index. */
    method FindSlot(id: TxId) returns (k: nat)
      ensures k == Position(index, id)
    {
      k := 0;
      while k < |index|
        invariant k <= |index|
        invariant forall j :: 0 <= j < k ==> index[j].id != id
      {
        if index[k].id == id { return; }
        k := k + 1;
      }
    }

    /** Hand out the transaction `id` and forget it. */
    method TakeTx(id: TxId) returns (tx: Option<Tx>)
      requires Valid()
      modifies this`txs, this`weight, this`spent, this`index
      ensures Valid()
      ensures tx == if id in old(txs) then Some(old(txs)[id].tx) else None
      ensures State() == if id in old(txs) then Remove(old(State()), id) else old(State())
    {
      var k := FindSlot(id);
      if id !in txs { return None; }
      RemoveWF(State(), id);
      ListsPosition(index, txs, id);
      tx := Some(txs[id].tx);
      Delete(id);
      if k < |index| { index := Without(index, k); }
    }

    /** Find the transactions that have been here too long; their slots go at once. */
    method MarkStuck(now: nat) returns (stuck: seq<TxId>, ghost dead: set<TxId>)
      requires Valid()
      modifies this`index, this`timedOut
      ensures Distinct(stuck) && (forall id :: id in dead <==> id in stuck)
      ensures AreStale(old(State()), dead, now)
      ensures index == KeepOut(old(index), dead) && timedOut == old(timedOut) + dead
    {
      var todo := txs.Keys;
      stuck, dead := [], {};
      KeepOutNone(index);
      while todo != {}
        invariant todo <= txs.Keys
        invariant Distinct(stuck) && (forall id :: id in dead <==> id in stuck)
        invariant forall id :: id in dead <==> StaleId(txs, id, now) && id !in todo
        invariant index == KeepOut(old(index), dead) && timedOut == old(timedOut) + dead
        decreases todo
      {
        var id :| id in todo;
        todo := todo - {id};
        if Stale(txs[id], now) {
          KeepOutMore(old(index), dead, id);
          var k := FindSlot(id);
          if k < |index| { index := Without(index, k); }
          timedOut := timedOut + {id};
          stuck := stuck + [id];
          dead := dead + {id};
        }
      }
    }

    /** Delete transactions whose slots are already gone; `was` is the pool before that. */
    method DeleteAll(ghost was: Pool, stuck: seq<TxId>, ghost dead: set<TxId>)
      requires WF(was) && Distinct(stuck) && (forall id :: id in dead <==> id in stuck)
      requires forall id :: id in dead ==> id in was.txs
      requires txs == was.txs && spent == was.spent && weight == was.weight && index == KeepOut(was.index, dead)
      modifies this`txs, this`weight, this`spent
      ensures Valid() && txs == was.txs - dead
    {
      ghost var p, gone: set<TxId> := was, {};
      KeepOutNone(was.index);
      for n := 0 to |stuck|
        invariant forall id :: id in gone <==> id in stuck[..n]
        invariant Halfway(was, p, gone) && p.txs == txs && p.spent == spent && p.weight == weight
      {
        var id := stuck[n];
        assert id in dead && id !in gone;
        HalfwayNext(was, p, gone, id);
        Delete(id);
        p := Remove(p, id);
        gone := gone + {id};
        assert stuck[..n + 1] == stuck[..n] + [id];
      }
      assert stuck[..|stuck|] == stuck;
      assert gone == dead;
    }

    /** Drop every transaction that has been here too long, and remember its id. */
    method RemoveStuck(now: nat)
      requires Valid()
      modifies this
      ensures Valid() && State() == Expire(old(State()), now)
    {
      ghost var was := State();
      var stuck, dead := MarkStuck(now);
      DeleteAll(was, stuck, dead);
      ExpireIs(was, State(), dead, now);
    }

    /** Choose the transactions of the next block; see `Template`. */
    method FillTemplate(job: Template.Job) returns (ids: seq<TxId>, total: nat, fee: nat, reward: nat)
      requires Valid()
      ensures ids == Ids(Template.Fill(State(), job, |index|))
      ensures total == Sum(Weights(Template.Fill(State(), job, |index|)))
      ensures fee == Sum(Fees(Template.Fill(State(), job, |index|))) % U64
      ensures reward == Template.Payout(job, Template.Fill(State(), job, |index|))
    {
      ghost var p := State();
      var used: set<Image> := {};
      ids, total, fee, reward := [], 0, 0, Emission.Reward(job.coins) % U64;
      for k := 0 to |index|
        invariant Tallies(job, Template.Fill(p, job, k), ids, total, fee, reward, used)
      {
        var id := index[k].id;
        ghost var chosen := Template.Fill(p, job, k);
        Template.FillNext(p, job, k);
        if id !in txs { continue; }
        var tx := txs[id].tx;
        var take, coinbase := Consider(job, tx, total, fee, reward, used, ids, chosen);
        if !take { continue; }
        TalliesPush(job, chosen, tx, ids, total, fee, reward, used);
        ids, total, fee, reward := ids + [id], total + tx.weight, (fee + tx.fee) % U64, coinbase;
        used := used + set x | x in tx.images;
      }
    }
  }

  /** The running figures of a template are those of the transactions chosen so far. */
  ghost predicate Tallies(job: Template.Job, chosen: seq<Tx>, ids: seq<TxId>, total: nat, fee: nat, reward: nat, used: set<Image>) {
    && ids == Ids(chosen) && total == Sum(Weights(chosen)) && fee == Sum(Fees(chosen)) % U64
    && reward == Template.Payout(job, chosen)
    && forall x :: x in used <==> x in Chain.ImagesOf(chosen)
  }

  lemma {:induction false} TalliesPush(job: Template.Job, chosen: seq<Tx>, tx: Tx, ids: seq<TxId>, total: nat, fee: nat, reward: nat, used: set<Image>)
    requires Tallies(job, chosen, ids, total, fee, reward, used)
    ensures Tallies(job, chosen + [tx], ids + [tx.id], total + tx.weight, (fee + tx.fee) % U64,
                    Template.Payout(job, chosen + [tx]), used + set x | x in tx.images)
  {
    Template.SumsPush(chosen, tx);
    Template.ImagesPush(chosen, tx);
    AddMod(0, Sum(Fees(chosen)), tx.fee);
  }

  /** Whether a transaction goes into the template, and what the coinbase then pays. */
  method Consider(job: Template.Job, tx: Tx, total: nat, fee: nat, reward: nat, used: set<Image>,
                  ghost ids: seq<TxId>, ghost chosen: seq<Tx>)
    returns (take: bool, coinbase: nat)
    requires Tallies(job, chosen, ids, total, fee, reward, used)
    ensures take <==> Template.Takes(job, chosen, tx)
    ensures coinbase == Template.Payout(job, chosen + [tx])
  {
    coinbase := (Emission.Reward(job.coins) + fee + tx.fee) % U64;
    Template.SumsPush(chosen, tx);
    AddMod(Emission.Reward(job.coins), Sum(Fees(chosen)), tx.fee);
    take := false;
    if Template.Room(job) < total + tx.weight { return; }
    if coinbase < job.threshold(reward) { return; }
    if !Template.Ready(job, tx) { return; }
    var clash := HasImage(used, tx.images);
    take := !clash;
  }

  lemma {:induction false} AddMod(r: nat, f: nat, x: nat)
    ensures (r + f % U64 + x) % U64 == (r + (f + x)) % U64
    ensures (f % U64 + x) % U64 == (f + x) % U64
  {
  }

  /** Whether any of `images` is in `used`. */
  method HasImage(used: set<Image>, images: seq<Image>) returns (found: bool)
    ensures found <==> exists i :: 0 <= i < |images| && images[i] in used
  {
    for i := 0 to |images|
      invariant forall j :: 0 <= j < i ==> images[j] !in used
    {
      if images[i] in used { return true; }
    }
    return false;
  }
}
