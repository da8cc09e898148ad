/** Transactions moving between chain and pool: nothing is lost on the way. */
module Transit {
  import opened Ledger
  import opened Chain
  import opened MemPool
  import opened PoolSteps
  import opened Reorg

  ghost predicate AllSound(r: Rules, txs: map<TxId, Entry>) {
    forall id :: id in txs ==> r.sound(txs[id].tx)
  }

  ghost predicate PoolOk(r: Rules, p: Pool) {
    WF(p) && AllSound(r, p.txs)
  }

  /** No transaction is both on the chain and in the pool. */
  ghost predicate Apart(c: seq<Record>, p: Pool) {
    forall id :: id in p.txs ==> id !in TxIds(c)
  }

  /** The transaction is on the main chain, or in the pool where pruning cannot reach it. */
  ghost predicate Safe(s: State, tx: Tx) {
    tx in TxSet(s.main) || Kept(s.pool, tx)
  }

  /** Whatever was safe in `s` is safe in `t`. */
  ghost predicate NothingLost(s: State, t: State) {
    forall tx {:trigger Safe(t, tx)} :: Safe(s, tx) ==> Safe(t, tx)
  }

  lemma {:induction false} NothingLostTrans(s: State, t: State, u: State)
    requires NothingLost(s, t) && NothingLost(t, u)
    ensures NothingLost(s, u)
  {
    forall tx | Safe(s, tx) ensures Safe(u, tx) { assert Safe(t, tx); }
  }

  ghost function IdSet(txs: seq<Tx>): set<TxId> { set x | x in Ids(txs) }

  /** `txs` come from `p`, which becomes `q` without them. */
  ghost predicate TakenFrom(p: Pool, q: Pool, txs: seq<Tx>) {
    && Distinct(Ids(txs))
    && (forall i :: 0 <= i < |txs| ==> txs[i].id in p.txs && p.txs[txs[i].id].tx == txs[i])
    && q.txs == p.txs - IdSet(txs)
  }

  lemma {:induction false} TakenPush(p: Pool, p': Pool, q: Pool, tx: Tx, more: seq<Tx>)
    requires tx.id in p.txs && p.txs[tx.id].tx == tx && p'.txs == p.txs - {tx.id}
    requires TakenFrom(p', q, more)
    ensures TakenFrom(p, q, [tx] + more)
  {
    var txs := [tx] + more;
    forall i, j | 0 <= i < j < |txs| ensures Ids(txs)[i] != Ids(txs)[j] {
      assert Ids(txs)[j] == Ids(more)[j - 1] && more[j - 1].id in p'.txs;
      assert i != 0 ==> Ids(txs)[i] == Ids(more)[i - 1];
    }
    assert IdSet(txs) == {tx.id} + IdSet(more) by {
      assert Ids(txs) == [tx.id] + Ids(more);
    }
  }

  ghost predicate Checked(r: Rules, c: seq<Record>, txs: seq<Tx>) {
    forall i :: 0 <= i < |txs| ==> txs[i].id !in TxIds(c) && r.inputs(c, txs[i])
  }

  /** What the taking loop has taken, and what that means for the pool. */
  ghost predicate Took(r: Rules, c: seq<Record>, ids: seq<TxId>, p: Pool, got: seq<Tx>, t: Taken, more: seq<Tx>) {
    && t.txs == got + more
    && |more| <= |ids| && Ids(more) == ids[..|more|]
    && WF(t.pool) && TakenFrom(p, t.pool, more)
    && (t.status.AllTaken? ==> |more| == |ids| && Checked(r, c, more))
  }

  lemma {:induction false} TookPush(r: Rules, c: seq<Record>, ids: seq<TxId>, p: Pool, p': Pool, got: seq<Tx>, t: Taken, tx: Tx, rest: seq<Tx>)
    requires ids != [] && tx.id == ids[0] && tx.id !in TxIds(c)
    requires tx.id in p.txs && p.txs[tx.id].tx == tx && p'.txs == p.txs - {tx.id}
    requires t.status.AllTaken? ==> r.inputs(c, tx)
    requires Took(r, c, ids[1..], p', got + [tx], t, rest)
    ensures Took(r, c, ids, p, got, t, [tx] + rest)
  {
    TakenPush(p, p', t.pool, tx, rest);
    assert got + [tx] + rest == got + ([tx] + rest);
    assert Ids([tx] + rest) == [tx.id] + Ids(rest) == ids[..|rest| + 1];
  }

  lemma {:induction false} TakeFacts(r: Rules, c: seq<Record>, ids: seq<TxId>, p: Pool, got: seq<Tx>)
    returns (more: seq<Tx>)
    requires WF(p)
    ensures Took(r, c, ids, p, got, TakeTxs(r, c, ids, p, got), more)
    decreases |ids|
  {
    var t := TakeTxs(r, c, ids, p, got);
    if ids == [] || ids[0] in TxIds(c) || ids[0] !in p.txs {
      more := [];
      assert p.txs - IdSet([]) == p.txs;
    } else {
      var tx := p.txs[ids[0]].tx;
      var p' := Remove(p, ids[0]);
      RemoveWF(p, ids[0]);
      if !r.inputs(c, tx) {
        more := [];
        assert p'.txs - IdSet([]) == p'.txs;
      } else {
        more := TakeFacts(r, c, ids[1..], p', got + [tx]);
      }
      TookPush(r, c, ids, p, p', got, t, tx, more);
      more := [tx] + more;
    }
  }

  /** Transactions that are there, new to the chain and valid are all taken. */
  lemma {:induction false} TakeSucceeds(r: Rules, c: seq<Record>, txs: seq<Tx>, p: Pool, got: seq<Tx>)
    requires WF(p) && TxsOk(r, c, txs)
    requires forall i :: 0 <= i < |txs| ==> txs[i].id in p.txs && p.txs[txs[i].id].tx == txs[i]
    ensures TakeTxs(r, c, Ids(txs), p, got).status.AllTaken?
    ensures TakeTxs(r, c, Ids(txs), p, got).txs == got + txs
    decreases |txs|
  {
    if txs != [] {
      assert Ids(txs)[1..] == Ids(txs[1..]);
      assert Ids(txs)[0] == txs[0].id;
      var p' := Remove(p, txs[0].id);
      RemoveWF(p, txs[0].id);
      assert TxsOk(r, c, txs[1..]);
      forall i | 0 <= i < |txs[1..]| ensures txs[1..][i].id in p'.txs && p'.txs[txs[1..][i].id].tx == txs[1..][i] {
        assert Ids(txs)[0] != Ids(txs)[i + 1];
      }
      TakeSucceeds(r, c, txs[1..], p', got + [txs[0]]);
      assert got + [txs[0]] + txs[1..] == got + txs;
    }
  }

  /** Transactions that can be given to the pool `p`. */
  ghost predicate Returnable(r: Rules, p: Pool, txs: seq<Tx>) {
    && Distinct(Ids(txs))
    && forall i :: 0 <= i < |txs| ==> txs[i].id !in p.txs && Poolable(txs[i]) && r.sound(txs[i])
  }

  /** `q` keeps all of `txs`, everything `p` kept, and holds nothing else. */
  ghost predicate Returned(p: Pool, q: Pool, txs: seq<Tx>) {
    && (forall i :: 0 <= i < |txs| ==> Kept(q, txs[i]))
    && (forall x {:trigger Kept(q, x)} :: Kept(p, x) ==> Kept(q, x))
    && Within(q, p, IdSet(txs))
  }

  lemma {:induction false} ReturnedPush(p: Pool, p': Pool, q: Pool, tx: Tx, rest: seq<Tx>)
    requires Kept(p', tx) && Within(p', p, {tx.id})
    requires forall x {:trigger Kept(p', x)} :: Kept(p, x) ==> Kept(p', x)
    requires Returned(p', q, rest)
    ensures Returned(p, q, [tx] + rest)
  {
    var txs := [tx] + rest;
    assert Ids(txs) == [tx.id] + Ids(rest);
    forall x | Kept(p, x) ensures Kept(q, x) { assert Kept(p', x); }
    forall id | id in q.txs && id !in IdSet(txs) ensures id in p.txs && q.txs[id] == p.txs[id] {
      assert id !in IdSet(rest);
    }
  }

  lemma {:induction false} ReturnFacts(r: Rules, c: seq<Record>, p: Pool, txs: seq<Tx>, now: nat)
    requires PoolOk(r, p) && Returnable(r, p, txs)
    ensures PoolOk(r, ReturnTxs(r, c, p, txs, now))
    ensures Returned(p, ReturnTxs(r, c, p, txs, now), txs)
    decreases |txs|
  {
    if txs != [] {
      var o := FromBlockOffer(r, c, txs[0]);
      var p' := AddTx(p, o, now);
      AddTxWF(p, o, now);
      assert Kept(p', txs[0]);
      forall i | 0 <= i < |txs[1..]|
        ensures txs[1..][i].id !in p'.txs
      {
        assert Ids(txs)[0] != Ids(txs)[i + 1];
      }
      assert Ids(txs)[1..] == Ids(txs[1..]);
      ReturnFacts(r, c, p', txs[1..], now);
      ReturnedPush(p, p', ReturnTxs(r, c, p, txs, now), txs[0], txs[1..]);
      assert [txs[0]] + txs[1..] == txs;
    }
  }

  lemma {:induction false} ReverseIds(txs: seq<Tx>)
    ensures IdSet(Reverse(txs)) == IdSet(txs)
    ensures Distinct(Ids(txs)) ==> Distinct(Ids(Reverse(txs)))
  {
    var rev := Reverse(txs);
    forall x | x in IdSet(txs) ensures x in IdSet(rev) {
      var i :| 0 <= i < |txs| && Ids(txs)[i] == x;
      assert Ids(rev)[|txs| - 1 - i] == x;
    }
    if Distinct(Ids(txs)) {
      forall i, j | 0 <= i < j < |rev| ensures Ids(rev)[i] != Ids(rev)[j] {
        assert Ids(txs)[|txs| - 1 - j] != Ids(txs)[|txs| - 1 - i];
      }
    }
  }

  /** Taking transactions and giving them back leaves the pool with all of them and no others. */
  lemma {:induction false} TakeThenReturn(r: Rules, c: seq<Record>, p: Pool, q: Pool, txs: seq<Tx>, now: nat)
    requires PoolOk(r, p) && WF(q) && TakenFrom(p, q, txs)
    ensures PoolOk(r, ReturnTxs(r, c, q, txs, now))
    ensures forall x {:trigger Kept(p, x)} :: Kept(p, x) ==> Kept(ReturnTxs(r, c, q, txs, now), x)
    ensures forall i :: 0 <= i < |txs| ==> Kept(ReturnTxs(r, c, q, txs, now), txs[i])
    ensures forall id :: id in ReturnTxs(r, c, q, txs, now).txs ==> id in p.txs
  {
    var u := ReturnTxs(r, c, q, txs, now);
    forall i | 0 <= i < |txs| ensures txs[i].id !in q.txs && Poolable(txs[i]) && r.sound(txs[i]) {
      assert Ids(txs)[i] in IdSet(txs);
    }
    ReturnFacts(r, c, q, txs, now);
    forall x | Kept(p, x) ensures Kept(u, x) {
      if x.id in IdSet(txs) {
        var i :| 0 <= i < |txs| && Ids(txs)[i] == x.id;
        assert x == txs[i];
      } else {
        assert Kept(q, x);
      }
    }
    forall id | id in u.txs ensures id in p.txs {
      if id in IdSet(txs) {
        var i :| 0 <= i < |txs| && Ids(txs)[i] == id;
        assert txs[i].id in p.txs;
      }
    }
  }
}
