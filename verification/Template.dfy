/**
 Filling a block template: the pool is walked from the best fee rate down, and every transaction
 that still fits, is ready and spends nothing already chosen is taken.
 */
module Template {
  import opened Ledger
  import opened Chain
  import opened MemPool
  import Emission

  /**
   What the walk asks the chain: the height of the new block, the coin counter below it, the spent
   key images, whether the inputs of a transaction pass, and the least total that is accepted once
   a total is reached.
   */
  datatype Job = Job(height: nat, coins: nat, onChain: set<Image>, usable: Tx -> bool, threshold: nat -> nat)

  function Room(job: Job): nat { SizeBound(job.height) - COINBASE_RESERVED }

  /** Reward and fees of a template, in 64-bit arithmetic. */
  function Payout(job: Job, txs: seq<Tx>): nat {
    (Emission.Reward(job.coins) + Sum(Fees(txs))) % U64
  }

  predicate CutOff(job: Job, chosen: seq<Tx>, tx: Tx) {
    Payout(job, chosen + [tx]) < job.threshold(Payout(job, chosen))
  }

  predicate Ready(job: Job, tx: Tx) {
    job.usable(tx) && forall i :: 0 <= i < |tx.images| ==> tx.images[i] !in job.onChain
  }

  predicate Clashes(chosen: seq<Tx>, tx: Tx) {
    exists i :: 0 <= i < |tx.images| && tx.images[i] in ImagesOf(chosen)
  }

  predicate Takes(job: Job, chosen: seq<Tx>, tx: Tx) {
    && Sum(Weights(chosen)) + tx.weight <= Room(job)
    && !CutOff(job, chosen, tx)
    && Ready(job, tx)
    && !Clashes(chosen, tx)
  }

  /** The transactions chosen among the first `k` slots. */
  function Fill(p: Pool, job: Job, k: nat): seq<Tx>
    requires k <= |p.index|
  {
    if k == 0 then []
    else
      var chosen, id := Fill(p, job, k - 1), p.index[k - 1].id;
      if id in p.txs && Takes(job, chosen, p.txs[id].tx) then chosen + [p.txs[id].tx] else chosen
  }

  lemma {:induction false} FillNext(p: Pool, job: Job, k: nat)
    requires k < |p.index|
    ensures var chosen, id := Fill(p, job, k), p.index[k].id;
            Fill(p, job, k + 1) == if id in p.txs && Takes(job, chosen, p.txs[id].tx) then chosen + [p.txs[id].tx] else chosen
  {
  }

  // ---------- sums over what is chosen ----------

  lemma {:induction false} SumsPush(txs: seq<Tx>, tx: Tx)
    ensures Sum(Weights(txs + [tx])) == Sum(Weights(txs)) + tx.weight
    ensures Sum(Fees(txs + [tx])) == Sum(Fees(txs)) + tx.fee
    ensures Ids(txs + [tx]) == Ids(txs) + [tx.id]
  {
    assert Weights(txs + [tx]) == Weights(txs) + [tx.weight];
    assert Fees(txs + [tx]) == Fees(txs) + [tx.fee];
  }

  lemma {:induction false} ImagesPush(txs: seq<Tx>, tx: Tx)
    ensures ImagesOf(txs + [tx]) == ImagesOf(txs) + tx.images
  {
    if txs == [] {
      assert txs + [tx] == [tx] && [tx][1..] == [];
    } else {
      ImagesPush(txs[1..], tx);
      assert (txs + [tx])[1..] == txs[1..] + [tx];
    }
  }

  // ---------- what every template is like ----------

  /** The chosen transactions can go into one block together. */
  ghost predicate Minable(job: Job, txs: seq<Tx>) {
    && Sum(Weights(txs)) <= Room(job)
    && Distinct(ImagesOf(txs))
    && (forall i :: 0 <= i < |ImagesOf(txs)| ==> ImagesOf(txs)[i] !in job.onChain)
    && (forall i :: 0 <= i < |txs| ==> job.usable(txs[i]))
  }

  /** The chosen transactions are those of some of the first `k` slots, in the order of the index. */
  ghost predicate InOrder(p: Pool, txs: seq<Tx>, at: seq<nat>, k: nat)
    requires k <= |p.index|
  {
    && |at| == |txs|
    && (forall i :: 0 <= i < |at| ==> at[i] < k)
    && (forall i, j :: 0 <= i < j < |at| ==> at[i] < at[j])
    && (forall i :: 0 <= i < |at| ==> p.index[at[i]].id in p.txs && p.txs[p.index[at[i]].id].tx == txs[i])
  }

  lemma {:induction false} DistinctAppend(a: seq<Image>, b: seq<Image>)
    requires Distinct(a) && Distinct(b) && forall i :: 0 <= i < |b| ==> b[i] !in a
    ensures Distinct(a + b)
  {
  }

  lemma {:induction false} MinablePush(job: Job, txs: seq<Tx>, tx: Tx)
    requires Minable(job, txs) && Takes(job, txs, tx) && Distinct(tx.images)
    ensures Minable(job, txs + [tx])
  {
    SumsPush(txs, tx);
    ImagesPush(txs, tx);
    DistinctAppend(ImagesOf(txs), tx.images);
  }

  /**
   A template has pairwise different key images, none of them spent on chain, and weighs no more
   than the bound less 600.
   */
  lemma {:induction false} FillMinable(p: Pool, job: Job, k: nat)
    requires WF(p) && k <= |p.index|
    ensures Minable(job, Fill(p, job, k))
  {
    if k != 0 {
      FillMinable(p, job, k - 1);
      var chosen, id := Fill(p, job, k - 1), p.index[k - 1].id;
      if Takes(job, chosen, p.txs[id].tx) { MinablePush(job, chosen, p.txs[id].tx); }
    }
  }

  lemma {:induction false} InOrderPush(p: Pool, txs: seq<Tx>, at: seq<nat>, k: nat)
    requires k < |p.index| && InOrder(p, txs, at, k) && p.index[k].id in p.txs
    ensures InOrder(p, txs + [p.txs[p.index[k].id].tx], at + [k], k + 1)
  {
  }

  /** A template follows the index. */
  lemma {:induction false} FillInOrder(p: Pool, job: Job, k: nat) returns (at: seq<nat>)
    requires k <= |p.index|
    ensures InOrder(p, Fill(p, job, k), at, k)
  {
    if k == 0 {
      at := [];
    } else {
      at := FillInOrder(p, job, k - 1);
      var takes := FillEither(p, job, k - 1);
      at := InOrderStep(p, Fill(p, job, k - 1), at, k - 1, takes);
    }
  }

  lemma {:induction false} FillEither(p: Pool, job: Job, k: nat) returns (takes: bool)
    requires k < |p.index|
    ensures takes ==> p.index[k].id in p.txs
    ensures Fill(p, job, k + 1) == if takes then Fill(p, job, k) + [p.txs[p.index[k].id].tx] else Fill(p, job, k)
  {
    FillNext(p, job, k);
    takes := p.index[k].id in p.txs && Takes(job, Fill(p, job, k), p.txs[p.index[k].id].tx);
  }

  lemma {:induction false} InOrderStep(p: Pool, chosen: seq<Tx>, at: seq<nat>, k: nat, takes: bool) returns (more: seq<nat>)
    requires k < |p.index| && InOrder(p, chosen, at, k) && (takes ==> p.index[k].id in p.txs)
    ensures InOrder(p, if takes then chosen + [p.txs[p.index[k].id].tx] else chosen, more, k + 1)
  {
    if takes {
      InOrderPush(p, chosen, at, k);
      more := at + [k];
    } else {
      InOrderLonger(p, chosen, at, k);
      more := at;
    }
  }

  lemma {:induction false} InOrderLonger(p: Pool, txs: seq<Tx>, at: seq<nat>, k: nat)
    requires k < |p.index| && InOrder(p, txs, at, k)
    ensures InOrder(p, txs, at, k + 1)
  {
  }

  lemma {:induction false} FillGrows(p: Pool, job: Job, j: nat, k: nat)
    requires j <= k <= |p.index|
    ensures Fill(p, job, j) <= Fill(p, job, k)
    ensures Sum(Weights(Fill(p, job, j))) <= Sum(Weights(Fill(p, job, k)))
    ensures forall x :: x in ImagesOf(Fill(p, job, j)) ==> x in ImagesOf(Fill(p, job, k))
    decreases k
  {
    if j < k {
      FillGrows(p, job, j, k - 1);
      var chosen, id := Fill(p, job, k - 1), p.index[k - 1].id;
      if id in p.txs && Takes(job, chosen, p.txs[id].tx) {
        SumsPush(chosen, p.txs[id].tx);
        ImagesPush(chosen, p.txs[id].tx);
      }
    }
  }

  /**
   The walk leaves nothing out without a reason: a ready transaction that is not chosen would
   overflow the block, spends a chosen key image, or fell below the cut-off when its turn came.
   */
  lemma {:induction false} FillLeavesNothing(p: Pool, job: Job, k: nat)
    requires WF(p) && k < |p.index|
    ensures var tx := p.txs[p.index[k].id].tx;
            var chosen := Fill(p, job, |p.index|);
            Ready(job, tx) && tx !in chosen ==>
              || Room(job) < Sum(Weights(chosen)) + tx.weight
              || Clashes(chosen, tx)
              || CutOff(job, Fill(p, job, k), tx)
  {
    var tx := p.txs[p.index[k].id].tx;
    FillGrows(p, job, k, |p.index|);
    FillGrows(p, job, k + 1, |p.index|);
    if Takes(job, Fill(p, job, k), tx) {
      assert Last(Fill(p, job, k + 1)) == tx;
      assert tx in Fill(p, job, k + 1);
      assert tx in Fill(p, job, |p.index|);
    } else if Clashes(Fill(p, job, k), tx) {
      var i :| 0 <= i < |tx.images| && tx.images[i] in ImagesOf(Fill(p, job, k));
      assert tx.images[i] in ImagesOf(Fill(p, job, |p.index|));
    }
  }
}
