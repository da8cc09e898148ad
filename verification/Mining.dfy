/** The two ends of mining: what a node puts into a template, the node accepts as a block. */
module Mining {
  import opened Ledger
  import opened Chain
  import opened MemPool
  import opened Reorg
  import opened Transit
  import opened MainSteps
  import Template

  /** The template job for a block on top of the main chain. */
  ghost function JobOn(r: Rules, c: seq<Record>, threshold: nat -> nat): Template.Job
    requires c != []
  {
    Template.Job(|c|, Last(c).coins, Spent(c), tx => r.inputs(c, tx), threshold)
  }

  lemma {:induction false} ChosenDistinct(p: Pool, txs: seq<Tx>, at: seq<nat>)
    requires WF(p) && Template.InOrder(p, txs, at, |p.index|)
    ensures InPool(p, txs) && Distinct(Ids(txs))
  {
    forall i | 0 <= i < |txs| ensures txs[i].id == p.index[at[i]].id { }
    forall i, j | 0 <= i < j < |txs| ensures Ids(txs)[i] != Ids(txs)[j] {
      assert !SameId(p.index, at[i], at[j]);
    }
  }

  lemma {:induction false} ChosenPass(r: Rules, s: State, threshold: nat -> nat, txs: seq<Tx>)
    requires s.main != [] && Apart(s.main, s.pool) && InPool(s.pool, txs) && Distinct(Ids(txs))
    requires Template.Minable(JobOn(r, s.main, threshold), txs)
    ensures TxsOk(r, s.main, txs) && ImagesOk(s.main, txs)
  {
    forall i | 0 <= i < |txs| ensures txs[i].id !in TxIds(s.main) && r.inputs(s.main, txs[i]) {
      assert JobOn(r, s.main, threshold).usable(txs[i]);
    }
  }

  lemma {:induction false} ChosenPays(r: Rules, c: seq<Record>, threshold: nat -> nat, txs: seq<Tx>, b: Block)
    requires c != [] && b.height == |c| && b.minerWeight <= COINBASE_RESERVED
    requires Template.Minable(JobOn(r, c, threshold), txs)
    requires Sum(b.outs) % U64 == Template.Payout(JobOn(r, c, threshold), txs)
    ensures CoinbaseOk(Last(c).coins, b, txs)
  {
  }

  lemma {:induction false} ChosenFits(r: Rules, g: Record, s: State, threshold: nat -> nat, txs: seq<Tx>, b: Block, now: nat)
    requires Healthy(r, g, s, now) && HeaderOk(r, s.main, b, now)
    requires Template.Minable(JobOn(r, s.main, threshold), txs) && InPool(s.pool, txs) && Distinct(Ids(txs))
    requires b.txs == Ids(txs) && b.minerWeight <= COINBASE_RESERVED
    requires Sum(b.outs) % U64 == Template.Payout(JobOn(r, s.main, threshold), txs)
    ensures Fits(r, s.main, Grow(r, s.main, b, txs), now)
  {
    ChosenPass(r, s, threshold, txs);
    ChosenPays(r, s.main, threshold, txs, b);
    forall i | 0 <= i < |txs| ensures Poolable(txs[i]) && r.sound(txs[i]) {
      assert txs[i].id in s.pool.txs;
    }
  }

  /**
   A block made from a template is taken: if its header passes, its coinbase transaction keeps to
   the reserved 600 bytes and pays what the template expects, it goes on the main chain.
   */
  lemma {:induction false} TemplateIsAdded(r: Rules, g: Record, s: State, threshold: nat -> nat, b: Block, now: nat)
    requires Healthy(r, g, s, now) && HeaderOk(r, s.main, b, now)
    requires b.minerWeight <= COINBASE_RESERVED
    requires b.txs == Ids(Template.Fill(s.pool, JobOn(r, s.main, threshold), |s.pool.index|))
    requires Sum(b.outs) % U64
          == Template.Payout(JobOn(r, s.main, threshold), Template.Fill(s.pool, JobOn(r, s.main, threshold), |s.pool.index|))
    ensures var st := HandleMain(r, s, b, now);
            && |st.state.main| == |s.main| + 1 && Last(st.state.main).node.block == b
            && Last(st.state.main).txs == Template.Fill(s.pool, JobOn(r, s.main, threshold), |s.pool.index|)
            && st.state.main[..|s.main|] == s.main
            && st.verdict == if NextDefined(r, st.state.main) then Added else Threw
  {
    var job := JobOn(r, s.main, threshold);
    var txs := Template.Fill(s.pool, job, |s.pool.index|);
    Template.FillMinable(s.pool, job, |s.pool.index|);
    var at := Template.FillInOrder(s.pool, job, |s.pool.index|);
    ChosenDistinct(s.pool, txs, at);
    ChosenFits(r, g, s, threshold, txs, b, now);
    MainReplays(r, s, Grow(r, s.main, b, txs), now);
  }
}
