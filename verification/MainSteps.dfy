/** Extending and shortening the main chain: what each step keeps. */
module MainSteps {
  import opened Ledger
  import opened Chain
  import opened MemPool
  import opened PoolSteps
  import opened Reorg
  import opened Transit

  /** Chain and pool are consistent, each on its own and with each other. */
  ghost predicate Healthy(r: Rules, g: Record, s: State, now: nat) {
    && Replays(r, g, s.main, now)
    && PoolOk(r, s.pool)
    && Apart(s.main, s.pool)
  }

  /** The difficulty after the main chain is defined, so that nothing throws on its way. */
  ghost predicate NextDefined(r: Rules, c: seq<Record>) {
    r.ahead(Nodes(c), |c|).Some?
  }

  ghost predicate Unchanged(r: Rules, s: State, b: Block, st: Step) {
    && st.state.main == s.main && st.state.alt == s.alt
    && s.invalid <= st.state.invalid <= s.invalid + {r.hash(b)}
    && (st.verdict == Rejected || (st.verdict == Threw && st.state == s && !NextDefined(r, s.main)))
    && (st.state.invalid == s.invalid || NextDefined(r, s.main))
  }

  ghost predicate Grown(r: Rules, s: State, b: Block, now: nat, st: Step, x: Record)
    requires s.main != []
  {
    && x.node.block == b && Fits(r, s.main, x, now) && TakenFrom(s.pool, st.state.pool, x.txs)
    && st.state.main == s.main + [x] && st.state.alt == s.alt && st.state.invalid == s.invalid
    && st.verdict == if NextDefined(r, st.state.main) then Added else Threw
  }

  /** A rejected block puts back everything it took. */
  lemma {:induction false} RejectedKeeps(r: Rules, g: Record, s: State, p: Pool, txs: seq<Tx>, now: nat)
    requires Healthy(r, g, s, now) && WF(p) && TakenFrom(s.pool, p, txs)
    ensures var t := s.(pool := ReturnTxs(r, s.main, p, txs, now));
            Healthy(r, g, t, now) && NothingLost(s, t)
  {
    var t := s.(pool := ReturnTxs(r, s.main, p, txs, now));
    TakeThenReturn(r, s.main, s.pool, p, txs, now);
    forall tx | Safe(s, tx) ensures Safe(t, tx) {
      if tx !in TxSet(s.main) { assert Kept(s.pool, tx); }
    }
  }

  lemma {:induction false} TakenFits(r: Rules, s: State, b: Block, now: nat, p: Pool, txs: seq<Tx>)
    requires s.main != [] && HeaderOk(r, s.main, b, now)
    requires PoolOk(r, s.pool) && TakenFrom(s.pool, p, txs)
    requires Ids(txs) == b.txs && Checked(r, s.main, txs)
    requires CoinbaseOk(Last(s.main).coins, b, txs) && ImagesOk(s.main, txs)
    ensures Fits(r, s.main, Grow(r, s.main, b, txs), now)
  {
    forall i | 0 <= i < |txs| ensures Poolable(txs[i]) && r.sound(txs[i]) {
      assert txs[i].id in s.pool.txs;
    }
  }

  lemma {:induction false} AcceptedKeeps(r: Rules, g: Record, s: State, p: Pool, x: Record, now: nat)
    requires Healthy(r, g, s, now) && WF(p) && TakenFrom(s.pool, p, x.txs)
    requires Fits(r, s.main, x, now)
    ensures var t := s.(main := s.main + [x], pool := p);
            Healthy(r, g, t, now) && NothingLost(s, t)
  {
    var t := s.(main := s.main + [x], pool := p);
    ReplaysPush(r, g, s.main, x, now);
    TxsPush(s.main, x);
    forall id | id in p.txs ensures id !in TxIds(t.main) {
      assert id !in IdSet(x.txs);
    }
    forall tx | Safe(s, tx) ensures Safe(t, tx) {
      if tx !in TxSet(s.main) {
        if tx.id in IdSet(x.txs) {
          var i :| 0 <= i < |x.txs| && Ids(x.txs)[i] == tx.id;
          assert x.txs[i] == tx;
        } else {
          assert Kept(p, tx);
        }
      }
    }
  }

  /** What a step on the main chain keeps. */
  ghost predicate Kind(r: Rules, g: Record, s: State, st: Step, now: nat) {
    Healthy(r, g, st.state, now) && NothingLost(s, st.state)
  }

  lemma {:induction false} SettleRejects(r: Rules, g: Record, s: State, b: Block, t: Taken, now: nat)
    requires Healthy(r, g, s, now) && WorkOk(r, s.main, b)
    requires WF(t.pool) && TakenFrom(s.pool, t.pool, t.txs)
    requires !(t.status.AllTaken? && CoinbaseOk(Last(s.main).coins, b, t.txs) && ImagesOk(s.main, t.txs))
    ensures Kind(r, g, s, Settle(r, s, b, t, now), now)
    ensures Unchanged(r, s, b, Settle(r, s, b, t, now))
  {
    RejectedKeeps(r, g, s, t.pool, t.txs, now);
    var back := s.(pool := ReturnTxs(r, s.main, t.pool, t.txs, now));
    var st := Settle(r, s, b, t, now);
    assert st.state.main == s.main && st.state.pool == back.pool;
    forall tx | Safe(s, tx) ensures Safe(st.state, tx) { assert Safe(back, tx); }
  }

  lemma {:induction false} SettleAccepts(r: Rules, g: Record, s: State, b: Block, t: Taken, now: nat)
    requires Healthy(r, g, s, now) && HeaderOk(r, s.main, b, now)
    requires WF(t.pool) && TakenFrom(s.pool, t.pool, t.txs) && Ids(t.txs) == b.txs && Checked(r, s.main, t.txs)
    requires t.status.AllTaken? && CoinbaseOk(Last(s.main).coins, b, t.txs) && ImagesOk(s.main, t.txs)
    ensures Kind(r, g, s, Settle(r, s, b, t, now), now)
    ensures Grown(r, s, b, now, Settle(r, s, b, t, now), Grow(r, s.main, b, t.txs))
  {
    TakenFits(r, s, b, now, t.pool, t.txs);
    AcceptedKeeps(r, g, s, t.pool, Grow(r, s.main, b, t.txs), now);
  }

  /** Offering a block to the main chain: it grows by exactly that block, or stays as it is. */
  lemma {:induction false} MainKeeps(r: Rules, g: Record, s: State, b: Block, now: nat) returns (x: Record)
    requires Healthy(r, g, s, now)
    ensures Kind(r, g, s, HandleMain(r, s, b, now), now)
    ensures Unchanged(r, s, b, HandleMain(r, s, b, now)) || Grown(r, s, b, now, HandleMain(r, s, b, now), x)
  {
    x := g;
    if HeaderOk(r, s.main, b, now) {
      var t := TakeTxs(r, s.main, b.txs, s.pool, []);
      var txs := TakeFacts(r, s.main, b.txs, s.pool, []);
      assert t.txs == [] + txs == txs;
      assert HandleMain(r, s, b, now) == Settle(r, s, b, t, now);
      if t.status.AllTaken? && CoinbaseOk(Last(s.main).coins, b, txs) && ImagesOk(s.main, txs) {
        SettleAccepts(r, g, s, b, t, now);
        x := Grow(r, s.main, b, txs);
      } else {
        SettleRejects(r, g, s, b, t, now);
      }
    }
  }

  /** The pool holds all transactions of the record. */
  ghost predicate InPool(p: Pool, txs: seq<Tx>) {
    forall i :: 0 <= i < |txs| ==> txs[i].id in p.txs && p.txs[txs[i].id].tx == txs[i]
  }

  lemma {:induction false} SettleReplays(r: Rules, s: State, x: Record, t: Taken, now: nat)
    requires s.main != [] && Fits(r, s.main, x, now) && t.status.AllTaken? && t.txs == x.txs
    ensures Settle(r, s, x.node.block, t, now)
         == Step(s.(main := s.main + [x], pool := t.pool), if NextDefined(r, s.main + [x]) then Added else Threw)
  {
  }

  /** A block that fits, with its transactions in the pool, is added with the very same record. */
  lemma {:induction false} MainReplays(r: Rules, s: State, x: Record, now: nat)
    requires s.main != [] && WF(s.pool) && Fits(r, s.main, x, now) && InPool(s.pool, x.txs)
    ensures var st := HandleMain(r, s, x.node.block, now);
            && st.state.main == s.main + [x] && st.state.invalid == s.invalid && st.state.alt == s.alt
            && TakenFrom(s.pool, st.state.pool, x.txs)
            && st.verdict == if NextDefined(r, s.main + [x]) then Added else Threw
  {
    var more := TakeFacts(r, s.main, x.node.block.txs, s.pool, []);
    assert [] + more == more;
    var t := TakeTxs(r, s.main, x.node.block.txs, s.pool, []);
    assert t.status.AllTaken? && t.txs == x.txs by {
      TakeSucceeds(r, s.main, x.txs, s.pool, []);
      assert [] + x.txs == x.txs;
    }
    SettleReplays(r, s, x, t, now);
    assert HandleMain(r, s, x.node.block, now) == Settle(r, s, x.node.block, t, now);
  }

  lemma {:induction false} PoppedAt(r: Rules, g: Record, s: State, i: nat, now: nat)
    requires Healthy(r, g, s, now) && 2 <= |s.main| && i < |Last(s.main).txs|
    ensures var tx := Last(s.main).txs[i]; tx.id !in s.pool.txs && Poolable(tx) && r.sound(tx)
  {
    var k := |s.main| - 1;
    assert FitsAt(r, s.main, k, now);
    assert s.main == Front(s.main) + [s.main[k]];
    TxsPush(Front(s.main), s.main[k]);
    assert Ids(s.main[k].txs)[i] in TxIds(s.main);
  }

  lemma {:induction false} PoppedReturnable(r: Rules, g: Record, s: State, now: nat)
    requires Healthy(r, g, s, now) && 2 <= |s.main|
    ensures Returnable(r, s.pool, Reverse(Last(s.main).txs))
  {
    var x := Last(s.main);
    var txs := Reverse(x.txs);
    assert FitsAt(r, s.main, |s.main| - 1, now);
    ReverseIds(x.txs);
    forall i | 0 <= i < |txs| ensures txs[i].id !in s.pool.txs && Poolable(txs[i]) && r.sound(txs[i]) {
      PoppedAt(r, g, s, |txs| - 1 - i, now);
    }
  }

  lemma {:induction false} ReverseHas(txs: seq<Tx>, tx: Tx) returns (i: nat)
    requires tx in txs
    ensures i < |Reverse(txs)| && Reverse(txs)[i] == tx
  {
    var j :| 0 <= j < |txs| && txs[j] == tx;
    i := |txs| - 1 - j;
  }

  lemma {:induction false} PoppedOneSafe(s: State, x: Record, t: State, tx: Tx)
    requires s.main == t.main + [x] && Returned(s.pool, t.pool, Reverse(x.txs)) && Safe(s, tx)
    ensures Safe(t, tx)
  {
    if Kept(s.pool, tx) {
      assert Kept(t.pool, tx);
    } else if tx !in TxSet(t.main) {
      TxsPush(t.main, x);
      var i := ReverseHas(x.txs, tx);
    }
  }

  lemma {:induction false} PoppedSafe(s: State, x: Record, t: State)
    requires s.main == t.main + [x] && Returned(s.pool, t.pool, Reverse(x.txs))
    ensures NothingLost(s, t)
  {
    forall tx | Safe(s, tx) ensures Safe(t, tx) { PoppedOneSafe(s, x, t, tx); }
  }

  /** Popping a block loses nothing. */
  lemma {:induction false} PopKeeps(r: Rules, g: Record, s: State, now: nat)
    requires Healthy(r, g, s, now) && 2 <= |s.main|
    ensures Healthy(r, g, PopBlock(r, s, now), now)
    ensures NothingLost(s, PopBlock(r, s, now))
  {
    var t := PopBlock(r, s, now);
    var x := Last(s.main);
    assert s.main == t.main + [x];
    ReplaysFront(r, g, s.main, now);
    PoppedReturnable(r, g, s, now);
    ReturnFacts(r, t.main, s.pool, Reverse(x.txs), now);
    ReverseIds(x.txs);
    PoppedApart(r, s, x, Reverse(x.txs), t);
    PoppedSafe(s, x, t);
  }

  lemma {:induction false} PoppedApart(r: Rules, s: State, x: Record, txs: seq<Tx>, t: State)
    requires Apart(s.main, s.pool) && s.main == t.main + [x] && IdSet(txs) == IdSet(x.txs)
    requires Distinct(Ids(x.txs)) && forall i :: 0 <= i < |x.txs| ==> x.txs[i].id !in TxIds(t.main)
    requires Within(t.pool, s.pool, IdSet(txs))
    ensures Apart(t.main, t.pool)
  {
    TxsPush(t.main, x);
    forall id | id in t.pool.txs ensures id !in TxIds(t.main) {
      if id in IdSet(x.txs) {
        var i :| 0 <= i < |x.txs| && Ids(x.txs)[i] == id;
        assert x.txs[i].id !in TxIds(t.main);
      }
    }
  }

  lemma {:induction false} PopToKeeps(r: Rules, g: Record, s: State, height: nat, now: nat)
    requires Healthy(r, g, s, now) && 1 <= height <= |s.main|
    ensures Healthy(r, g, PopTo(r, s, height, now), now)
    ensures NothingLost(s, PopTo(r, s, height, now))
    decreases |s.main|
  {
    if height < |s.main| {
      PopKeeps(r, g, s, now);
      PopToKeeps(r, g, PopBlock(r, s, now), height, now);
      NothingLostTrans(s, PopBlock(r, s, now), PopTo(r, s, height, now));
    }
  }

  // ---------- connecting a branch ----------

  /** A step on the main chain, seen from the chain alone. */
  ghost predicate Shape(r: Rules, s: State, b: Block, st: Step)
    requires s.main != []
  {
    || Unchanged(r, s, b, st)
    || (&& |st.state.main| == |s.main| + 1 && st.state.main[..|s.main|] == s.main
        && Last(st.state.main).node.block == b && Extends(r, Nodes(s.main), Last(st.state.main).node)
        && st.state.alt == s.alt && st.state.invalid == s.invalid
        && st.verdict == if NextDefined(r, st.state.main) then Added else Threw)
  }

  lemma {:induction false} MainShape(r: Rules, s: State, b: Block, now: nat)
    requires s.main != []
    ensures Shape(r, s, b, HandleMain(r, s, b, now))
  {
    assert Last(Nodes(s.main)) == Last(s.main).node;
  }

  /** What connecting the branch `alts` on top of `s` leads to. */
  ghost predicate Connected(r: Rules, s: State, alts: seq<Node>, c: Connection)
    requires c.count <= |alts| && (c.verdict == Added <==> c.count == |alts|)
  {
    && c.state.alt == s.alt
    && s.main <= c.state.main
    && (c.verdict == Added || c.verdict == Rejected || c.verdict == Threw)
    && Nodes(c.state.main) == Nodes(s.main) + alts[..if c.verdict == Threw then |alts| else c.count]
    && (c.verdict == Added && alts != [] ==> NextDefined(r, c.state.main))
    && (c.verdict == Threw ==> !NextDefined(r, c.state.main))
    && s.invalid <= c.state.invalid
    && (if c.verdict == Rejected then c.state.invalid <= s.invalid + {r.hash(alts[c.count].block)}
        else c.state.invalid == s.invalid)
  }

  lemma {:induction false} NodesPrefix(c: seq<Record>, k: nat)
    requires k <= |c|
    ensures Nodes(c[..k]) == Nodes(c)[..k] && Nodes(c[k..]) == Nodes(c)[k..]
  {
  }

  lemma {:induction false} ConnectedStep(r: Rules, s: State, s': State, alts: seq<Node>, c: Connection)
    requires alts != [] && |s'.main| == |s.main| + 1 && s'.main[..|s.main|] == s.main && Last(s'.main).node == alts[0]
    requires s'.alt == s.alt && s'.invalid == s.invalid && NextDefined(r, s'.main)
    requires c.count <= |alts[1..]| && (c.verdict == Added <==> c.count == |alts[1..]|)
    requires Connected(r, s', alts[1..], c)
    ensures Connected(r, s, alts, c.(count := c.count + 1))
  {
    var k := if c.verdict == Threw then |alts| - 1 else c.count;
    assert alts[..k + 1] == [alts[0]] + alts[1..][..k];
    assert Nodes(s'.main) == Nodes(s.main) + [alts[0]];
    assert Nodes(s.main) + [alts[0]] + alts[1..][..k] == Nodes(s.main) + alts[..k + 1];
    assert s.main <= c.state.main by { assert c.state.main[..|s'.main|][..|s.main|] == c.state.main[..|s.main|]; }
    if alts[1..] == [] && c.verdict == Added {
      assert |Nodes(c.state.main)| == |s'.main|;
      assert c.state.main == s'.main;
    }
  }

  lemma {:induction false} ConnectedStop(r: Rules, s: State, alts: seq<Node>, st: Step)
    requires s.main != [] && Path(r, s.main[0].node, Nodes(s.main) + alts) && alts != []
    requires Shape(r, s, alts[0].block, st) && st.verdict != Added
    ensures Connected(r, s, alts, Connection(st.state, 0, st.verdict))
  {
    BranchNext(r, s.main, alts);
    if st.verdict == Rejected {
      assert Nodes(s.main) + alts[..0] == Nodes(s.main);
    } else {
      assert Last(st.state.main).node == alts[0];
      assert Nodes(st.state.main) == Nodes(s.main) + [alts[0]];
      assert Nodes(st.state.main) + alts[1..] == Nodes(s.main) + alts;
      if alts[1..] != [] {
        BranchNext(r, st.state.main, alts[1..]);
        assert false;
      }
      assert alts[..|alts|] == [alts[0]];
    }
  }

  lemma {:induction false} BranchNext(r: Rules, c: seq<Record>, alts: seq<Node>)
    requires c != [] && Path(r, c[0].node, Nodes(c) + alts) && alts != []
    ensures Extends(r, Nodes(c), alts[0]) && NextDefined(r, c)
  {
    var p := Nodes(c) + alts;
    assert ExtendsAt(r, p, |c|);
    assert p[..|c|] == Nodes(c);
  }

  lemma {:induction false} ConnectedFirst(r: Rules, s: State, alts: seq<Node>, st: Step)
    requires s.main != [] && Path(r, s.main[0].node, Nodes(s.main) + alts) && alts != []
    requires Shape(r, s, alts[0].block, st) && st.verdict == Added
    ensures |st.state.main| == |s.main| + 1 && st.state.main[..|s.main|] == s.main && Last(st.state.main).node == alts[0]
    ensures st.state.alt == s.alt && st.state.invalid == s.invalid && NextDefined(r, st.state.main)
    ensures Nodes(st.state.main) + alts[1..] == Nodes(s.main) + alts && st.state.main[0] == s.main[0]
  {
    BranchNext(r, s.main, alts);
    assert Last(st.state.main).node == alts[0];
    assert st.state.main[..|s.main|][0] == s.main[0];
    assert Nodes(st.state.main) == Nodes(s.main) + [alts[0]];
  }

  /** Connecting a branch follows it node by node, and can throw only behind its last block. */
  lemma {:induction false} ConnectShape(r: Rules, s: State, alts: seq<Node>, now: nat)
    requires s.main != [] && Path(r, s.main[0].node, Nodes(s.main) + alts)
    ensures Connected(r, s, alts, Connect(r, s, Blocks(alts), now))
    decreases |alts|
  {
    if alts == [] {
      assert Nodes(s.main) + alts[..0] == Nodes(s.main);
    } else {
      var st := HandleMain(r, s, alts[0].block, now);
      MainShape(r, s, alts[0].block, now);
      assert Blocks(alts)[1..] == Blocks(alts[1..]);
      if st.verdict == Added {
        ConnectedFirst(r, s, alts, st);
        ConnectShape(r, st.state, alts[1..], now);
        ConnectedStep(r, s, st.state, alts, Connect(r, st.state, Blocks(alts[1..]), now));
      } else {
        ConnectedStop(r, s, alts, st);
      }
    }
  }

  /** Connecting blocks keeps chain and pool consistent, and loses nothing. */
  lemma {:induction false} ConnectKeeps(r: Rules, g: Record, s: State, blocks: seq<Block>, now: nat)
    requires Healthy(r, g, s, now)
    ensures Healthy(r, g, Connect(r, s, blocks, now).state, now)
    ensures NothingLost(s, Connect(r, s, blocks, now).state)
    decreases |blocks|
  {
    if blocks != [] {
      var st := HandleMain(r, s, blocks[0], now);
      var x := MainKeeps(r, g, s, blocks[0], now);
      if st.verdict == Added {
        ConnectKeeps(r, g, st.state, blocks[1..], now);
        NothingLostTrans(s, st.state, Connect(r, s, blocks, now).state);
      }
    }
  }

  /** Connecting blocks only adds to the chain. */
  lemma {:induction false} ConnectGrows(r: Rules, s: State, blocks: seq<Block>, now: nat)
    requires s.main != []
    ensures s.main <= Connect(r, s, blocks, now).state.main
    decreases |blocks|
  {
    if blocks != [] {
      var st := HandleMain(r, s, blocks[0], now);
      MainShape(r, s, blocks[0], now);
      if st.verdict == Added {
        ConnectGrows(r, st.state, blocks[1..], now);
        var u := Connect(r, s, blocks, now).state;
        assert u.main[..|st.state.main|][..|s.main|] == u.main[..|s.main|];
      }
    }
  }

  // ---------- which blocks go on ----------

  lemma {:induction false} TxSetIds(c: seq<Record>, tx: Tx)
    requires tx in TxSet(c)
    ensures tx.id in TxIds(c)
    decreases |c|
  {
    if tx in Last(c).txs {
      var i :| 0 <= i < |Last(c).txs| && Last(c).txs[i] == tx;
      assert Ids(Last(c).txs)[i] == tx.id;
    } else {
      TxSetIds(Front(c), tx);
    }
  }

  lemma {:induction false} TxSetHas(c: seq<Record>, i: nat, j: nat)
    requires i < |c| && j < |c[i].txs|
    ensures c[i].txs[j] in TxSet(c)
    decreases |c|
  {
    if i < |c| - 1 { TxSetHas(Front(c), i, j); }
  }

  /** The pool holds all transactions of all records. */
  ghost predicate AllIn(p: Pool, rest: seq<Record>) {
    forall i :: 0 <= i < |rest| ==> InPool(p, rest[i].txs)
  }

  /** Transactions of different blocks of a chain are different. */
  lemma {:induction false} OtherIds(r: Rules, g: Record, c: seq<Record>, now: nat, i: nat, k: nat, j: nat, m: nat)
    requires Replays(r, g, c, now) && i < k < |c| && j < |c[i].txs| && m < |c[k].txs|
    ensures c[i].txs[j].id != c[k].txs[m].id
  {
    assert FitsAt(r, c, k, now);
    TxSetHas(c[..k], i, j);
    TxSetIds(c[..k], c[i].txs[j]);
  }

  lemma {:induction false} AllInTail(r: Rules, g: Record, c: seq<Record>, rest: seq<Record>, p: Pool, q: Pool, now: nat)
    requires Replays(r, g, c + rest, now) && c != [] && rest != [] && AllIn(p, rest) && TakenFrom(p, q, rest[0].txs)
    ensures AllIn(q, rest[1..])
  {
    var x := rest[0];
    forall i | 0 <= i < |rest[1..]| ensures InPool(q, rest[1..][i].txs) {
      var y := rest[i + 1];
      assert InPool(p, y.txs);
      forall m | 0 <= m < |y.txs| ensures y.txs[m].id !in IdSet(x.txs) {
        if y.txs[m].id in IdSet(x.txs) {
          var j :| 0 <= j < |x.txs| && Ids(x.txs)[j] == y.txs[m].id;
          OtherIds(r, g, c + rest, now, |c|, |c| + i + 1, j, m);
        }
      }
    }
  }

  lemma {:induction false} RestNext(r: Rules, g: Record, c: seq<Record>, rest: seq<Record>, now: nat)
    requires c != [] && Replays(r, g, c + rest, now) && rest != []
    ensures Fits(r, c, rest[0], now) && (1 < |rest| ==> NextDefined(r, c + [rest[0]]))
  {
    var full := c + rest;
    assert FitsAt(r, full, |c|, now);
    assert full[..|c|] == c;
    if 1 < |rest| {
      assert FitsAt(r, full, |c| + 1, now);
      assert full[..|c| + 1] == c + [rest[0]];
    }
  }

  /** The whole of `rest` is on, record for record; only behind its last block can the rule throw. */
  ghost predicate AllOn(r: Rules, s: State, rest: seq<Record>, c: Connection) {
    && c.state.main == s.main + rest && c.state.alt == s.alt && c.state.invalid == s.invalid
    && c.verdict == if rest == [] || NextDefined(r, s.main + rest) then Added else Threw
  }

  lemma {:induction false} AllOnStep(r: Rules, s: State, x: Record, t: State, rest: seq<Record>, c: Connection)
    requires t.main == s.main + [x] && t.alt == s.alt && t.invalid == s.invalid && NextDefined(r, t.main)
    requires AllOn(r, t, rest, c)
    ensures AllOn(r, s, [x] + rest, c.(count := c.count + 1))
  {
    assert s.main + [x] + rest == s.main + ([x] + rest);
    assert rest == [] ==> s.main + ([x] + rest) == t.main;
  }

  /** `st` is what adding the record `x` gives. */
  ghost predicate Appended(r: Rules, g: Record, s: State, x: Record, st: Step, now: nat) {
    && Healthy(r, g, st.state, now) && TakenFrom(s.pool, st.state.pool, x.txs)
    && st.state.main == s.main + [x] && st.state.alt == s.alt && st.state.invalid == s.invalid
    && st.verdict == if NextDefined(r, s.main + [x]) then Added else Threw
  }

  lemma {:induction false} ReplayFirst(r: Rules, g: Record, s: State, x: Record, now: nat)
    requires Healthy(r, g, s, now) && Fits(r, s.main, x, now) && InPool(s.pool, x.txs)
    ensures Appended(r, g, s, x, HandleMain(r, s, x.node.block, now), now)
  {
    MainReplays(r, s, x, now);
    var y := MainKeeps(r, g, s, x.node.block, now);
  }

  lemma {:induction false} AllOnOne(r: Rules, g: Record, s: State, x: Record, st: Step, now: nat)
    requires Appended(r, g, s, x, st, now) && st.verdict != Added
    ensures AllOn(r, s, [x], Connection(st.state, 0, st.verdict))
  {
  }

  /** `bs` are the blocks of the records `rest`. */
  ghost predicate BlocksOf(bs: seq<Block>, rest: seq<Record>) {
    |bs| == |rest| && forall i :: 0 <= i < |bs| ==> bs[i] == rest[i].node.block
  }

  lemma {:induction false} ReplayRest(r: Rules, g: Record, s: State, rest: seq<Record>, now: nat)
    requires Healthy(r, g, s, now) && Replays(r, g, s.main + rest, now) && AllIn(s.pool, rest) && rest != []
    ensures var st := HandleMain(r, s, rest[0].node.block, now);
            && Appended(r, g, s, rest[0], st, now)
            && (1 < |rest| ==> st.verdict == Added)
            && st.state.main + rest[1..] == s.main + rest && AllIn(st.state.pool, rest[1..])
  {
    RestNext(r, g, s.main, rest, now);
    assert InPool(s.pool, rest[0].txs);
    ReplayFirst(r, g, s, rest[0], now);
    AllInTail(r, g, s.main, rest, s.pool, HandleMain(r, s, rest[0].node.block, now).state.pool, now);
  }

  /** Blocks that replay, with their transactions in the pool, all go on with the very same records. */
  lemma {:induction false} ConnectReplays(r: Rules, g: Record, s: State, rest: seq<Record>, bs: seq<Block>, now: nat)
    requires Healthy(r, g, s, now) && Replays(r, g, s.main + rest, now) && AllIn(s.pool, rest) && BlocksOf(bs, rest)
    ensures AllOn(r, s, rest, Connect(r, s, bs, now))
    decreases |rest|
  {
    if rest == [] {
      assert s.main + rest == s.main;
    } else {
      var st := HandleMain(r, s, bs[0], now);
      ReplayRest(r, g, s, rest, now);
      assert rest == [rest[0]] + rest[1..];
      if st.verdict == Added {
        ConnectReplays(r, g, st.state, rest[1..], bs[1..], now);
        AllOnStep(r, s, rest[0], st.state, rest[1..], Connect(r, st.state, bs[1..], now));
      } else {
        AllOnOne(r, g, s, rest[0], st, now);
      }
    }
  }

  lemma {:induction false} AllInMore(p: Pool, q: Pool, x: Record, rest: seq<Record>)
    requires TakenFrom(p, q, x.txs) && AllIn(q, rest)
    ensures AllIn(p, [x] + rest)
  {
    var all := [x] + rest;
    forall i | 0 <= i < |all| ensures InPool(p, all[i].txs) {
      if 0 < i { assert InPool(q, rest[i - 1].txs) && all[i] == rest[i - 1]; }
    }
  }

  /** A step on the main chain, seen from its transactions. */
  lemma {:induction false} MainTook(r: Rules, g: Record, s: State, b: Block, now: nat) returns (x: Record)
    requires Healthy(r, g, s, now)
    ensures var st := HandleMain(r, s, b, now);
            && Healthy(r, g, st.state, now)
            && (st.state.main != s.main ==> st.state.main == s.main + [x] && TakenFrom(s.pool, st.state.pool, x.txs))
            && (st.verdict == Added ==> st.state.main != s.main)
  {
    x := MainKeeps(r, g, s, b, now);
  }

  lemma {:induction false} TookFirst(p: Pool, q: Pool, c: seq<Record>, x: Record, main: seq<Record>)
    requires TakenFrom(p, q, x.txs) && c + [x] <= main && AllIn(q, main[|c| + 1..])
    ensures c <= main && AllIn(p, main[|c|..])
  {
    AllInMore(p, q, x, main[|c| + 1..]);
    assert main[..|c| + 1][..|c|] == main[..|c|];
    assert main[|c|] == (c + [x])[|c|] == x;
    assert main[|c|..] == [x] + main[|c| + 1..];
  }

  /** Conversely, what has gone on came out of the pool. */
  lemma {:induction false} ConnectTook(r: Rules, g: Record, s: State, blocks: seq<Block>, now: nat)
    requires Healthy(r, g, s, now) && Connect(r, s, blocks, now).verdict != Rejected
    ensures s.main <= Connect(r, s, blocks, now).state.main
    ensures AllIn(s.pool, Connect(r, s, blocks, now).state.main[|s.main|..])
    decreases |blocks|
  {
    if blocks != [] {
      var st := HandleMain(r, s, blocks[0], now);
      var x := MainTook(r, g, s, blocks[0], now);
      var main := Connect(r, s, blocks, now).state.main;
      if st.verdict == Added {
        ConnectTook(r, g, st.state, blocks[1..], now);
      }
      if st.state.main != s.main {
        TookFirst(s.pool, st.state.pool, s.main, x, main);
      }
    }
  }

  /** The first `n` of the blocks are on top, and nothing else has changed. */
  ghost predicate Stacked(r: Rules, s: State, bs: seq<Block>, n: nat, c: Connection) {
    && n <= |bs| && s.main <= c.state.main && BlocksOf(bs[..n], c.state.main[|s.main|..])
    && c.state.alt == s.alt && c.state.invalid == s.invalid
    && (0 < n ==> (c.verdict == Added <==> NextDefined(r, c.state.main)))
  }

  /** How many blocks are on: all of them, or up to the one behind which the rule throws. */
  function HowMany(c: Connection): nat { if c.verdict == Added then c.count else c.count + 1 }

  lemma {:induction false} StackedStep(r: Rules, s: State, x: Record, t: State, bs: seq<Block>, n: nat, c: Connection)
    requires t.main == s.main + [x] && t.alt == s.alt && t.invalid == s.invalid && NextDefined(r, t.main)
    requires bs != [] && bs[0] == x.node.block && Stacked(r, t, bs[1..], n, c) && (n == 0 ==> c.verdict == Added)
    ensures Stacked(r, s, bs, n + 1, c.(count := c.count + 1))
  {
    var main := c.state.main;
    assert main[..|s.main| + 1] == s.main + [x];
    assert main[..|s.main|] == main[..|s.main| + 1][..|s.main|] == s.main;
    assert main[|s.main|] == x;
    forall i | 0 <= i < |bs[..n + 1]| ensures bs[..n + 1][i] == main[|s.main|..][i].node.block {
      if 0 < i { assert bs[1..][..n][i - 1] == main[|t.main|..][i - 1].node.block; }
    }
    if n == 0 { assert main == t.main; }
  }

  lemma {:induction false} StackedOne(r: Rules, s: State, x: Record, t: State, bs: seq<Block>)
    requires t.main == s.main + [x] && t.alt == s.alt && t.invalid == s.invalid && !NextDefined(r, t.main)
    requires bs != [] && bs[0] == x.node.block
    ensures Stacked(r, s, bs, 1, Connection(t, 0, Threw))
  {
  }

  lemma {:induction false} MainStacks(r: Rules, g: Record, s: State, b: Block, st: Step, now: nat) returns (x: Record)
    requires Healthy(r, g, s, now) && st == HandleMain(r, s, b, now) && st.verdict != Rejected
    requires NextDefined(r, s.main) || st.verdict == Added
    ensures Healthy(r, g, st.state, now) && x.node.block == b && st.state.main == s.main + [x]
    ensures st.state.alt == s.alt && st.state.invalid == s.invalid
    ensures st.verdict == if NextDefined(r, st.state.main) then Added else Threw
  {
    x := MainKeeps(r, g, s, b, now);
  }

  /** Blocks that are not refused go on in their order, if the difficulty before the first is defined. */
  lemma {:induction false} ConnectStacks(r: Rules, g: Record, s: State, bs: seq<Block>, c: Connection, now: nat)
    requires Healthy(r, g, s, now) && c == Connect(r, s, bs, now) && c.verdict != Rejected
    requires NextDefined(r, s.main) || c.verdict == Added
    ensures c.verdict == Added || c.verdict == Threw
    ensures Stacked(r, s, bs, HowMany(c), c)
    decreases |bs|
  {
    if bs != [] {
      var st := HandleMain(r, s, bs[0], now);
      var x := MainStacks(r, g, s, bs[0], st, now);
      if st.verdict == Added {
        var d := Connect(r, st.state, bs[1..], now);
        ConnectStacks(r, g, st.state, bs[1..], d, now);
        StackedStep(r, s, x, st.state, bs, HowMany(d), d);
      } else {
        StackedOne(r, s, x, st.state, bs);
      }
    }
  }

  // ---------- putting the old blocks back ----------

  ghost predicate AllSafe(s: State, rest: seq<Record>) {
    forall i, j {:trigger rest[i].txs[j]} :: 0 <= i < |rest| && 0 <= j < |rest[i].txs| ==> Safe(s, rest[i].txs[j])
  }

  lemma {:induction false} SafeInPool(r: Rules, g: Record, s: State, rest: seq<Record>, now: nat)
    requires s.main != [] && Replays(r, g, s.main + rest, now) && AllSafe(s, rest)
    ensures AllIn(s.pool, rest)
  {
    forall i | 0 <= i < |rest| ensures InPool(s.pool, rest[i].txs) {
      forall j | 0 <= j < |rest[i].txs| ensures Kept(s.pool, rest[i].txs[j]) {
        assert Safe(s, rest[i].txs[j]);
        NotBelow(r, g, s.main, rest, now, i, j);
      }
    }
  }

  lemma {:induction false} NotBelow(r: Rules, g: Record, c: seq<Record>, rest: seq<Record>, now: nat, i: nat, j: nat)
    requires Replays(r, g, c + rest, now) && c != [] && i < |rest| && j < |rest[i].txs|
    ensures rest[i].txs[j] !in TxSet(c)
  {
    if rest[i].txs[j] in TxSet(c) {
      var k, m := TxSetAt(c, rest[i].txs[j]);
      OtherIds(r, g, c + rest, now, k, |c| + i, m, j);
    }
  }

  lemma {:induction false} TxSetAt(c: seq<Record>, tx: Tx) returns (k: nat, m: nat)
    requires tx in TxSet(c)
    ensures k < |c| && m < |c[k].txs| && c[k].txs[m] == tx
    decreases |c|
  {
    if tx in Last(c).txs {
      k := |c| - 1;
      m :| 0 <= m < |c[k].txs| && c[k].txs[m] == tx;
    } else {
      k, m := TxSetAt(Front(c), tx);
    }
  }

  /** The whole of the old chain goes back on, record by record. */
  lemma {:induction false} ReconnectRestores(r: Rules, g: Record, s: State, rest: seq<Record>, now: nat)
    requires Healthy(r, g, s, now) && Replays(r, g, s.main + rest, now) && AllSafe(s, rest)
    ensures AllOn(r, s, rest, Connect(r, s, Blocks(Nodes(rest)), now))
  {
    SafeInPool(r, g, s, rest, now);
    ConnectReplays(r, g, s, rest, Blocks(Nodes(rest)), now);
  }
}
