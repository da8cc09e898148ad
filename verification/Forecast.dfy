/**
 What becomes of a branch, told before it is tried: how far it gets, what it counts on the main
 chain, and whether a block of it is marked as invalid.
 */
module Forecast {
  import opened Ledger
  import opened Chain
  import opened MemPool
  import opened Reorg
  import opened Transit
  import opened MainSteps

  /** The chain `c` with `bs` on top, each with the difficulty that the rule asks at its own height. */
  ghost function MainChain(r: Rules, c: seq<Node>, bs: seq<Block>): (d: seq<Node>)
    requires c != []
    ensures |d| == |c| + |bs|
    decreases |bs|
  {
    if bs == [] then c else MainChain(r, c + [MainNode(r, c, bs[0])], bs[1..])
  }

  ghost function MainNode(r: Rules, c: seq<Node>, b: Block): Node
    requires c != []
  {
    var d := r.ahead(c, |c|);
    Node(b, Last(c).work + if d.Some? then d.value else 0)
  }

  /** What the branch counts on the main chain. */
  ghost function MainWork(r: Rules, c: seq<Node>, bs: seq<Block>): nat
    requires c != []
  {
    Last(MainChain(r, c, bs)).work
  }

  // ---------- what goes on ----------

  /** `rs` are records for the blocks: each acceptable in its turn, its transactions in the pool. */
  ghost predicate GoesAs(r: Rules, g: Record, t: State, bs: seq<Block>, rs: seq<Record>, now: nat) {
    BlocksOf(bs, rs) && Replays(r, g, t.main + rs, now) && AllIn(t.pool, rs)
  }

  /** The first `n` blocks are acceptable, and are all, or the rule throws behind them: so far the branch gets. */
  ghost predicate Gets(r: Rules, g: Record, t: State, bs: seq<Block>, n: nat, now: nat) {
    && t.main != [] && 1 <= n <= |bs| && (exists rs :: GoesAs(r, g, t, bs[..n], rs, now))
    && (n == |bs| || r.ahead(MainChain(r, Nodes(t.main), bs[..n]), |t.main| + n).None?)
  }

  lemma {:induction false} ReplaysMain(r: Rules, g: Record, c: seq<Record>, rs: seq<Record>, bs: seq<Block>, now: nat)
    requires c != [] && Replays(r, g, c + rs, now) && BlocksOf(bs, rs)
    ensures Nodes(c + rs) == MainChain(r, Nodes(c), bs)
    decreases |bs|
  {
    if bs == [] {
      assert c + rs == c;
    } else {
      var x := rs[0];
      RestNext(r, g, c, rs, now);
      assert c + [x] + rs[1..] == c + rs;
      NodesPush(c, x);
      assert Last(Nodes(c)) == Last(c).node;
      assert x.node == MainNode(r, Nodes(c), bs[0]);
      ReplaysMain(r, g, c + [x], rs[1..], bs[1..], now);
    }
  }

  /** `c` is what connecting comes to when the first block leads to `st`, and the others to `rest`. */
  ghost predicate Begins(st: Step, rest: Connection, c: Connection) {
    c == if st.verdict != Added then Connection(st.state, 0, st.verdict) else rest.(count := rest.count + 1)
  }

  lemma {:induction false} ConnectFirst(r: Rules, s: State, bs: seq<Block>, st: Step, rest: Connection, c: Connection, now: nat)
    requires s.main != [] && bs != [] && st == HandleMain(r, s, bs[0], now) && c == Connect(r, s, bs, now)
    requires rest == Connect(r, st.state, bs[1..], now)
    ensures Begins(st, rest, c)
  {
  }

  /** Connecting a front of the blocks comes first. */
  lemma {:induction false} ConnectFront(r: Rules, s: State, bs: seq<Block>, front: seq<Block>, c: Connection, d: Connection, now: nat)
    requires s.main != [] && front <= bs && c == Connect(r, s, front, now) && c.verdict != Added && d == Connect(r, s, bs, now)
    ensures c == d
    decreases |front|
  {
    if front != [] {
      var st := HandleMain(r, s, bs[0], now);
      var x, y := Connect(r, st.state, front[1..], now), Connect(r, st.state, bs[1..], now);
      ConnectFirst(r, s, front, st, x, c, now);
      ConnectFirst(r, s, bs, st, y, d, now);
      if st.verdict == Added { ConnectFront(r, st.state, bs[1..], front[1..], x, y, now); }
    }
  }

  lemma {:induction false} FrontOn(r: Rules, g: Record, t: State, bs: seq<Block>, n: nat, rs: seq<Record>, now: nat)
    requires Healthy(r, g, t, now) && Gets(r, g, t, bs, n, now) && GoesAs(r, g, t, bs[..n], rs, now)
    ensures AllOn(r, t, rs, Connect(r, t, bs, now)) && Nodes(t.main + rs) == MainChain(r, Nodes(t.main), bs[..n])
  {
    ReplaysMain(r, g, t.main, rs, bs[..n], now);
    FrontEnds(r, t, bs, n, rs);
    ConnectReplays(r, g, t, rs, bs[..n], now);
    FrontIsAll(r, t, bs, n, rs, Connect(r, t, bs[..n], now), Connect(r, t, bs, now), now);
  }

  lemma {:induction false} FrontEnds(r: Rules, t: State, bs: seq<Block>, n: nat, rs: seq<Record>)
    requires t.main != [] && n <= |bs| && |rs| == n && Nodes(t.main + rs) == MainChain(r, Nodes(t.main), bs[..n])
    ensures NextDefined(r, t.main + rs) <==> r.ahead(MainChain(r, Nodes(t.main), bs[..n]), |t.main| + n).Some?
  {
    assert |t.main + rs| == |t.main| + n;
  }

  lemma {:induction false} FrontIsAll(r: Rules, t: State, bs: seq<Block>, n: nat, rs: seq<Record>, c: Connection, d: Connection, now: nat)
    requires t.main != [] && 1 <= n <= |bs| && c == Connect(r, t, bs[..n], now) && d == Connect(r, t, bs, now)
    requires AllOn(r, t, rs, c) && |rs| == n && (n == |bs| || !NextDefined(r, t.main + rs))
    ensures c == d
  {
    if n == |bs| {
      assert bs[..n] == bs;
    } else {
      ConnectFront(r, t, bs, bs[..n], c, d, now);
    }
  }

  /** The new main chain, when the branch gets so far. */
  lemma {:induction false} GotThere(r: Rules, g: Record, t: State, bs: seq<Block>, n: nat, c: Connection, now: nat)
    requires Healthy(r, g, t, now) && c == Connect(r, t, bs, now) && Gets(r, g, t, bs, n, now)
    ensures (c.verdict == Added || c.verdict == Threw) && Nodes(c.state.main) == MainChain(r, Nodes(t.main), bs[..n])
  {
    var rs :| GoesAs(r, g, t, bs[..n], rs, now);
    FrontOn(r, g, t, bs, n, rs, now);
  }

  /** Conversely, a branch that is not refused gets somewhere. */
  lemma {:induction false} GetsSomewhere(r: Rules, g: Record, t: State, bs: seq<Block>, c: Connection, now: nat)
    requires Healthy(r, g, t, now) && NextDefined(r, t.main) && bs != [] && c == Connect(r, t, bs, now) && c.verdict != Rejected
    requires Healthy(r, g, c.state, now)
    ensures Gets(r, g, t, bs, HowMany(c), now)
  {
    ConnectStacks(r, g, t, bs, c, now);
    ConnectTook(r, g, t, bs, now);
    StackedGets(r, g, t, bs, HowMany(c), c, now);
  }

  /** A branch that is on to its last block counts what the rule asks at its own heights. */
  lemma {:induction false} AllThereIs(r: Rules, g: Record, t: State, bs: seq<Block>, c: Connection, now: nat)
    requires Healthy(r, g, t, now) && NextDefined(r, t.main) && bs != [] && c == Connect(r, t, bs, now) && c.verdict != Rejected
    requires Healthy(r, g, c.state, now) && |c.state.main| == |t.main| + |bs|
    ensures Nodes(c.state.main) == MainChain(r, Nodes(t.main), bs) && (c.verdict == Added || c.verdict == Threw)
  {
    GetsSomewhere(r, g, t, bs, c, now);
    ConnectStacks(r, g, t, bs, c, now);
    GotThere(r, g, t, bs, |bs|, c, now);
    assert bs[..|bs|] == bs;
  }

  lemma {:induction false} StackedGets(r: Rules, g: Record, t: State, bs: seq<Block>, n: nat, c: Connection, now: nat)
    requires t.main != [] && Stacked(r, t, bs, n, c) && Replays(r, g, c.state.main, now) && 1 <= n
    requires AllIn(t.pool, c.state.main[|t.main|..]) && (n < |bs| ==> c.verdict != Added)
    ensures Gets(r, g, t, bs, n, now)
  {
    var rs := c.state.main[|t.main|..];
    assert t.main + rs == c.state.main;
    assert GoesAs(r, g, t, bs[..n], rs, now);
    if n < |bs| { NotAllOn(r, g, t, bs, n, rs, c, now); }
  }

  lemma {:induction false} NotAllOn(r: Rules, g: Record, t: State, bs: seq<Block>, n: nat, rs: seq<Record>, c: Connection, now: nat)
    requires 1 <= n < |bs| && t.main != [] && GoesAs(r, g, t, bs[..n], rs, now) && c.state.main == t.main + rs
    requires !NextDefined(r, c.state.main)
    ensures r.ahead(MainChain(r, Nodes(t.main), bs[..n]), |t.main| + n).None?
  {
    ReplaysMain(r, g, t.main, rs, bs[..n], now);
    assert |Nodes(c.state.main)| == |t.main| + n;
  }

  // ---------- which block is marked ----------

  /** The transaction at `i` is the first with bad inputs; it and those before are new and in the pool, none twice. */
  ghost predicate Bad(r: Rules, c: seq<Record>, txs: map<TxId, Entry>, ids: seq<TxId>, i: nat) {
    && i < |ids| && Distinct(ids[..i + 1])
    && (forall j :: 0 <= j <= i ==> ids[j] !in TxIds(c) && ids[j] in txs)
    && (forall j :: 0 <= j < i ==> r.inputs(c, txs[ids[j]].tx)) && !r.inputs(c, txs[ids[i]].tx)
  }

  /** The header of the block passes, and one of its transactions is bad. */
  ghost predicate Marked(r: Rules, c: seq<Record>, txs: map<TxId, Entry>, b: Block, now: nat)
    requires c != []
  {
    HeaderOk(r, c, b, now) && exists i: nat :: Bad(r, c, txs, b.txs, i)
  }

  lemma {:induction false} BadFirst(r: Rules, c: seq<Record>, txs: map<TxId, Entry>, ids: seq<TxId>)
    requires ids != [] && ids[0] !in TxIds(c) && ids[0] in txs && !r.inputs(c, txs[ids[0]].tx)
    ensures Bad(r, c, txs, ids, 0)
  {
    assert ids[..1] == [ids[0]];
  }

  lemma {:induction false} BadLater(r: Rules, c: seq<Record>, txs: map<TxId, Entry>, ids: seq<TxId>, i: nat)
    requires ids != [] && ids[0] !in TxIds(c) && ids[0] in txs && r.inputs(c, txs[ids[0]].tx)
    ensures Bad(r, c, txs, ids, i + 1) <==> Bad(r, c, txs - {ids[0]}, ids[1..], i)
  {
    if i < |ids[1..]| {
      assert ids[..i + 2] == [ids[0]] + ids[1..][..i + 1];
      var rest := ids[1..];
      if Bad(r, c, txs, ids, i + 1) {
        forall j | 0 <= j <= i ensures rest[j] != ids[0] { assert ids[..i + 2][0] != ids[..i + 2][j + 1]; }
        var a := rest[..i + 1];
        forall j, k | 0 <= j < k < |a| ensures a[j] != a[k] { assert ids[..i + 2][j + 1] != ids[..i + 2][k + 1]; }
      }
      if Bad(r, c, txs - {ids[0]}, rest, i) {
        forall j | 0 <= j < i + 1 ensures r.inputs(c, txs[ids[j]].tx) { if 0 < j { assert ids[j] == rest[j - 1]; } }
      }
    }
  }

  /** Taking stops at bad inputs exactly when there is such a transaction. */
  lemma {:induction false} TakeBadIff(r: Rules, c: seq<Record>, ids: seq<TxId>, p: Pool, got: seq<Tx>)
    requires WF(p)
    ensures TakeTxs(r, c, ids, p, got).status == BadInputs <==> exists i: nat :: Bad(r, c, p.txs, ids, i)
    decreases |ids|
  {
    if ids != [] && ids[0] !in TxIds(c) && ids[0] in p.txs {
      var tx := p.txs[ids[0]].tx;
      if !r.inputs(c, tx) {
        BadFirst(r, c, p.txs, ids);
      } else {
        RemoveWF(p, ids[0]);
        TakeBadIff(r, c, ids[1..], Remove(p, ids[0]), got + [tx]);
        if i: nat :| Bad(r, c, p.txs, ids, i) {
          if 0 < i { BadLater(r, c, p.txs, ids, i - 1); }
        }
        if i: nat :| Bad(r, c, p.txs - {ids[0]}, ids[1..], i) { BadLater(r, c, p.txs, ids, i); }
      }
    }
  }

  /** A block offered to the main chain is marked exactly so. */
  lemma {:induction false} MainMarksIff(r: Rules, s: State, b: Block, now: nat)
    requires s.main != [] && WF(s.pool)
    ensures HandleMain(r, s, b, now).state.invalid
         == if Marked(r, s.main, s.pool.txs, b, now) then s.invalid + {r.hash(b)} else s.invalid
    ensures Marked(r, s.main, s.pool.txs, b, now) ==> HandleMain(r, s, b, now).verdict == Rejected
  {
    TakeBadIff(r, s.main, b.txs, s.pool, []);
  }

  /** Two pools hold the same of what is not on the chain. */
  ghost predicate SameBeside(c: seq<Record>, p: map<TxId, Entry>, q: map<TxId, Entry>) {
    forall id :: id !in TxIds(c) ==> (id in p <==> id in q) && (id in p ==> p[id] == q[id])
  }

  lemma {:induction false} SameMarks(r: Rules, c: seq<Record>, p: map<TxId, Entry>, q: map<TxId, Entry>, b: Block, now: nat)
    requires c != [] && SameBeside(c, p, q)
    ensures Marked(r, c, p, b, now) <==> Marked(r, c, q, b, now)
  {
    forall i: nat ensures Bad(r, c, p, b.txs, i) <==> Bad(r, c, q, b.txs, i) { }
    if i: nat :| Bad(r, c, p, b.txs, i) { assert Bad(r, c, q, b.txs, i); }
    if i: nat :| Bad(r, c, q, b.txs, i) { assert Bad(r, c, p, b.txs, i); }
  }

  lemma {:induction false} TakenSame(c: seq<Record>, x: Record, p: Pool, q: Pool)
    requires TakenFrom(p, q, x.txs)
    ensures SameBeside(c + [x], p.txs, q.txs)
  {
    TxsPush(c, x);
  }

  lemma {:induction false} SameMore(c: seq<Record>, rest: seq<Record>, p: map<TxId, Entry>, q: map<TxId, Entry>)
    requires SameBeside(c, p, q)
    ensures SameBeside(c + rest, p, q)
  {
    TxIdsMore(c, rest);
  }

  lemma {:induction false} TxIdsMore(c: seq<Record>, rest: seq<Record>)
    ensures TxIds(c) <= TxIds(c + rest)
    decreases |rest|
  {
    if rest == [] {
      assert c + rest == c;
    } else {
      var n := |rest| - 1;
      TxIdsMore(c, rest[..n]);
      assert c + rest == c + rest[..n] + [rest[n]];
      TxsPush(c + rest[..n], rest[n]);
    }
  }

  lemma {:induction false} SameTrans(c: seq<Record>, p: map<TxId, Entry>, q: map<TxId, Entry>, w: map<TxId, Entry>)
    requires SameBeside(c, p, q) && SameBeside(c, q, w)
    ensures SameBeside(c, p, w)
  {
  }

  /** The blocks `bs` all go on from `t`, and lead to `u`. */
  ghost predicate LeadsTo(r: Rules, g: Record, t: State, bs: seq<Block>, rs: seq<Record>, u: State, now: nat) {
    && GoesAs(r, g, t, bs, rs, now) && u.main == t.main + rs && Healthy(r, g, u, now)
    && u.alt == t.alt && u.invalid == t.invalid && SameBeside(u.main, t.pool.txs, u.pool.txs)
  }

  lemma {:induction false} LeadsOn(r: Rules, g: Record, t: State, x: Record, v: State, bs: seq<Block>, rs: seq<Record>, u: State, now: nat)
    requires v.main == t.main + [x] && v.alt == t.alt && v.invalid == t.invalid && TakenFrom(t.pool, v.pool, x.txs)
    requires bs != [] && bs[0] == x.node.block && LeadsTo(r, g, v, bs[1..], rs, u, now)
    ensures LeadsTo(r, g, t, bs, [x] + rs, u, now)
  {
    assert t.main + [x] + rs == t.main + ([x] + rs);
    AllInMore(t.pool, v.pool, x, rs);
    TakenSame(t.main, x, t.pool, v.pool);
    SameMore(t.main + [x], rs, t.pool.txs, v.pool.txs);
    SameTrans(u.main, t.pool.txs, v.pool.txs, u.pool.txs);
  }

  lemma {:induction false} LeadsNowhere(r: Rules, g: Record, t: State, now: nat)
    requires Healthy(r, g, t, now)
    ensures LeadsTo(r, g, t, [], [], t, now)
  {
    assert t.main + [] == t.main;
  }

  /** Connecting is refused at `u`, where the blocks before lead; the refused one decides what is marked. */
  ghost predicate RefusedFrom(r: Rules, g: Record, t: State, bs: seq<Block>, c: Connection, rs: seq<Record>, u: State, now: nat) {
    && c.count < |bs| && LeadsTo(r, g, t, bs[..c.count], rs, u, now) && u.main != []
    && c.state == HandleMain(r, u, bs[c.count], now).state && (c.count != 0 ==> NextDefined(r, u.main))
  }

  lemma {:induction false} RefusedOn(r: Rules, g: Record, t: State, x: Record, v: State, bs: seq<Block>, d: Connection, rs: seq<Record>, u: State, now: nat)
    requires v.main == t.main + [x] && v.alt == t.alt && v.invalid == t.invalid && TakenFrom(t.pool, v.pool, x.txs)
    requires bs != [] && bs[0] == x.node.block && NextDefined(r, v.main) && RefusedFrom(r, g, v, bs[1..], d, rs, u, now)
    ensures RefusedFrom(r, g, t, bs, d.(count := d.count + 1), [x] + rs, u, now)
  {
    var n := d.count + 1;
    assert bs[..n][1..] == bs[1..][..d.count];
    LeadsOn(r, g, t, x, v, bs[..n], rs, u, now);
    assert bs[1..][d.count] == bs[n];
    if d.count == 0 {
      assert rs == [] by { assert |bs[1..][..0]| == 0; }
      assert u.main == v.main;
    }
  }

  lemma {:induction false} AddedIs(r: Rules, g: Record, t: State, b: Block, st: Step, now: nat) returns (x: Record)
    requires Healthy(r, g, t, now) && st == HandleMain(r, t, b, now) && st.verdict == Added
    ensures x.node.block == b && st.state.main == t.main + [x] && st.state.alt == t.alt && st.state.invalid == t.invalid
    ensures TakenFrom(t.pool, st.state.pool, x.txs) && NextDefined(r, st.state.main) && Healthy(r, g, st.state, now)
  {
    x := MainKeeps(r, g, t, b, now);
  }

  lemma {:induction false} RefusedAt(r: Rules, g: Record, t: State, bs: seq<Block>, c: Connection, now: nat) returns (rs: seq<Record>, u: State)
    requires Healthy(r, g, t, now) && c == Connect(r, t, bs, now) && c.verdict == Rejected
    ensures RefusedFrom(r, g, t, bs, c, rs, u, now)
    decreases |bs|
  {
    var st := HandleMain(r, t, bs[0], now);
    if st.verdict == Added {
      var x := AddedIs(r, g, t, bs[0], st, now);
      var d := Connect(r, st.state, bs[1..], now);
      rs, u := RefusedAt(r, g, st.state, bs[1..], d, now);
      RefusedOn(r, g, t, x, st.state, bs, d, rs, u, now);
      rs := [x] + rs;
    } else {
      rs, u := [], t;
      LeadsNowhere(r, g, t, now);
      assert bs[..0] == [];
    }
  }

  /** Blocks for which there are records go on, and lead there. */
  lemma {:induction false} LeadsThere(r: Rules, g: Record, t: State, bs: seq<Block>, rs: seq<Record>, now: nat) returns (u: State)
    requires Healthy(r, g, t, now) && GoesAs(r, g, t, bs, rs, now) && (bs != [] ==> NextDefined(r, t.main + rs))
    ensures Connect(r, t, bs, now) == Connection(u, |bs|, Added) && LeadsTo(r, g, t, bs, rs, u, now)
    decreases |bs|
  {
    if bs == [] {
      u := t;
      LeadsNowhere(r, g, t, now);
    } else {
      ReplayRest(r, g, t, rs, now);
      var st := HandleMain(r, t, bs[0], now);
      assert 1 == |rs| ==> rs == [rs[0]];
      u := LeadsThere(r, g, st.state, bs[1..], rs[1..], now);
      LeadsOn(r, g, t, rs[0], st.state, bs, rs[1..], u, now);
      assert [rs[0]] + rs[1..] == rs;
    }
  }

  lemma {:induction false} ConnectBehind(r: Rules, t: State, bs: seq<Block>, k: nat, u: State, now: nat)
    requires t.main != [] && k <= |bs| && Connect(r, t, bs[..k], now) == Connection(u, k, Added)
    ensures u.main != [] && var d := Connect(r, u, bs[k..], now); Connect(r, t, bs, now) == d.(count := d.count + k)
    decreases k
  {
    if k == 0 {
      assert bs[..0] == [] && bs[0..] == bs;
    } else {
      var st := HandleMain(r, t, bs[0], now);
      assert bs[..k][1..] == bs[1..][..k - 1];
      ConnectBehind(r, st.state, bs[1..], k - 1, u, now);
      assert bs[1..][k - 1..] == bs[k..];
    }
  }

  /** The blocks up to the one at `k` go on, and that one is marked. */
  ghost predicate MarksAt(r: Rules, g: Record, t: State, bs: seq<Block>, k: nat, rs: seq<Record>, now: nat) {
    && k < |bs| && GoesAs(r, g, t, bs[..k], rs, now) && (k != 0 ==> NextDefined(r, t.main + rs))
    && t.main + rs != [] && Marked(r, t.main + rs, t.pool.txs, bs[k], now)
  }

  /** Some block of the branch is marked when it is tried. */
  ghost predicate Marks(r: Rules, g: Record, t: State, bs: seq<Block>, now: nat) {
    exists k: nat, rs :: MarksAt(r, g, t, bs, k, rs, now)
  }

  lemma {:induction false} MarkedThere(r: Rules, g: Record, t: State, bs: seq<Block>, k: nat, rs: seq<Record>, c: Connection, now: nat)
    requires Healthy(r, g, t, now) && c == Connect(r, t, bs, now) && MarksAt(r, g, t, bs, k, rs, now)
    ensures c.state.invalid == t.invalid + {r.hash(bs[k])} && c.verdict == Rejected
  {
    var u := LeadsThere(r, g, t, bs[..k], rs, now);
    ConnectBehind(r, t, bs, k, u, now);
    SameMarks(r, u.main, t.pool.txs, u.pool.txs, bs[k], now);
    MainMarksIff(r, u, bs[k], now);
    assert bs[k..][0] == bs[k];
  }

  lemma {:induction false} MarksRefused(r: Rules, g: Record, t: State, bs: seq<Block>, now: nat)
    requires Healthy(r, g, t, now) && Marks(r, g, t, bs, now)
    ensures Connect(r, t, bs, now).verdict == Rejected
  {
    var k: nat, rs :| MarksAt(r, g, t, bs, k, rs, now);
    MarkedThere(r, g, t, bs, k, rs, Connect(r, t, bs, now), now);
  }

  /** A refused branch leaves a mark exactly when some block of it is marked so. */
  lemma {:induction false} RefusedMarksIff(r: Rules, g: Record, t: State, bs: seq<Block>, c: Connection, now: nat)
    requires Healthy(r, g, t, now) && c == Connect(r, t, bs, now) && c.verdict == Rejected
    requires forall i :: 0 <= i < |bs| ==> r.hash(bs[i]) !in t.invalid
    ensures c.state.invalid != t.invalid <==> Marks(r, g, t, bs, now)
  {
    if k: nat, rs :| MarksAt(r, g, t, bs, k, rs, now) {
      MarkedThere(r, g, t, bs, k, rs, c, now);
      assert r.hash(bs[k]) in c.state.invalid;
    }
    var rs, u := RefusedAt(r, g, t, bs, c, now);
    MainMarksIff(r, u, bs[c.count], now);
    SameMarks(r, u.main, t.pool.txs, u.pool.txs, bs[c.count], now);
    if c.state.invalid != t.invalid { assert MarksAt(r, g, t, bs, c.count, rs, now); }
  }
}
