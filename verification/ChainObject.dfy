/**
 The blockchain as the object that is updated in place, together with its pool. Every method is
 proved to do what the functions of `Reorg` say, and to keep chain and pool consistent.
 */
module ChainObject {
  import opened Ledger
  import opened Windows
  import opened Chain
  import opened MemPool
  import opened PoolSteps
  import opened Reorg
  import opened Transit
  import opened MainSteps
  import opened PoolObject
  import opened Switching
  import opened Nesting
  import opened Once
  import Runs
  import Emission

  // ---------- one transaction at a time ----------

  lemma {:induction false} ReturnOne(r: Rules, c: seq<Record>, p: Pool, txs: seq<Tx>, now: nat)
    requires PoolOk(r, p) && Returnable(r, p, txs) && txs != []
    ensures txs[0].id !in p.txs && Poolable(txs[0])
    ensures var q := PoolSteps.AddTx(p, FromBlockOffer(r, c, txs[0]), now);
            PoolOk(r, q) && Returnable(r, q, txs[1..])
  {
    var o := FromBlockOffer(r, c, txs[0]);
    var q := PoolSteps.AddTx(p, o, now);
    AddTxWF(p, o, now);
    assert Ids(txs)[1..] == Ids(txs[1..]);
    forall i | 0 <= i < |txs[1..]| ensures txs[1..][i].id !in q.txs {
      assert Ids(txs)[0] != Ids(txs)[i + 1];
    }
    assert Kept(q, txs[0]);
  }

  lemma {:induction false} TakenReturnable(r: Rules, p: Pool, q: Pool, txs: seq<Tx>)
    requires PoolOk(r, p) && WF(q) && TakenFrom(p, q, txs)
    ensures PoolOk(r, q) && Returnable(r, q, txs)
  {
    forall i | 0 <= i < |txs| ensures txs[i].id !in q.txs && Poolable(txs[i]) && r.sound(txs[i]) {
      assert Ids(txs)[i] in IdSet(txs);
    }
  }

  // ---------- lists built step by step ----------

  lemma {:induction false} ReversePush(x: nat, s: seq<nat>)
    ensures Reverse([x] + s) == Reverse(s) + [x]
  {
  }

  lemma {:induction false} StampsFront(x: Node, c: seq<Node>)
    ensures Reverse(Stamps([x] + c)) == Reverse(Stamps(c)) + [x.block.timestamp]
  {
    assert Stamps([x] + c) == [x.block.timestamp] + Stamps(c);
    ReversePush(x.block.timestamp, Stamps(c));
  }

  /** `stamps` are `have` and then the timestamps of `c` from `top` down to behind `at`. */
  ghost predicate FilledTo(c: seq<Node>, at: nat, top: nat, have: seq<nat>, stamps: seq<nat>) {
    at <= top < |c| && stamps == have + Reverse(Stamps(c[at + 1..top + 1]))
  }

  lemma {:induction false} FillStarts(c: seq<Node>, top: nat, have: seq<nat>)
    requires top < |c|
    ensures FilledTo(c, top, top, have, have)
  {
    assert c[top + 1..top + 1] == [];
    assert Reverse(Stamps([])) == [];
  }

  lemma {:induction false} FillOneDown(c: seq<Node>, at: nat, top: nat, have: seq<nat>, stamps: seq<nat>)
    requires FilledTo(c, at, top, have, stamps) && 1 <= at
    ensures FilledTo(c, at - 1, top, have, stamps + [c[at].block.timestamp])
  {
    var rest := c[at + 1..top + 1];
    StampsFront(c[at], rest);
    assert c[at..top + 1] == [c[at]] + rest;
    assert have + Reverse(Stamps(rest)) + [c[at].block.timestamp] == have + (Reverse(Stamps(rest)) + [c[at].block.timestamp]);
  }

  lemma {:induction false} FillEnds(c: seq<Node>, stop: nat, top: nat, have: seq<nat>, stamps: seq<nat>)
    requires FilledTo(c, stop, top, have, stamps) && |have| < STAMP_WINDOW
    requires stop == if STAMP_WINDOW - |have| < top then top - (STAMP_WINDOW - |have|) else 0
    ensures stamps == have + FillStamps(c, top, |have|)
  {
  }

  /** Connecting the rest of a run of blocks, counted from its start. */
  ghost function Shift(c: Connection, i: nat): Connection { c.(count := c.count + i) }

  /** On a chain the parent of a branch is met only once on the way down. */
  lemma {:induction false} TipIsParent(r: Rules, g: Record, c: seq<Record>, k: nat, prev: Hash, now: nat)
    requires Lawful(r) && IsGenesis(g) && Replays(r, g, c, now) && 1 <= k <= |c|
    ensures r.hash(c[k - 1].node.block) == prev ==> Find(r, c, prev) == k - 1
  {
    ReplaysPath(r, g, c, now);
    FindAt(r, g.node, c, k - 1);
  }

  /** `blocks` are the blocks of `c` from height `k` on. */
  ghost predicate TopBlocks(c: seq<Record>, k: nat, blocks: seq<Block>) {
    k + |blocks| == |c| && forall i :: 0 <= i < |blocks| ==> blocks[i] == c[k + i].node.block
  }

  lemma {:induction false} TopBlocksPush(c: seq<Record>, k: nat, blocks: seq<Block>)
    requires TopBlocks(c, k, blocks) && 0 < k
    ensures TopBlocks(c, k - 1, [c[k - 1].node.block] + blocks)
  {
  }

  /** `t` lies between `s` and `s` popped to `split` blocks; `blocks` have been popped so far. */
  ghost predicate OnTheWay(r: Rules, s: State, t: State, split: nat, blocks: seq<Block>, now: nat) {
    && 1 <= split <= |t.main| <= |s.main| && t.main == s.main[..|t.main|]
    && PopTo(r, t, split, now) == PopTo(r, s, split, now)
    && TopBlocks(s.main, |t.main|, blocks)
  }

  lemma {:induction false} OneFurther(r: Rules, s: State, t: State, split: nat, blocks: seq<Block>, prev: Hash, now: nat)
    requires OnTheWay(r, s, t, split, blocks, now) && r.hash(s.main[split - 1].node.block) == prev
    requires r.hash(Last(t.main).node.block) != prev
    ensures 2 <= |t.main|
    ensures OnTheWay(r, s, Reorg.PopBlock(r, t, now), split, [Last(t.main).node.block] + blocks, now)
  {
    assert Last(t.main) == s.main[|t.main| - 1];
    assert split < |t.main|;
    StillOnTheWay(r, s, t, Reorg.PopBlock(r, t, now), split, blocks, now);
  }

  lemma {:induction false} PopOnce(r: Rules, t: State, u: State, split: nat, now: nat)
    requires 1 <= split < |t.main| && u == Reorg.PopBlock(r, t, now)
    ensures PopTo(r, t, split, now) == PopTo(r, u, split, now) && u.main == t.main[..|t.main| - 1]
  {
  }

  lemma {:induction false} StillOnTheWay(r: Rules, s: State, t: State, u: State, split: nat, blocks: seq<Block>, now: nat)
    requires OnTheWay(r, s, t, split, blocks, now) && split < |t.main| && u == Reorg.PopBlock(r, t, now)
    ensures OnTheWay(r, s, u, split, [Last(t.main).node.block] + blocks, now)
  {
    var n := |t.main|;
    PopOnce(r, t, u, split, now);
    TopBlocksPush(s.main, n, blocks);
    OneLess(s.main, t.main, u.main);
  }

  lemma {:induction false} OneLess(c: seq<Record>, d: seq<Record>, e: seq<Record>)
    requires 1 <= |d| <= |c| && d == c[..|d|] && e == d[..|d| - 1]
    ensures e == c[..|e|] && Last(d) == c[|d| - 1]
  {
  }

  /** `s` popped down to the block with hash `prev`, and the blocks that took. */
  ghost predicate Forked(r: Rules, s: State, t: State, split: nat, blocks: seq<Block>, prev: Hash, now: nat) {
    && 1 <= split <= |s.main| && split == Find(r, s.main, prev) + 1
    && t == PopTo(r, s, split, now) && blocks == Blocks(Nodes(s.main[split..]))
  }

  lemma {:induction false} AtTheFork(r: Rules, g: Record, s: State, t: State, split: nat, blocks: seq<Block>, prev: Hash, now: nat)
    requires Lawful(r) && IsGenesis(g) && Replays(r, g, s.main, now)
    requires split == Find(r, s.main, prev) + 1 && OnTheWay(r, s, t, split, blocks, now)
    requires r.hash(Last(t.main).node.block) == prev
    ensures Forked(r, s, t, split, blocks, prev, now)
  {
    assert Last(t.main) == s.main[|t.main| - 1];
    TipIsParent(r, g, s.main, |t.main|, prev, now);
    PoppedEnough(r, t, split, now);
    TopBlocksAre(s.main, split, blocks);
  }

  lemma {:induction false} PoppedEnough(r: Rules, t: State, split: nat, now: nat)
    requires 1 <= split == |t.main|
    ensures PopTo(r, t, split, now) == t
  {
  }

  lemma {:induction false} TopBlocksAre(c: seq<Record>, k: nat, blocks: seq<Block>)
    requires TopBlocks(c, k, blocks)
    ensures blocks == Blocks(Nodes(c[k..]))
  {
  }

  lemma {:induction false} MainStaysHealthy(r: Rules, g: Record, s: State, b: Block, st: Step, now: nat)
    requires Healthy(r, g, s, now) && st == Reorg.HandleMain(r, s, b, now)
    ensures Healthy(r, g, st.state, now)
  {
    var x := MainKeeps(r, g, s, b, now);
  }

  class Blockchain {
    var main: seq<Record>
    var alt: map<Hash, Node>
    var invalid: set<Hash>
    const pool: TxPool
    const r: Rules
    ghost const g: Record

    function State(): Reorg.State
      reads this, pool
    {
      Reorg.State(main, alt, invalid, pool.State())
    }

    /** Chain and pool are consistent at time `now`. */
    ghost predicate Valid(now: nat)
      reads this, pool
    {
      Lawful(r) && IsGenesis(g) && Healthy(r, g, State(), now)
    }

    /** Besides, every alternative is stored under its own hash. */
    ghost predicate Ready(now: nat)
      reads this, pool
    {
      Valid(now) && Keyed(r, alt)
    }

    constructor(rules: Rules, genesis: Record, limit: nat, now: nat)
      requires Lawful(rules) && IsGenesis(genesis)
      ensures Ready(now) && fresh(pool) && r == rules && g == genesis
      ensures State() == Reorg.State([genesis], map[], {}, Pool(map[], map[], [], 0, limit, {}))
    {
      main, alt, invalid, r, g := [genesis], map[], {}, rules, genesis;
      pool := new TxPool(limit);
    }

    /** Give transactions of a block (back) to the pool. */
    method ReturnAll(txs: seq<Tx>, now: nat)
      requires PoolOk(r, pool.State()) && Returnable(r, pool.State(), txs)
      modifies pool
      ensures pool.State() == ReturnTxs(r, main, old(pool.State()), txs, now)
    {
      ghost var target := ReturnTxs(r, main, pool.State(), txs, now);
      assert txs[0..] == txs;
      for i := 0 to |txs|
        invariant PoolOk(r, pool.State()) && Returnable(r, pool.State(), txs[i..])
        invariant ReturnTxs(r, main, pool.State(), txs[i..], now) == target
      {
        ReturnOne(r, main, pool.State(), txs[i..], now);
        assert txs[i..][1..] == txs[i + 1..];
        var ok := pool.AddTx(FromBlockOffer(r, main, txs[i]), now);
      }
    }

    /** Take the transactions of a block from the pool, up to the first that will not do. */
    method TakeAll(ids: seq<TxId>) returns (txs: seq<Tx>, status: TakeStatus)
      requires pool.Valid()
      modifies pool
      ensures pool.Valid()
      ensures Taken(pool.State(), txs, status) == TakeTxs(r, main, ids, old(pool.State()), [])
    {
      ghost var target := TakeTxs(r, main, ids, pool.State(), []);
      txs := [];
      assert ids[0..] == ids;
      for i := 0 to |ids|
        invariant pool.Valid()
        invariant TakeTxs(r, main, ids[i..], pool.State(), txs) == target
      {
        assert ids[i..][1..] == ids[i + 1..];
        if ids[i] in TxIds(main) { return txs, Missing; }
        var taken := pool.TakeTx(ids[i]);
        if taken.None? { return txs, Missing; }
        txs := txs + [taken.value];
        if !r.inputs(main, taken.value) { return txs, BadInputs; }
      }
      return txs, AllTaken;
    }

    /** Take the top block off; its transactions go back to the pool. */
    method PopBlock(now: nat) returns (b: Block)
      requires Valid(now) && 2 <= |main|
      modifies this`main, pool
      ensures Valid(now) && State() == Reorg.PopBlock(r, old(State()), now)
      ensures b == old(Last(main)).node.block
    {
      ghost var s := State();
      PopKeeps(r, g, s, now);
      PoppedReturnable(r, g, s, now);
      var x := Last(main);
      b := x.node.block;
      main := Front(main);
      ReturnAll(Reverse(x.txs), now);
    }

    /** The difficulty of the block after the main chain. */
    method NextDifficulty() returns (d: Option<nat>)
      requires Lawful(r)
      ensures d == r.ahead(Nodes(main), |main|)
    {
      var stamps, works := MainLists(Nodes(main));
      assert AheadIsNext(r, Nodes(main), |main|);
      d := r.next(stamps, works, |main|);
    }

    /** Move the taken transactions onto the chain, or back into the pool. */
    method Settle(b: Block, txs: seq<Tx>, status: TakeStatus, d: nat, now: nat, ghost before: Pool) returns (v: Verdict)
      requires Lawful(r) && main != [] && WorkOk(r, main, b) && d == r.ahead(Nodes(main), |main|).value
      requires pool.Valid() && PoolOk(r, before) && TakenFrom(before, pool.State(), txs)
      modifies this`main, this`invalid, pool
      ensures Step(State(), v)
           == Reorg.Settle(r, Reorg.State(old(main), old(alt), old(invalid), before), b,
                           Taken(old(pool.State()), txs, status), now)
    {
      TakenReturnable(r, before, pool.State(), txs);
      if !status.AllTaken? {
        ReturnAll(txs, now);
        if status.BadInputs? { invalid := invalid + {r.hash(b)}; }
        return Rejected;
      }
      if !CoinbaseOk(Last(main).coins, b, txs) || !ImagesOk(main, txs) {
        ReturnAll(txs, now);
        return Rejected;
      }
      var top := Last(main);
      main := main + [Record(Node(b, top.node.work + d), top.coins + Emission.Reward(top.coins), BlockWeight(b, txs), txs)];
      var after := NextDifficulty();
      return if after.None? then Threw else Added;
    }

    /** Try to put `b` on top of the main chain. */
    method HandleMain(b: Block, now: nat) returns (v: Verdict)
      requires Valid(now)
      modifies this`main, this`invalid, pool
      ensures Valid(now) && Step(State(), v) == Reorg.HandleMain(r, old(State()), b, now)
    {
      ghost var s := State();
      MainStaysHealthy(r, g, s, b, Reorg.HandleMain(r, s, b, now), now);
      if b.prev != r.hash(Last(main).node.block) || !StampOk(r, main, b, now) { return Rejected; }
      var d := NextDifficulty();
      if d.None? { return Threw; }
      if d.value == 0 || !r.pow(b, d.value) || !r.coinbase(b) || b.height != |main| { return Rejected; }
      ghost var more := TakeFacts(r, main, b.txs, s.pool, []);
      var txs, status := TakeAll(b.txs);
      assert txs == [] + more == more;
      v := Settle(b, txs, status, d.value, now, s.pool);
    }

    // ---------- alternatives ----------

    /** The stored branch that ends in the block with hash `prev`, and its timestamps, newest first. */
    method BuildAltChain(prev: Hash) returns (alts: seq<Node>, stamps: seq<nat>)
      ensures alts == BuildAlt(alt, prev) && stamps == Reverse(Stamps(alts))
    {
      var h, left := prev, alt;
      alts, stamps := [], [];
      while h in left
        invariant BuildAlt(left, h) + alts == BuildAlt(alt, prev)
        invariant stamps == Reverse(Stamps(alts))
        decreases left.Keys
      {
        var x := left[h];
        StampsFront(x, alts);
        assert BuildAlt(left - {h}, x.block.prev) + [x] + alts == BuildAlt(left - {h}, x.block.prev) + ([x] + alts);
        stamps := stamps + [x.block.timestamp];
        alts := [x] + alts;
        left := left - {h};
        h := x.block.prev;
      }
    }

    /** Fill up the timestamps of a branch from the main chain below and at `top`. */
    method CompleteStamps(top: nat, have: seq<nat>) returns (stamps: seq<nat>)
      requires top < |main|
      ensures stamps == have + FillStamps(Nodes(main), top, |have|)
    {
      stamps := have;
      if STAMP_WINDOW <= |have| { return; }
      var need := STAMP_WINDOW - |have|;
      var stop := if need < top then top - need else 0;
      var at := top;
      ghost var c := Nodes(main);
      FillStarts(c, top, have);
      while at != stop
        invariant stop <= at <= top && FilledTo(c, at, top, have, stamps)
        decreases at
      {
        FillOneDown(c, at, top, have, stamps);
        assert c[at] == main[at].node;
        stamps := stamps + [main[at].node.block.timestamp];
        at := at - 1;
      }
      FillEnds(c, stop, top, have, stamps);
    }

    /** The difficulty of a block at `height` on the branch `alts`. */
    method AltDifficulty(alts: seq<Node>, height: nat) returns (d: Option<nat>)
      requires Lawful(r) && 1 <= Fork(alts, height) <= |main|
      ensures d == r.ahead(Branch(Nodes(main), alts, height), |main|)
    {
      var stamps, works := AltLists(Nodes(main), alts, height);
      assert AheadIsNext(r, Branch(Nodes(main), alts, height), |main|);
      d := r.next(stamps, works, |main|);
    }

    /** Whether a block on the branch `alts` is late enough. */
    method TimelyOn(b: Block, alts: seq<Node>, have: seq<nat>) returns (ok: bool)
      requires alts == BuildAlt(alt, b.prev) && have == Reverse(Stamps(alts))
      ensures ok <==> AltTimely(r, State(), b)
    {
      if !Attached(r, main, alts, b.prev) { return false; }
      var stamps := CompleteStamps(Find(r, main, if alts == [] then b.prev else alts[0].block.prev), have);
      return r.median(stamps) <= b.timestamp;
    }

    /** Store a block that passed with difficulty `d`. */
    method Store(b: Block, alts: seq<Node>, d: nat) returns (branch: seq<Node>, outcome: Outcome)
      requires main != [] && alts == BuildAlt(alt, b.prev) && Attached(r, main, alts, b.prev)
      modifies this`alt
      ensures Placed(State(), branch, outcome) == StoreAlt(r, old(State()), b, NewNode(r, old(State()), b, d))
    {
      var work := (if alts == [] then main[Find(r, main, b.prev)].node.work else Last(alts).work) + d;
      assert NewNode(r, State(), b, d) == Node(b, work);
      alt := alt[r.hash(b) := Node(b, work)];
      return alts + [Node(b, work)], if Last(main).node.work < work then Heavier else Lighter;
    }

    /** Check a block that is not on top of the main chain and store it as an alternative. */
    method PlaceAlt(b: Block) returns (branch: seq<Node>, outcome: Outcome)
      requires Lawful(r) && main != []
      modifies this`alt
      ensures Placed(State(), branch, outcome) == Reorg.PlaceAlt(r, old(State()), b)
    {
      if b.height == 0 { return [], Refused; }
      if b.prev !in alt && !InMain(r, main, b.prev) { return [], NoParent; }
      var alts, stamps := BuildAltChain(b.prev);
      var timely := TimelyOn(b, alts, stamps);
      if !timely { return [], Refused; }
      var height := (if alts == [] then Find(r, main, b.prev) else Last(alts).block.height) + 1;
      var d := AltDifficulty(alts, height);
      assert d == AltAhead(r, State(), b);
      if d.None? { return [], Raised; }
      if d.value == 0 || !r.pow(b, d.value) || !r.coinbase(b) || b.height != height { return [], Refused; }
      if r.hash(b) in alt { return [], Refused; }
      branch, outcome := Store(b, alts, d.value);
    }

    // ---------- the switch ----------

    /** Put blocks on the main chain in order, up to the first that is not added. */
    method ConnectAll(blocks: seq<Block>, now: nat) returns (count: nat, v: Verdict)
      requires Valid(now)
      modifies this`main, this`invalid, pool
      ensures Valid(now) && Connection(State(), count, v) == Connect(r, old(State()), blocks, now)
    {
      ghost var target := Connect(r, State(), blocks, now);
      count := 0;
      assert blocks[0..] == blocks;
      while count < |blocks|
        invariant 0 <= count <= |blocks| && Valid(now)
        invariant Shift(Connect(r, State(), blocks[count..], now), count) == target
      {
        assert blocks[count..][1..] == blocks[count + 1..];
        v := HandleMain(blocks[count], now);
        if v != Added { return; }
        count := count + 1;
      }
      v := Added;
    }

    /** Pop until `height` blocks are left. */
    method PopUntil(height: nat, now: nat)
      requires Valid(now) && 1 <= height <= |main|
      modifies this`main, pool
      ensures Valid(now) && State() == PopTo(r, old(State()), height, now)
    {
      ghost var target := PopTo(r, State(), height, now);
      while |main| != height
        invariant height <= |main| && Valid(now)
        invariant PopTo(r, State(), height, now) == target
        decreases |main|
      {
        var b := PopBlock(now);
      }
    }

    /** Pop until a block with hash `prev` is on top, keeping the popped blocks. */
    method PopTowards(prev: Hash, now: nat, ghost split: nat) returns (blocks: seq<Block>)
      requires Valid(now) && 1 <= split <= |main| && r.hash(main[split - 1].node.block) == prev
      modifies this`main, pool
      ensures Valid(now) && OnTheWay(r, old(State()), State(), split, blocks, now)
      ensures r.hash(Last(main).node.block) == prev
    {
      ghost var s := State();
      blocks := [];
      while r.hash(Last(main).node.block) != prev
        invariant Valid(now) && OnTheWay(r, s, State(), split, blocks, now)
        decreases |main|
      {
        ghost var t := State();
        OneFurther(r, s, t, split, blocks, prev, now);
        var b := PopBlock(now);
        assert State() == Reorg.PopBlock(r, t, now);
        blocks := [b] + blocks;
      }
    }

    /** Pop until the block with hash `prev` is on top; the popped blocks, oldest first. */
    method Disconnect(prev: Hash, now: nat) returns (blocks: seq<Block>)
      requires Valid(now) && InMain(r, main, prev)
      modifies this`main, pool
      ensures Valid(now) && Forked(r, old(State()), State(), |main|, blocks, prev, now)
    {
      ghost var s := State();
      ghost var split := Find(r, main, prev) + 1;
      blocks := PopTowards(prev, now, split);
      AtTheFork(r, g, s, State(), split, blocks, prev, now);
    }

    /** Undo a failed switch: back to `height` blocks, then the original blocks again. */
    method Rollback(original: seq<Block>, height: nat, now: nat) returns (v: Verdict)
      requires Valid(now) && 1 <= height
      modifies this`main, this`invalid, pool
      ensures Valid(now)
      ensures State() == Reorg.Rollback(r, old(State()), original, height, now).state
      ensures v == Reorg.Rollback(r, old(State()), original, height, now).verdict
    {
      if |main| < height { return Added; }
      PopUntil(height, now);
      var count;
      count, v := ConnectAll(original, now);
    }

    /** Mark blocks as invalid and drop them from the alternatives. */
    method Abandon(bad: seq<Block>) returns (v: Verdict)
      modifies this`alt, this`invalid
      ensures Step(State(), v) == Reorg.Abandon(r, old(State()), bad)
    {
      ghost var target := Reorg.Abandon(r, State(), bad);
      assert bad[0..] == bad;
      for i := 0 to |bad|
        invariant Reorg.Abandon(r, State(), bad[i..]) == target
      {
        assert bad[i..][1..] == bad[i + 1..];
        invalid := invalid + {r.hash(bad[i])};
        if r.hash(bad[i]) !in alt { return Threw; }
        alt := alt - {r.hash(bad[i])};
      }
      return RolledBack;
    }

    /** Put disconnected blocks back as alternatives. */
    method ReaddAll(blocks: seq<Block>, now: nat, depth: nat) returns (v: Verdict)
      requires Valid(now)
      modifies this, pool
      ensures Valid(now) && Step(State(), v) == DeepReadd(r, old(State()), blocks, now, depth)
      decreases depth, 2
    {
      ghost var target := DeepReadd(r, State(), blocks, now, depth);
      assert blocks[0..] == blocks;
      for i := 0 to |blocks|
        invariant Valid(now) && DeepReadd(r, State(), blocks[i..], now, depth) == target
      {
        assert blocks[i..][1..] == blocks[i + 1..];
        v := HandleAlt(blocks[i], now, depth);
        if v == Threw || v == Nested { return; }
      }
      return Switched;
    }

    /** Drop blocks from the alternatives. */
    method Forget(blocks: seq<Block>) returns (v: Verdict)
      modifies this`alt
      ensures Step(State(), v) == Reorg.Forget(r, old(State()), blocks)
    {
      ghost var target := Reorg.Forget(r, State(), blocks);
      assert blocks[0..] == blocks;
      for i := 0 to |blocks|
        invariant Reorg.Forget(r, State(), blocks[i..]) == target
      {
        assert blocks[i..][1..] == blocks[i + 1..];
        if r.hash(blocks[i]) !in alt { return Threw; }
        alt := alt - {r.hash(blocks[i])};
      }
      return Switched;
    }

    /** The branch was refused: go back, and mark the rest of it. */
    method GiveUp(disconnected: seq<Block>, split: nat, alts: seq<Node>, count: nat, now: nat,
                  ghost s: Reorg.State, ghost c: Connection)
      returns (v: Verdict)
      requires Valid(now) && 1 <= split <= |s.main| && count <= |alts|
      requires c.state == State() && c.count == count && disconnected == Blocks(Nodes(s.main[split..]))
      modifies this, pool
      ensures Valid(now) && Step(State(), v) == Reorg.GiveUp(r, s, split, alts, c, now)
    {
      v := Rollback(disconnected, split, now);
      if v == Threw { return; }
      v := Abandon(Blocks(alts)[count..]);
    }

    /** The branch is on: keep the disconnected blocks as alternatives, forget the branch as one. */
    method Conclude(disconnected: seq<Block>, ghost split: nat, alts: seq<Node>, now: nat,
                    ghost s: Reorg.State, ghost c: Connection, depth: nat)
      returns (v: Verdict)
      requires Valid(now) && 1 <= split <= |s.main|
      requires c.state == State() && disconnected == Blocks(Nodes(s.main[split..]))
      modifies this, pool
      ensures Valid(now) && Step(State(), v) == DeepConclude(r, s, split, alts, c, now, depth)
      decreases depth, 3
    {
      v := ReaddAll(disconnected, now, depth);
      if v == Switched { v := Forget(Blocks(alts)); }
    }

    /** Pop the main chain down to the fork and put the branch on top. */
    method Attempt(alts: seq<Node>, now: nat) returns (disconnected: seq<Block>, split: nat, count: nat, v: Verdict)
      requires Valid(now) && alts != [] && InMain(r, main, alts[0].block.prev)
      modifies this`main, this`invalid, pool
      ensures Valid(now)
      ensures 1 <= split <= |old(main)| && split == Find(r, old(main), alts[0].block.prev) + 1
      ensures disconnected == Blocks(Nodes(old(main)[split..]))
      ensures Connection(State(), count, v) == Reorg.Attempt(r, old(State()), split, alts, now)
    {
      ghost var s := State();
      disconnected := Disconnect(alts[0].block.prev, now);
      split := |main|;
      count, v := ConnectAll(Blocks(alts), now);
    }

    /** Carry on after the attempt, as it went. */
    method Finish(disconnected: seq<Block>, split: nat, alts: seq<Node>, count: nat, tried: Verdict, now: nat,
                  ghost s: Reorg.State, depth: nat)
      returns (v: Verdict)
      requires Valid(now) && 1 <= split <= |s.main| && disconnected == Blocks(Nodes(s.main[split..]))
      requires Connection(State(), count, tried) == Reorg.Attempt(r, s, split, alts, now)
      modifies this, pool
      ensures Valid(now) && Step(State(), v) == DeepSwitchAt(r, s, split, alts, now, depth)
      decreases depth, 4
    {
      ghost var c := Connection(State(), count, tried);
      if tried == Threw {
        v := Threw;
      } else if tried != Added {
        v := GiveUp(disconnected, split, alts, count, now, s, c);
      } else {
        v := Conclude(disconnected, split, alts, now, s, c, depth);
      }
    }

    /** Make the branch `alts` the main chain, or leave everything as it was. */
    method Switch(alts: seq<Node>, now: nat, depth: nat) returns (v: Verdict)
      requires Valid(now)
      modifies this, pool
      ensures Valid(now) && Step(State(), v) == DeepSwitch(r, old(State()), alts, now, depth)
      decreases depth, 5
    {
      if alts == [] || !InMain(r, main, alts[0].block.prev) { return Rejected; }
      ghost var s := State();
      var disconnected, split, count, tried := Attempt(alts, now);
      v := Finish(disconnected, split, alts, count, tried, now, s, depth);
      SwitchFrom(r, s, split, alts, Step(State(), v), now, depth);
    }

    /** Switch to the branch of a stored block that is heavier. */
    method Challenge(branch: seq<Node>, now: nat, depth: nat, ghost p: Placed) returns (v: Verdict)
      requires Valid(now) && p == Placed(State(), branch, Heavier)
      modifies this, pool
      ensures Valid(now) && Step(State(), v) == DeepFollow(r, p, now, depth + 1)
      decreases depth, 6
    {
      v := Switch(branch, now, depth);
      FollowIs(r, p, Step(State(), v), now, depth);
    }

    /** Switch to the branch of a stored block, if it is heavier. */
    method Follow(branch: seq<Node>, outcome: Outcome, now: nat, depth: nat, ghost p: Placed) returns (v: Verdict)
      requires Valid(now) && p == Placed(State(), branch, outcome)
      modifies this, pool
      ensures Valid(now) && Step(State(), v) == DeepFollow(r, p, now, depth)
      decreases depth, 0
    {
      if outcome == Heavier && depth != 0 {
        v := Challenge(branch, now, depth - 1, p);
      } else {
        FollowNot(r, p, now, depth);
        v := VerdictOf(outcome);
      }
    }

    /** A block that is not on top of the main chain. */
    method HandleAlt(b: Block, now: nat, depth: nat) returns (v: Verdict)
      requires Valid(now)
      modifies this, pool
      ensures Valid(now) && Step(State(), v) == DeepAlt(r, old(State()), b, now, depth)
      decreases depth, 1
    {
      var branch, outcome := PlaceAlt(b);
      v := Follow(branch, outcome, now, depth, Placed(State(), branch, outcome));
    }

    /**
     A block from anywhere: chain and pool stay consistent, nothing is lost, a rollback changes no
     block, and switches nest at most once.
     */
    method AddNewBlock(b: Block, now: nat) returns (v: Verdict)
      requires Ready(now)
      modifies this, pool
      ensures Ready(now) && Step(State(), v) == DeepAdd(r, old(State()), b, now, 1) && v != Nested
      ensures NothingLost(old(State()), State()) && (v == RolledBack ==> main == old(main))
    {
      ghost var s := State();
      DeepAddKeeps(r, g, s, b, DeepAdd(r, s, b, now, 1), now, 1);
      DeepAddKeyed(r, s, b, now, 1);
      NestsOnce(r, g, s, b, DeepAdd(r, s, b, now, 1), now, 1);
      if InMain(r, main, r.hash(b)) || r.hash(b) in alt || r.hash(b) in invalid { return Exists; }
      if b.prev != r.hash(Last(main).node.block) {
        v := HandleAlt(b, now, 2);
      } else {
        v := HandleMain(b, now);
      }
    }

    // ---------- the other calls ----------

    /** A transaction from outside. */
    method AddNewTx(tx: Tx, relay: Relay, now: nat) returns (ok: bool)
      requires Valid(now) && Poolable(tx)
      requires tx.id in pool.txs ==> pool.txs[tx.id].tx == tx
      modifies pool
      ensures State() == Runs.Submit(r, old(State()), tx, relay, now)
    {
      if tx.id in pool.txs && !pool.txs[tx.id].relay.Local? { return true; }
      if tx.id in TxIds(main) { return true; }
      ok := pool.AddTx(Offer(tx, relay, r.sound(tx), r.inputs(main, tx)), now);
    }

    /** The operator pops blocks; the first one always stays. */
    method PopBlocks(n: nat, now: nat)
      requires Valid(now)
      modifies this`main, pool
      ensures Valid(now) && State() == Runs.Pop(r, old(State()), n, now)
    {
      var count := Min(n, |main| - 1);
      PopUntil(|main| - count, now);
    }
  }
}
