/**
 Chains of blocks: what makes a block acceptable on top of a chain, which record the database
 then keeps for it, and what follows for every chain built that way.
 */
module Chain {
  import opened Ledger
  import opened Windows
  import Emission
  import MemPool

  /**
   The parts of validation that are not modelled further, as functions of what they look at.
   `next` is the difficulty rule on timestamps, cumulative work and a height (None: it throws),
   and `ahead` the same rule on a chain, of which it looks at the last 145 blocks;
   `inputs` checks a transaction against a chain; `sound` checks it alone.
   */
  datatype Rules = Rules(
    hash: Block -> Hash,
    next: (seq<nat>, seq<nat>, nat) -> Option<nat>,
    ahead: (seq<Node>, nat) -> Option<nat>,
    pow: (Block, nat) -> bool,
    coinbase: Block -> bool,
    inputs: (seq<Record>, Tx) -> bool,
    sound: Tx -> bool,
    median: seq<nat> -> nat)

  const STAMP_WINDOW: nat := 11
  const FUTURE_LIMIT: nat := 600

  ghost predicate SameHash(r: Rules, a: Block, b: Block) { r.hash(a) == r.hash(b) }

  /** Asked with either height, the difficulty rule gives the same answer for this chain. */
  ghost predicate SameAhead(r: Rules, c: seq<Node>, h: nat, k: nat) { r.ahead(c, h) == r.ahead(c, k) }

  ghost predicate AheadIsNext(r: Rules, c: seq<Node>, h: nat) {
    r.ahead(c, h) == r.next(Stamps(Window(c)), Works(Window(c)), h)
  }

  /** Block hashes do not collide, and `ahead` is what it says. */
  ghost predicate Lawful(r: Rules) {
    && (forall a, b {:trigger SameHash(r, a, b)} :: SameHash(r, a, b) ==> a == b)
    && (forall c, h {:trigger AheadIsNext(r, c, h)} :: AheadIsNext(r, c, h))
  }

  // ---------- paths of nodes ----------

  function Last<T>(c: seq<T>): T
    requires c != []
  {
    c[|c| - 1]
  }

  function Front<T>(c: seq<T>): (f: seq<T>)
    requires c != []
    ensures |f| == |c| - 1 && f + [Last(c)] == c
  {
    c[..|c| - 1]
  }

  /** `x` links to the end of `c` and carries the work the main-chain rule gives it there. */
  ghost predicate Extends(r: Rules, c: seq<Node>, x: Node)
    requires c != []
  {
    && x.block.prev == r.hash(Last(c).block)
    && x.block.height == |c|
    && Last(c).work < x.work
    && r.ahead(c, |c|) == Some(x.work - Last(c).work)
  }

  ghost predicate ExtendsAt(r: Rules, c: seq<Node>, k: nat)
    requires 1 <= k < |c|
  {
    Extends(r, c[..k], c[k])
  }

  /** A chain that starts with the genesis node `g`. */
  ghost predicate Path(r: Rules, g: Node, c: seq<Node>) {
    && c != [] && c[0] == g
    && forall k {:trigger ExtendsAt(r, c, k)} :: 1 <= k < |c| ==> ExtendsAt(r, c, k)
  }

  /** `x` is the end of some path: its work is that of its whole history. */
  ghost predicate Known(r: Rules, g: Node, x: Node) {
    exists p :: Path(r, g, p) && Last(p) == x
  }

  lemma {:induction false} PathPush(r: Rules, g: Node, c: seq<Node>, x: Node)
    requires c != []
    ensures Path(r, g, c + [x]) <==> Path(r, g, c) && Extends(r, c, x)
  {
    var d := c + [x];
    assert d[..|c|] == c;
    forall k | 1 <= k < |c| ensures ExtendsAt(r, d, k) <==> ExtendsAt(r, c, k) {
      assert d[..k] == c[..k];
    }
    assert Path(r, g, d) ==> ExtendsAt(r, d, |c|);
    if Path(r, g, c) && Extends(r, c, x) {
      forall k | 1 <= k < |d| ensures ExtendsAt(r, d, k) {
        if k < |c| { assert ExtendsAt(r, c, k); }
      }
    }
  }

  lemma {:induction false} PathPrefix(r: Rules, g: Node, c: seq<Node>, k: nat)
    requires Path(r, g, c) && 1 <= k <= |c|
    ensures Path(r, g, c[..k])
  {
    forall j | 1 <= j < k ensures ExtendsAt(r, c[..k], j) {
      assert ExtendsAt(r, c, j);
      assert c[..k][..j] == c[..j];
    }
  }

  lemma {:induction false} PathFront(r: Rules, g: Node, c: seq<Node>)
    requires Path(r, g, c) && 1 < |c|
    ensures Path(r, g, Front(c)) && Extends(r, Front(c), Last(c))
  {
    assert c == Front(c) + [Last(c)];
    PathPush(r, g, Front(c), Last(c));
  }

  lemma {:induction false} PathHeight(r: Rules, g: Node, c: seq<Node>)
    requires Path(r, g, c) && g.block.height == 0
    ensures Last(c).block.height == |c| - 1
  {
    if 1 < |c| { PathFront(r, g, c); }
  }

  /** The last block fixes the whole path, work included. */
  lemma {:induction false} PathUnique(r: Rules, g: Node, p: seq<Node>, q: seq<Node>)
    requires Lawful(r) && Path(r, g, p) && Path(r, g, q) && g.block.height == 0
    requires Last(p).block == Last(q).block
    ensures p == q
    decreases |p|
  {
    PathHeight(r, g, p);
    PathHeight(r, g, q);
    if 1 < |p| {
      PathFront(r, g, p);
      PathFront(r, g, q);
      assert SameHash(r, Last(Front(p)).block, Last(Front(q)).block);
      PathUnique(r, g, Front(p), Front(q));
      assert p == Front(p) + [Last(p)] && q == Front(q) + [Last(q)];
    }
  }

  /** A known node that links to the end of a path extends that path. */
  lemma {:induction false} PathGrows(r: Rules, g: Node, p: seq<Node>, x: Node)
    requires Lawful(r) && Path(r, g, p) && Known(r, g, x) && g.block.height == 0
    requires x.block.prev == r.hash(Last(p).block) && x.block.height != 0
    ensures Extends(r, p, x) && Path(r, g, p + [x])
  {
    var q :| Path(r, g, q) && Last(q) == x;
    PathHeight(r, g, q);
    PathFront(r, g, q);
    assert SameHash(r, Last(p).block, Last(Front(q)).block);
    PathUnique(r, g, p, Front(q));
    PathPush(r, g, p, x);
  }

  // ---------- what a chain has spent ----------

  ghost function TxSet(c: seq<Record>): set<Tx> {
    if c == [] then {} else TxSet(Front(c)) + (set t | t in Last(c).txs)
  }

  function TxIds(c: seq<Record>): set<TxId> {
    if c == [] then {} else TxIds(Front(c)) + (set t | t in Ids(Last(c).txs))
  }

  function ImagesOf(txs: seq<Tx>): seq<Image> {
    if txs == [] then [] else txs[0].images + ImagesOf(txs[1..])
  }

  function Spent(c: seq<Record>): set<Image> {
    if c == [] then {} else Spent(Front(c)) + (set k | k in ImagesOf(Last(c).txs))
  }

  // ---------- acceptance ----------

  function Nodes(c: seq<Record>): (n: seq<Node>)
    ensures |n| == |c| && forall i :: 0 <= i < |c| ==> n[i] == c[i].node
  {
    seq(|c|, i requires 0 <= i < |c| => c[i].node)
  }

  function SizeBound(height: nat): nat { Max(MemPool.MIN_BLOCK_BOUND, height) }

  /** Not too far ahead of the clock, nor below the median of the last eleven blocks. */
  predicate StampOk(r: Rules, c: seq<Record>, b: Block, now: nat) {
    && b.timestamp <= now + FUTURE_LIMIT
    && (|c| < STAMP_WINDOW || r.median(Stamps(Nodes(c)[|c| - STAMP_WINDOW..])) <= b.timestamp)
  }

  predicate WorkOk(r: Rules, c: seq<Record>, b: Block) {
    var d := r.ahead(Nodes(c), |c|);
    d.Some? && d.value != 0 && r.pow(b, d.value)
  }

  /** Everything checked before a transaction is touched. */
  predicate HeaderOk(r: Rules, c: seq<Record>, b: Block, now: nat)
    requires c != []
  {
    && b.prev == r.hash(Last(c).node.block)
    && StampOk(r, c, b, now)
    && WorkOk(r, c, b)
    && r.coinbase(b) && b.height == |c|
  }

  /** Every transaction is new to the chain and its inputs pass. */
  predicate TxsOk(r: Rules, c: seq<Record>, txs: seq<Tx>) {
    && Distinct(Ids(txs))
    && forall i :: 0 <= i < |txs| ==> txs[i].id !in TxIds(c) && r.inputs(c, txs[i])
  }

  function BlockWeight(b: Block, txs: seq<Tx>): nat { b.minerWeight + Sum(Weights(txs)) }

  /** Weight within bound, coinbase outputs equal to reward and fees in 64-bit arithmetic. */
  predicate CoinbaseOk(coins: nat, b: Block, txs: seq<Tx>) {
    && BlockWeight(b, txs) <= SizeBound(b.height)
    && (Emission.Reward(coins) + Sum(Fees(txs))) % U64 == Sum(b.outs) % U64
  }

  /** The database takes the block only if none of its key images is spent, here or earlier. */
  predicate ImagesOk(c: seq<Record>, txs: seq<Tx>) {
    && Distinct(ImagesOf(txs))
    && forall i :: 0 <= i < |ImagesOf(txs)| ==> ImagesOf(txs)[i] !in Spent(c)
  }

  predicate BodyOk(r: Rules, c: seq<Record>, b: Block, txs: seq<Tx>)
    requires c != []
  {
    && Ids(txs) == b.txs
    && TxsOk(r, c, txs)
    && CoinbaseOk(Last(c).coins, b, txs)
    && ImagesOk(c, txs)
  }

  /** The record stored for an accepted block. */
  function Grow(r: Rules, c: seq<Record>, b: Block, txs: seq<Tx>): Record
    requires c != [] && WorkOk(r, c, b)
  {
    Record(Node(b, Last(c).node.work + r.ahead(Nodes(c), |c|).value),
           Last(c).coins + Emission.Reward(Last(c).coins),
           BlockWeight(b, txs),
           txs)
  }

  /** `x` is what accepting its block on top of `c` stores. */
  ghost predicate Fits(r: Rules, c: seq<Record>, x: Record, now: nat)
    requires c != []
  {
    && HeaderOk(r, c, x.node.block, now)
    && BodyOk(r, c, x.node.block, x.txs)
    && x == Grow(r, c, x.node.block, x.txs)
    && forall i :: 0 <= i < |x.txs| ==> MemPool.Poolable(x.txs[i]) && r.sound(x.txs[i])
  }

  ghost predicate FitsAt(r: Rules, c: seq<Record>, k: nat, now: nat)
    requires 1 <= k < |c|
  {
    Fits(r, c[..k], c[k], now)
  }

  /** Every block of the chain is acceptable on the blocks below it. */
  ghost predicate Replays(r: Rules, g: Record, c: seq<Record>, now: nat) {
    && c != [] && c[0] == g
    && forall k {:trigger FitsAt(r, c, k, now)} :: 1 <= k < |c| ==> FitsAt(r, c, k, now)
  }

  ghost predicate IsGenesis(g: Record) {
    g.node.block.height == 0 && g.txs == [] && g.coins == Emission.CoinsAt(0)
  }

  lemma {:induction false} ReplaysPush(r: Rules, g: Record, c: seq<Record>, x: Record, now: nat)
    requires c != []
    ensures Replays(r, g, c + [x], now) <==> Replays(r, g, c, now) && Fits(r, c, x, now)
  {
    var d := c + [x];
    assert d[..|c|] == c;
    forall k | 1 <= k < |c| ensures FitsAt(r, d, k, now) <==> FitsAt(r, c, k, now) {
      assert d[..k] == c[..k];
    }
    assert Replays(r, g, d, now) ==> FitsAt(r, d, |c|, now);
    if Replays(r, g, c, now) && Fits(r, c, x, now) {
      forall k | 1 <= k < |d| ensures FitsAt(r, d, k, now) {
        if k < |c| { assert FitsAt(r, c, k, now); }
      }
    }
  }

  lemma {:induction false} ReplaysFront(r: Rules, g: Record, c: seq<Record>, now: nat)
    requires Replays(r, g, c, now) && 1 < |c|
    ensures Replays(r, g, Front(c), now) && Fits(r, Front(c), Last(c), now)
  {
    assert c == Front(c) + [Last(c)];
    ReplaysPush(r, g, Front(c), Last(c), now);
  }

  lemma {:induction false} PrefixReplays(r: Rules, g: Record, c: seq<Record>, k: nat, now: nat)
    requires Replays(r, g, c, now) && 1 <= k <= |c|
    ensures Replays(r, g, c[..k], now)
  {
    forall j | 1 <= j < k ensures FitsAt(r, c[..k], j, now) {
      assert FitsAt(r, c, j, now);
      assert c[..k][..j] == c[..j];
    }
  }

  lemma {:induction false} FitsLater(r: Rules, c: seq<Record>, x: Record, now: nat, later: nat)
    requires c != [] && Fits(r, c, x, now) && now <= later
    ensures Fits(r, c, x, later)
  {
  }

  lemma {:induction false} ReplaysLater(r: Rules, g: Record, c: seq<Record>, now: nat, later: nat)
    requires Replays(r, g, c, now) && now <= later
    ensures Replays(r, g, c, later)
  {
    forall k | 1 <= k < |c| ensures FitsAt(r, c, k, later) {
      assert FitsAt(r, c, k, now);
      FitsLater(r, c[..k], c[k], now, later);
    }
  }

  lemma {:induction false} NodesPush(c: seq<Record>, x: Record)
    ensures Nodes(c + [x]) == Nodes(c) + [x.node]
  {
  }

  lemma {:induction false} FitsExtends(r: Rules, c: seq<Record>, x: Record, now: nat)
    requires c != [] && Fits(r, c, x, now)
    ensures Extends(r, Nodes(c), x.node)
  {
    assert Last(Nodes(c)) == Last(c).node;
  }

  /** A replayable chain is a path. */
  lemma {:induction false} ReplaysPath(r: Rules, g: Record, c: seq<Record>, now: nat)
    requires Replays(r, g, c, now)
    ensures Path(r, g.node, Nodes(c))
    decreases |c|
  {
    if 1 < |c| {
      ReplaysFront(r, g, c, now);
      ReplaysPath(r, g, Front(c), now);
      FitsExtends(r, Front(c), Last(c), now);
      NodesPush(Front(c), Last(c));
      PathPush(r, g.node, Nodes(Front(c)), Last(c).node);
    } else {
      assert Nodes(c) == [g.node];
    }
  }

  lemma {:induction false} TxsPush(c: seq<Record>, x: Record)
    ensures TxSet(c + [x]) == TxSet(c) + (set t | t in x.txs)
    ensures TxIds(c + [x]) == TxIds(c) + (set t | t in Ids(x.txs))
    ensures Spent(c + [x]) == Spent(c) + (set k | k in ImagesOf(x.txs))
  {
    assert Front(c + [x]) == c && Last(c + [x]) == x;
  }

  // ---------- links and heights ----------

  /** Each block names the one before, and its own height. */
  ghost predicate Chained(r: Rules, c: seq<Record>) {
    && c != [] && c[0].node.block.height == 0
    && forall k {:trigger ChainedAt(r, c, k)} :: 1 <= k < |c| ==> ChainedAt(r, c, k)
  }

  ghost predicate ChainedAt(r: Rules, c: seq<Record>, k: nat) {
    && 1 <= k < |c| && c[k].node.block.height == k
    && c[k].node.block.prev == r.hash(c[k - 1].node.block)
  }

  lemma {:induction false} HealthyChained(r: Rules, g: Record, c: seq<Record>, now: nat)
    requires Replays(r, g, c, now) && IsGenesis(g)
    ensures Chained(r, c)
  {
    forall k | 1 <= k < |c| ensures ChainedAt(r, c, k) {
      assert FitsAt(r, c, k, now);
      assert Last(c[..k]) == c[k - 1];
    }
  }

  lemma {:induction false} HeightIs(r: Rules, c: seq<Record>, k: nat)
    requires Chained(r, c) && k < |c|
    ensures c[k].node.block.height == k
  {
    if 0 < k { assert ChainedAt(r, c, k); }
  }
}
