/**
 The chain store and its steps: extending the main chain, popping blocks back into the pool,
 keeping alternative blocks, and switching to a heavier branch with undo. The store is a value
 here; the functions follow the order of checks and effects of the node.
 */
module Reorg {
  import opened Ledger
  import opened Windows
  import opened Chain
  import opened MemPool
  import opened PoolSteps

  /** Main chain, alternative blocks by hash, hashes of invalid blocks, and the pool. */
  datatype State = State(main: seq<Record>, alt: map<Hash, Node>, invalid: set<Hash>, pool: Pool)

  /**
   How a block fared. `Threw`: an exception left the call where it was; `Nested`: putting back
   the disconnected blocks would start a second switch inside the first.
   */
  datatype Verdict = Added | Switched | Alternative | Orphaned | Exists | Rejected | RolledBack | Threw | Nested

  datatype Step = Step(state: State, verdict: Verdict)

  // ---------- lookups ----------

  /** Height of the main-chain block with hash `h`, or the length of the chain. */
  function Find(r: Rules, c: seq<Record>, h: Hash): (k: nat)
    ensures k <= |c|
    ensures k < |c| ==> r.hash(c[k].node.block) == h
    ensures forall i :: 0 <= i < k ==> r.hash(c[i].node.block) != h
  {
    if c == [] || r.hash(c[0].node.block) == h then 0 else 1 + Find(r, c[1..], h)
  }

  predicate InMain(r: Rules, c: seq<Record>, h: Hash) { Find(r, c, h) < |c| }

  predicate HaveBlock(r: Rules, s: State, h: Hash) {
    InMain(r, s.main, h) || h in s.alt || h in s.invalid
  }

  function TipHash(r: Rules, s: State): Hash
    requires s.main != []
  {
    r.hash(Last(s.main).node.block)
  }

  // ---------- transactions between pool and chain ----------

  datatype TakeStatus = AllTaken | Missing | BadInputs

  datatype Taken = Taken(pool: Pool, txs: seq<Tx>, status: TakeStatus)

  /** Take the transactions `ids` out of the pool one by one, checking each against the chain. */
  function TakeTxs(r: Rules, c: seq<Record>, ids: seq<TxId>, p: Pool, got: seq<Tx>): Taken
    decreases |ids|
  {
    if ids == [] then Taken(p, got, AllTaken)
    else if ids[0] in TxIds(c) || ids[0] !in p.txs then Taken(p, got, Missing)
    else
      var tx := p.txs[ids[0]].tx;
      var p' := MemPool.Remove(p, ids[0]);
      if !r.inputs(c, tx) then Taken(p', got + [tx], BadInputs)
      else TakeTxs(r, c, ids[1..], p', got + [tx])
  }

  function FromBlockOffer(r: Rules, c: seq<Record>, tx: Tx): Offer {
    Offer(tx, MemPool.FromBlock, r.sound(tx), r.inputs(c, tx))
  }

  /** Give transactions of a block (back) to the pool. */
  function ReturnTxs(r: Rules, c: seq<Record>, p: Pool, txs: seq<Tx>, now: nat): Pool
    decreases |txs|
  {
    if txs == [] then p
    else ReturnTxs(r, c, AddTx(p, FromBlockOffer(r, c, txs[0]), now), txs[1..], now)
  }

  // ---------- the main chain ----------

  /** What becomes of a block whose header passed, given what taking its transactions gave. */
  function Settle(r: Rules, s: State, b: Block, t: Taken, now: nat): (st: Step)
    requires s.main != [] && WorkOk(r, s.main, b)
    ensures st.state.main != []
  {
    var back := s.(pool := ReturnTxs(r, s.main, t.pool, t.txs, now));
    match t.status
    case Missing => Step(back, Rejected)
    case BadInputs => Step(back.(invalid := s.invalid + {r.hash(b)}), Rejected)
    case AllTaken =>
      if !CoinbaseOk(Last(s.main).coins, b, t.txs) || !ImagesOk(s.main, t.txs) then Step(back, Rejected)
      else
        var main := s.main + [Grow(r, s.main, b, t.txs)];
        Step(s.(main := main, pool := t.pool), if r.ahead(Nodes(main), |main|).None? then Threw else Added)
  }

  /** Try to put `b` on top of the main chain. */
  function HandleMain(r: Rules, s: State, b: Block, now: nat): (st: Step)
    requires s.main != []
    ensures st.state.main != []
  {
    if b.prev != TipHash(r, s) || !StampOk(r, s.main, b, now) then Step(s, Rejected)
    else if r.ahead(Nodes(s.main), |s.main|).None? then Step(s, Threw)
    else if !HeaderOk(r, s.main, b, now) then Step(s, Rejected)
    else Settle(r, s, b, TakeTxs(r, s.main, b.txs, s.pool, []), now)
  }

  /** Take the top block off; its transactions go back to the pool, last one first. */
  function PopBlock(r: Rules, s: State, now: nat): State
    requires 2 <= |s.main|
  {
    var main := Front(s.main);
    s.(main := main, pool := ReturnTxs(r, main, s.pool, Reverse(Last(s.main).txs), now))
  }

  /** Pop until `height` blocks are left. */
  function PopTo(r: Rules, s: State, height: nat, now: nat): (t: State)
    requires 1 <= height <= |s.main|
    ensures t.main == s.main[..height]
    ensures t.alt == s.alt && t.invalid == s.invalid
    decreases |s.main|
  {
    if |s.main| == height then s else PopTo(r, PopBlock(r, s, now), height, now)
  }

  datatype Connection = Connection(state: State, count: nat, verdict: Verdict)

  /** Put `blocks` on the main chain in order, up to the first that is not added. */
  function Connect(r: Rules, s: State, blocks: seq<Block>, now: nat): (c: Connection)
    requires s.main != []
    ensures c.state.main != []
    ensures c.count <= |blocks| && (c.verdict == Added <==> c.count == |blocks|)
    decreases |blocks|
  {
    if blocks == [] then Connection(s, 0, Added)
    else
      var st := HandleMain(r, s, blocks[0], now);
      if st.verdict != Added then Connection(st.state, 0, st.verdict)
      else var c := Connect(r, st.state, blocks[1..], now); c.(count := c.count + 1)
  }

  // ---------- alternative blocks ----------

  /**
   The stored branch that ends in the block with hash `h`, oldest first. A key is visited at most
   once: hash links cannot form a cycle.
   */
  function BuildAlt(alt: map<Hash, Node>, h: Hash): seq<Node>
    decreases alt.Keys
  {
    if h !in alt then []
    else BuildAlt(alt - {h}, alt[h].block.prev) + [alt[h]]
  }

  /** Whether the branch before a block with parent `prev` hangs on the main chain. */
  predicate Attached(r: Rules, c: seq<Record>, alts: seq<Node>, prev: Hash) {
    if alts == [] then InMain(r, c, prev)
    else
      && InMain(r, c, alts[0].block.prev)
      && 1 <= alts[0].block.height < |c|
      && r.hash(c[alts[0].block.height - 1].node.block) == alts[0].block.prev
  }

  /** Timestamps of the main chain below and at `top`, newest first, to fill up a list of `have`. */
  function FillStamps(c: seq<Node>, top: nat, have: nat): seq<nat>
    requires top < |c|
  {
    if STAMP_WINDOW <= have then []
    else
      var need := STAMP_WINDOW - have;
      var stop := if need < top then top - need else 0;
      Reverse(Stamps(c[stop + 1..top + 1]))
  }

  /** Height of a block placed on the branch `alts`, or directly on the main-chain block `prev`. */
  function AltHeight(r: Rules, c: seq<Record>, alts: seq<Node>, prev: Hash): nat {
    (if alts == [] then Find(r, c, prev) else Last(alts).block.height) + 1
  }

  function AltStamps(r: Rules, c: seq<Record>, alts: seq<Node>, prev: Hash): seq<nat>
    requires Attached(r, c, alts, prev)
  {
    var top := Find(r, c, if alts == [] then prev else alts[0].block.prev);
    Reverse(Stamps(alts)) + FillStamps(Nodes(c), top, |alts|)
  }

  /** The chain that ends in the parent of the block. */
  function ParentChain(r: Rules, c: seq<Record>, alts: seq<Node>, prev: Hash): (p: seq<Node>)
    requires Attached(r, c, alts, prev)
    ensures p != []
  {
    Branch(Nodes(c), alts, AltHeight(r, c, alts, prev))
  }

  datatype Outcome = Heavier | Lighter | Refused | NoParent | Raised

  datatype Placed = Placed(state: State, branch: seq<Node>, outcome: Outcome)

  /** The difficulty asked of a block on its branch; the rule is given the length of the main chain. */
  function AltAhead(r: Rules, s: State, b: Block): Option<nat>
    requires Attached(r, s.main, BuildAlt(s.alt, b.prev), b.prev)
  {
    r.ahead(ParentChain(r, s.main, BuildAlt(s.alt, b.prev), b.prev), |s.main|)
  }

  /** The block hangs on the main chain and is not earlier than the median of its branch. */
  predicate AltTimely(r: Rules, s: State, b: Block) {
    && Attached(r, s.main, BuildAlt(s.alt, b.prev), b.prev)
    && r.median(AltStamps(r, s.main, BuildAlt(s.alt, b.prev), b.prev)) <= b.timestamp
  }

  predicate AltPasses(r: Rules, s: State, b: Block, d: nat) {
    && d != 0 && r.pow(b, d) && r.coinbase(b)
    && b.height == AltHeight(r, s.main, BuildAlt(s.alt, b.prev), b.prev)
    && r.hash(b) !in s.alt
  }

  /** The node that is stored for a block with difficulty `d`. */
  function NewNode(r: Rules, s: State, b: Block, d: nat): Node
    requires Attached(r, s.main, BuildAlt(s.alt, b.prev), b.prev)
  {
    Node(b, Last(ParentChain(r, s.main, BuildAlt(s.alt, b.prev), b.prev)).work + d)
  }

  function StoreAlt(r: Rules, s: State, b: Block, x: Node): Placed
    requires s.main != []
  {
    Placed(s.(alt := s.alt[r.hash(b) := x]), BuildAlt(s.alt, b.prev) + [x],
           if Last(s.main).node.work < x.work then Heavier else Lighter)
  }

  /** Check a block that is not on top of the main chain and store it as an alternative. */
  function PlaceAlt(r: Rules, s: State, b: Block): (p: Placed)
    requires s.main != []
    ensures p.state.main == s.main
  {
    if b.height == 0 then Placed(s, [], Refused)
    else if b.prev !in s.alt && !InMain(r, s.main, b.prev) then Placed(s, [], NoParent)
    else if !AltTimely(r, s, b) then Placed(s, [], Refused)
    else
      var d := AltAhead(r, s, b);
      if d.None? then Placed(s, [], Raised)
      else if !AltPasses(r, s, b, d.value) then Placed(s, [], Refused)
      else StoreAlt(r, s, b, NewNode(r, s, b, d.value))
  }

  /** Put disconnected blocks back as alternatives. */
  function Readd(r: Rules, s: State, blocks: seq<Block>): (st: Step)
    requires s.main != []
    ensures st.state.main == s.main
    decreases |blocks|
  {
    if blocks == [] then Step(s, Switched)
    else
      var p := PlaceAlt(r, s, blocks[0]);
      match p.outcome
      case Raised => Step(p.state, Threw)
      case Heavier => Step(p.state, Nested)
      case _ => Readd(r, p.state, blocks[1..])
  }

  // ---------- the switch ----------

  function Blocks(ns: seq<Node>): (bs: seq<Block>)
    ensures |bs| == |ns| && forall i :: 0 <= i < |ns| ==> bs[i] == ns[i].block
  {
    seq(|ns|, i requires 0 <= i < |ns| => ns[i].block)
  }

  function Hashes(r: Rules, bs: seq<Block>): set<Hash> {
    set i | 0 <= i < |bs| :: r.hash(bs[i])
  }

  /** Undo a failed switch: back to `height` blocks, then the original blocks again. */
  function Rollback(r: Rules, s: State, original: seq<Block>, height: nat, now: nat): Connection
    requires s.main != [] && 1 <= height
  {
    if |s.main| < height then Connection(s, 0, Added)
    else Connect(r, PopTo(r, s, height, now), original, now)
  }

  /** Mark blocks as invalid and drop them from the alternatives; dropping one that is not there throws. */
  function Abandon(r: Rules, s: State, bad: seq<Block>): (st: Step)
    ensures st.state.main == s.main && st.state.pool == s.pool && (st.verdict == RolledBack || st.verdict == Threw)
    decreases |bad|
  {
    if bad == [] then Step(s, RolledBack)
    else
      var t := s.(invalid := s.invalid + {r.hash(bad[0])});
      if r.hash(bad[0]) !in s.alt then Step(t, Threw)
      else Abandon(r, t.(alt := s.alt - {r.hash(bad[0])}), bad[1..])
  }

  /** Drop blocks from the alternatives; dropping one that is not there throws. */
  function Forget(r: Rules, s: State, blocks: seq<Block>): (st: Step)
    ensures st.state.main == s.main && st.state.pool == s.pool && st.state.invalid == s.invalid
    ensures st.verdict == Switched || st.verdict == Threw
    decreases |blocks|
  {
    if blocks == [] then Step(s, Switched)
    else if r.hash(blocks[0]) !in s.alt then Step(s, Threw)
    else Forget(r, s.(alt := s.alt - {r.hash(blocks[0])}), blocks[1..])
  }

  /** Pop the main chain down to `split` blocks and put the branch on top. */
  function Attempt(r: Rules, s: State, split: nat, alts: seq<Node>, now: nat): (c: Connection)
    requires 1 <= split <= |s.main|
    ensures c.state.main != []
    ensures c.count <= |alts| && (c.verdict == Added <==> c.count == |alts|)
  {
    Connect(r, PopTo(r, s, split, now), Blocks(alts), now)
  }

  /** The attempt was refused: go back, and mark the rest of the branch. */
  function GiveUp(r: Rules, s: State, split: nat, alts: seq<Node>, c: Connection, now: nat): (st: Step)
    requires 1 <= split <= |s.main| && c.state.main != [] && c.count <= |alts|
    ensures st.state.main != []
  {
    var u := Rollback(r, c.state, Blocks(Nodes(s.main[split..])), split, now);
    if u.verdict == Threw then Step(u.state, Threw)
    else Abandon(r, u.state, Blocks(alts)[c.count..])
  }

  /** The branch is on: keep the disconnected blocks as alternatives, forget the branch as one. */
  function Conclude(r: Rules, s: State, split: nat, alts: seq<Node>, c: Connection): (st: Step)
    requires 1 <= split <= |s.main| && c.state.main != []
    ensures st.state.main != []
  {
    var e := Readd(r, c.state, Blocks(Nodes(s.main[split..])));
    if e.verdict != Switched then e else Forget(r, e.state, Blocks(alts))
  }

  function SwitchAt(r: Rules, s: State, split: nat, alts: seq<Node>, now: nat): (st: Step)
    requires 1 <= split <= |s.main|
    ensures st.state.main != []
  {
    var c := Attempt(r, s, split, alts, now);
    if c.verdict == Threw then Step(c.state, Threw)
    else if c.verdict != Added then GiveUp(r, s, split, alts, c, now)
    else Conclude(r, s, split, alts, c)
  }

  /** The branch leaves from a block of the main chain. */
  predicate Joins(r: Rules, s: State, alts: seq<Node>)
    requires alts != []
  {
    InMain(r, s.main, alts[0].block.prev)
  }

  /** How many blocks of the main chain stay below the branch. */
  function SplitOf(r: Rules, s: State, alts: seq<Node>): (split: nat)
    requires alts != [] && Joins(r, s, alts)
    ensures 1 <= split <= |s.main|
  {
    Find(r, s.main, alts[0].block.prev) + 1
  }

  /** Make the branch `alts` the main chain, or leave everything as it was. */
  function Switch(r: Rules, s: State, alts: seq<Node>, now: nat): (st: Step)
    requires s.main != []
    ensures st.state.main != []
  {
    if alts == [] || !Joins(r, s, alts) then Step(s, Rejected)
    else SwitchAt(r, s, SplitOf(r, s, alts), alts, now)
  }

  /** A block that is not on top of the main chain. */
  function HandleAlt(r: Rules, s: State, b: Block, now: nat): (st: Step)
    requires s.main != []
    ensures st.state.main != []
  {
    var p := PlaceAlt(r, s, b);
    match p.outcome
    case Refused => Step(p.state, Rejected)
    case NoParent => Step(p.state, Orphaned)
    case Raised => Step(p.state, Threw)
    case Lighter => Step(p.state, Alternative)
    case Heavier => Switch(r, p.state, p.branch, now)
  }

  /** A block from anywhere. */
  function AddNewBlock(r: Rules, s: State, b: Block, now: nat): (st: Step)
    requires s.main != []
    ensures st.state.main != []
  {
    if HaveBlock(r, s, r.hash(b)) then Step(s, Exists)
    else if b.prev != TipHash(r, s) then HandleAlt(r, s, b, now)
    else HandleMain(r, s, b, now)
  }
}
