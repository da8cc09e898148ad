/**
 Synchronising with one peer: its chain replies are checked and turned into a list of needed
 blocks, which is then asked for span by span. The heights are 64-bit numbers in the source; the
 subtractions are modelled with their wrap-around.
 */
module Sync {
  import opened Ledger
  import History
  import BlockQueue

  const SPAN_BLOCKS: nat := 100
  const MAX_BLOCK_NUMBER: nat := 500_000_000
  const MAX_REPLY_IDS: nat := 25_000

  /** What the node has: main chain, alternatives and invalid blocks, and the height it aims for. */
  datatype Core = Core(main: seq<Hash>, alt: set<Hash>, invalid: set<Hash>, target: nat)

  predicate Have(core: Core, h: Hash) { h in core.main || h in core.alt || h in core.invalid }

  /** A reply to a chain request. */
  datatype Entry = Entry(start: nat, total: nat, ids: seq<Hash>, weights: seq<nat>)

  datatype Need = Need(hash: Hash, weight: nat)

  function HashesOf(ns: seq<Need>): (hs: seq<Hash>)
    ensures |hs| == |ns| && forall i :: 0 <= i < |ns| ==> hs[i] == ns[i].hash
  {
    seq(|ns|, i requires 0 <= i < |ns| => ns[i].hash)
  }

  // ---------- checking a reply ----------

  /** The ids of a reply are as an honest peer would send them. */
  ghost predicate IdsOk(core: Core, start: nat, ids: seq<Hash>) {
    && Distinct(ids)
    && (ids != [] ==> Have(core, ids[0]))
    && forall i {:trigger IdOk(core, start, ids, i)} :: 1 <= i < |ids| ==> IdOk(core, start, ids, i)
  }

  /** A known block behind the first is not invalid, behind known ones only, and at its height. */
  ghost predicate IdOk(core: Core, start: nat, ids: seq<Hash>, i: nat)
    requires i < |ids|
  {
    Have(core, ids[i]) ==>
      && (ids[i] in core.main || ids[i] in core.alt)
      && (forall j :: 1 <= j < i ==> Have(core, ids[j]))
      && (ids[i] in core.main ==> start + i < |core.main| && core.main[start + i] == ids[i])
  }

  ghost predicate Acceptable(core: Core, awaitedHeight: nat, e: Entry) {
    && (e.start + 1) % U64 <= awaitedHeight
    && 0 < |e.ids| <= e.total && e.start <= e.total - |e.ids|
    && (e.weights == [] || |e.weights| == |e.ids|)
    && e.total < MAX_BLOCK_NUMBER && |e.ids| <= MAX_REPLY_IDS
    && IdsOk(core, e.start, e.ids)
  }

  datatype Awaiting = Nothing | ChainEntry | Objects

  datatype Message = GetObjects(from: nat, hashes: seq<Hash>) | GetNext(from: nat) | GetChain(ids: seq<Hash>)

  /** What became of an attempt to ask for more; `Failed` ends the connection. */
  datatype Result = Sent(message: Message) | Standby | Synchronized | Failed

  function NeedsOf(e: Entry): (ns: seq<Need>)
    requires e.weights == [] || |e.weights| == |e.ids|
    ensures HashesOf(ns) == e.ids
  {
    seq(|e.ids|, i requires 0 <= i < |e.ids| => Need(e.ids[i], if e.weights == [] then 0 else e.weights[i]))
  }

  lemma {:induction false} HashesTail(ns: seq<Need>, k: nat)
    requires k <= |ns|
    ensures HashesOf(ns[k..]) == HashesOf(ns)[k..] && HashesOf(ns[..k]) == HashesOf(ns)[..k]
  {
  }

  /** Check the ids of a reply in order. */
  method CheckIds(core: Core, start: nat, ids: seq<Hash>) returns (ok: bool)
    ensures ok <==> IdsOk(core, start, ids)
  {
    var found: set<Hash> := {};
    var unknown := false;
    for i := 0 to |ids|
      invariant Distinct(ids[..i]) && (forall h :: h in found <==> h in ids[..i])
      invariant 0 < i ==> Have(core, ids[0])
      invariant forall j :: 1 <= j < i ==> IdOk(core, start, ids, j)
      invariant unknown <==> exists j :: 1 <= j < i && !Have(core, ids[j])
    {
      var h := ids[i];
      assert ids[..i + 1] == ids[..i] + [h];
      if h in found {
        assert !Distinct(ids);
        return false;
      }
      found := found + {h};
      if i == 0 {
        if !Have(core, h) { return false; }
      } else if h in core.main {
        if unknown || |core.main| <= start + i || core.main[start + i] != h {
          assert !IdOk(core, start, ids, i);
          return false;
        }
      } else if h in core.alt {
        if unknown {
          assert !IdOk(core, start, ids, i);
          return false;
        }
      } else if h in core.invalid {
        assert !IdOk(core, start, ids, i);
        return false;
      } else {
        unknown := true;
      }
    }
    assert ids[..|ids|] == ids;
    return true;
  }

  ghost function SetOf(hs: seq<Hash>): set<Hash> { set h | h in hs }

  lemma {:induction false} SetOfPush(hs: seq<Hash>, h: Hash)
    ensures SetOf(hs + [h]) == SetOf(hs) + {h}
  {
  }

  /** The subtraction of heights wraps below zero and back again, or not at all. */
  lemma {:induction false} FirstHeight(last: nat, n: nat)
    requires n <= last + 1 < U64
    ensures (last - n + 1) % U64 == last + 1 - n
  {
  }

  /** How far behind the start of a list of `n` blocks that ends at `last` the height `from` lies. */
  method Ahead(from: nat, last: nat, n: nat) returns (skip: nat)
    requires n <= last + 1 < U64 && from == last + 1 - n
    ensures skip == 0
  {
    FirstHeight(last, n);
    var first := (last - n + 1) % U64;
    skip := (from - first) % U64;
  }

  lemma {:induction false} SpanTaken(before: seq<Need>, needed: seq<Need>, reply: seq<Hash>, hashes: seq<Hash>, length: nat)
    requires |before| <= |reply| && HashesOf(before) == reply[|reply| - |before|..] && length <= |before|
    requires needed == before[length..] && hashes == HashesOf(before)[..length]
    ensures |needed| <= |reply| && |reply| - |needed| - |hashes| == |reply| - |before|
    ensures HashesOf(needed) == reply[|reply| - |needed|..]
    ensures var k := |reply| - |needed| - |hashes|; hashes == reply[k..k + |hashes|]
  {
    HashesTail(before, length);
  }

  /**
   A block received, with the height in its coinbase: whether it parses and its miner transaction
   has the one generating input, how many transactions it lists, whether each one sent carries a
   prunable hash, and the marks of a pruned block.
   */
  datatype Got = Got(hash: Hash, height: nat, coinbase: bool, listed: nat, txs: seq<bool>, pruned: bool, weight: nat)

  /** The block comes with its coinbase and all its transactions. */
  predicate Whole(b: Got) { b.coinbase && b.listed == |b.txs| }

  /** Nothing of the block is pruned. */
  predicate Unpruned(b: Got) { !b.pruned && b.weight == 0 && forall i :: 0 <= i < |b.txs| ==> !b.txs[i] }

  /** The state kept for one peer. `reply` and `start` remember the last accepted chain reply. */
  class Peer {
    var needed: seq<Need>
    var requested: set<Hash>
    var remote: nat
    var last: nat
    var lastKnown: Option<Hash>
    var awaiting: Awaiting
    var awaitedHeight: nat
    var hits: nat
    ghost var reply: seq<Hash>
    ghost var start: nat

    /** The needed list is the end of the last reply, whose last block has height `last`. */
    ghost predicate Valid()
      reads this
    {
      && last < MAX_BLOCK_NUMBER && remote < U64
      && |needed| <= |reply| && HashesOf(needed) == reply[|reply| - |needed|..]
      && (needed != [] ==> last + 1 == start + |reply|)
    }

    constructor(height: nat)
      requires height < U64
      ensures Valid() && needed == [] && requested == {} && remote == height && last == 0
      ensures awaiting == Nothing
    {
      needed, requested, remote, last, lastKnown := [], {}, height, 0, None;
      awaiting, awaitedHeight, hits, reply, start := Nothing, 0, 0, [], 0;
    }

    // ---------- asking ----------

    /** Drop the known blocks at the front of the needed list. */
    method SkipKnown(core: Core) returns (skip: nat)
      requires Valid()
      modifies this`needed, this`lastKnown
      ensures Valid()
      ensures skip <= |old(needed)| && needed == old(needed)[skip..]
      ensures forall i :: 0 <= i < skip ==> Have(core, old(needed)[i].hash)
      ensures needed != [] ==> !Have(core, needed[0].hash)
      ensures lastKnown == if 0 < skip == |old(needed)| then Some(old(needed)[skip - 1].hash) else old(lastKnown)
    {
      skip := 0;
      while skip < |needed| && Have(core, needed[skip].hash)
        invariant skip <= |needed| && needed == old(needed)
        invariant forall i :: 0 <= i < skip ==> Have(core, needed[i].hash)
        invariant lastKnown == if 0 < skip == |needed| then Some(needed[skip - 1].hash) else old(lastKnown)
      {
        if skip + 1 == |needed| { lastKnown := Some(needed[skip].hash); }
        skip := skip + 1;
      }
      HashesTail(needed, skip);
      needed := needed[skip..];
    }

    /** `hashes` are the blocks of the last reply from height `from` on, up to where the needed list begins. */
    ghost predicate NextStretch(from: nat, hashes: seq<Hash>)
      reads this
    {
      var k := |reply| - |needed| - |hashes|;
      && 0 <= k && hashes == reply[k..k + |hashes|] && from == start + k
      && last + 1 == start + |reply|
    }

    /** Move the first blocks of the needed list to the requested ones. */
    method TakeFirst(length: nat) returns (hashes: seq<Hash>)
      requires length <= |needed|
      modifies this`needed, this`requested
      ensures hashes == HashesOf(old(needed))[..length] && needed == old(needed)[length..]
      ensures requested == old(requested) + SetOf(hashes)
    {
      hashes := [];
      for n := 0 to length
        invariant needed == old(needed) && hashes == HashesOf(needed)[..n]
        invariant requested == old(requested) + SetOf(hashes)
      {
        SetOfPush(hashes, needed[n].hash);
        hashes := hashes + [needed[n].hash];
        requested := requested + {needed[n].hash};
      }
      needed := needed[length..];
    }

    /** Take the next span off the needed list and ask for it; neither internal error can occur. */
    method TakeSpan(from: nat, length: nat) returns (hashes: seq<Hash>)
      requires Valid() && 1 <= length <= |needed| && from == last + 1 - |needed|
      modifies this`needed, this`requested
      ensures Valid()
      ensures hashes == HashesOf(old(needed))[..length] && needed == old(needed)[length..]
      ensures NextStretch(from, hashes) && requested == old(requested) + SetOf(hashes)
    {
      ghost var before := needed;
      DropAhead(from);
      if |needed| < length { assert false; }
      hashes := TakeFirst(length);
      SpanTaken(before, needed, reply, hashes, length);
    }

    /** Drop what lies before `from` from the needed list; there is nothing. */
    method DropAhead(from: nat)
      requires |needed| <= last + 1 < U64 && from == last + 1 - |needed|
      modifies this`needed
      ensures needed == old(needed)
    {
      var skip := Ahead(from, last, |needed|);
      if |needed| < skip { assert false; }
      assert needed[0..] == needed;
      needed := needed[skip..];
    }

    /** Nothing left to ask for from the list: add blocks, ask for a chain, or be done. */
    method AskChain(core: Core, queue: BlockQueue.Queue, free: bool) returns (r: Result, ghost m: nat)
      requires Valid()
      modifies this`needed, this`awaiting, this`awaitedHeight
      ensures Valid() && needed == []
      ensures r.Sent? ==> r.message.GetChain? && awaiting == ChainEntry && core.main != []
      ensures r.Sent? ==> History.Reaches(|core.main|, m)
      ensures r.Sent? ==> || (r.message.ids == History.Chosen(core.main, m) && awaitedHeight == |core.main|)
                          || (&& lastKnown.Some? && awaitedHeight == U64 - 1
                              && r.message.ids == [lastKnown.value] + History.Chosen(core.main, m))
      ensures r == Synchronized ==> last + 1 == remote && requested == {}
    {
      m := 0;
      needed := [];
      if |core.main| < core.target && free && queue.batches != [] { return Standby, m; }
      if last < (remote - 1) % U64 {
        var ids;
        ids, m := History.ShortHistory(core.main);
        if ids == [] { return Failed, m; }
        awaitedHeight := |core.main|;
        if lastKnown.Some? && ids[0] != lastKnown.value {
          awaitedHeight := U64 - 1;
          ids := [lastKnown.value] + ids;
        }
        awaiting := ChainEntry;
        return Sent(GetChain(ids)), m;
      }
      if last != (remote - 1) % U64 || requested != {} { return Failed, m; }
      return Synchronized, m;
    }

    /** Height of the first block of the needed list, as the source subtracts it. */
    method FirstNeeded() returns (first: nat)
      requires Valid()
      ensures first == last + 1 - |needed|
    {
      if last + 1 < |needed| { assert false; }
      FirstHeight(last, |needed|);
      first := (last - |needed| + 1) % U64;
    }

    /** The span that begins the needed list once the known blocks are dropped from it. */
    method SpanFromList(core: Core, queue: BlockQueue.Queue) returns (span: Option<(nat, nat)>, exhausted: bool)
      requires Valid()
      modifies this`needed, this`lastKnown
      ensures Valid() && (exhausted ==> span.None?)
      ensures span.Some? ==>
                && needed != [] && !Have(core, needed[0].hash)
                && span.value == (last + 1 - |needed|, Min(SPAN_BLOCKS, |needed|))
    {
      var skip := SkipKnown(core);
      if 0 < skip && needed == [] { return None, true; }
      var first := FirstNeeded();
      span := queue.Reserve(first, last, SPAN_BLOCKS, HashesOf(needed));
      exhausted := false;
    }

    /** The span to ask for next, from the needed list or, failing that, from the queue. */
    method FindSpan(core: Core, queue: BlockQueue.Queue, force: bool)
      returns (span: Option<(nat, nat)>, isNext: bool, exhausted: bool)
      requires Valid()
      modifies this`needed, this`lastKnown
      ensures Valid()
      ensures isNext ==> queue.batches != [] && span.Some? && span.value.0 == queue.batches[0].start
      ensures !isNext && span.Some? ==>
                && needed != [] && !Have(core, needed[0].hash)
                && span.value == (last + 1 - |needed|, Min(SPAN_BLOCKS, |needed|))
    {
      span, isNext, exhausted := None, false, false;
      if force {
        span := queue.NextSpan();
        isNext := span.Some?;
      }
      if span.None? {
        span, exhausted := SpanFromList(core, queue);
        if exhausted { return; }
      }
      if span.None? && !force {
        span := queue.NextSpan();
        isNext := span.Some?;
      }
    }

    /**
     Ask for what is missing. Blocks are asked for in the order of the last reply: the next 100 or
     all that are left, the first one unknown, awaited at its own height. The list is never longer
     than the heights it stands for.
     */
    method RequestMissing(core: Core, queue: BlockQueue.Queue, force: bool, free: bool) returns (r: Result)
      requires Valid()
      modifies this
      ensures Valid() && reply == old(reply) && start == old(start) && remote == old(remote)
      ensures r.Sent? && r.message.GetObjects? ==>
                && 1 <= |r.message.hashes| <= SPAN_BLOCKS && (needed != [] ==> |r.message.hashes| == SPAN_BLOCKS)
                && NextStretch(r.message.from, r.message.hashes) && !Have(core, r.message.hashes[0])
                && awaiting == Objects && awaitedHeight == r.message.from
                && requested == old(requested) + SetOf(r.message.hashes)
      ensures !(r.Sent? && r.message.GetObjects?) ==> requested == old(requested)
      ensures r.Sent? && r.message.GetNext? ==> queue.batches != [] && awaitedHeight == queue.batches[0].start
    {
      if needed != [] || force {
        var span, isNext, exhausted := FindSpan(core, queue, force);
        if exhausted { return Failed; }
        if span.Some? {
          awaitedHeight, awaiting := span.value.0, Objects;
          if isNext { return Sent(GetNext(span.value.0)); }
          var hashes := TakeSpan(span.value.0, span.value.1);
          return Sent(GetObjects(span.value.0, hashes));
        }
      }
      ghost var m;
      r, m := AskChain(core, queue, free);
    }

    // ---------- being answered ----------

    /** Check a chain reply and make it the needed list; otherwise the connection is dropped. */
    method Accept(e: Entry, core: Core) returns (ok: bool)
      modifies this
      ensures ok <==> old(awaiting) == ChainEntry && Acceptable(core, old(awaitedHeight), e)
      ensures ok ==> Valid() && needed == NeedsOf(e) && reply == e.ids && start == e.start
      ensures ok ==> remote == e.total && last == e.start + |e.ids| - 1 && requested == old(requested)
      ensures ok ==> hits == old(hits) + if e.total < old(remote) then 1 else 0
      ensures ok ==> lastKnown == old(lastKnown)
    {
      if awaiting != ChainEntry { return false; }
      awaiting := Nothing;
      if awaitedHeight < (e.start + 1) % U64 { return false; }
      if e.ids == [] { return false; }
      if e.total < |e.ids| || e.total - |e.ids| < e.start { return false; }
      if e.weights != [] && |e.weights| != |e.ids| { return false; }
      if MAX_BLOCK_NUMBER <= e.total || MAX_REPLY_IDS < |e.ids| { return false; }
      if e.total < remote { hits := hits + 1; }
      remote := e.total;
      last := e.start + |e.ids| - 1;
      if remote < last { assert false; }
      needed := [];
      ok := CheckIds(core, e.start, e.ids);
      if !ok { return; }
      for i := 0 to |e.ids|
        invariant |needed| == i && forall j :: 0 <= j < i ==> needed[j] == NeedsOf(e)[j]
        invariant last == e.start + |e.ids| - 1 && remote == e.total && requested == old(requested)
        invariant hits == old(hits) + (if e.total < old(remote) then 1 else 0) && lastKnown == old(lastKnown)
      {
        needed := needed + [Need(e.ids[i], if e.weights == [] then 0 else e.weights[i])];
      }
      assert needed == NeedsOf(e);
      reply, start := e.ids, e.start;
    }

    /** A chain reply: checked, then the first blocks of it asked for. The height to aim for rises if that works. */
    method HandleChainEntry(e: Entry, core: Core, queue: BlockQueue.Queue, free: bool) returns (ok: bool, r: Result, target: nat)
      modifies this
      ensures !(old(awaiting) == ChainEntry && Acceptable(core, old(awaitedHeight), e)) ==> !ok
      ensures ok ==> Valid() && reply == e.ids && start == e.start && r != Failed && remote == e.total
      ensures target == if ok then Max(core.target, e.total) else core.target
    {
      r, target := Failed, core.target;
      ok := Accept(e, core);
      if !ok { return; }
      r := RequestMissing(core, queue, false, free);
      ok := r != Failed;
      if ok && target < e.total { target := e.total; }
    }

    /** Take the blocks that were asked for off the list of requests: whole, each once, none else, none missing. */
    method Deliver(blocks: seq<Got>) returns (ok: bool)
      modifies this`requested
      ensures ok <==> Arrives(blocks, old(requested))
      ensures ok ==> requested == {}
    {
      ghost var asked := requested;
      for i := 0 to |blocks|
        invariant Fetched(blocks, i, asked, requested)
      {
        if !blocks[i].coinbase || blocks[i].hash !in requested || blocks[i].listed != |blocks[i].txs| {
          FetchFails(blocks, i, asked, requested);
          return false;
        }
        FetchOne(blocks, i, asked, requested);
        requested := requested - {blocks[i].hash};
      }
      FetchEnds(blocks, asked, requested);
      ok := requested == {};
    }

    /** Check that the blocks are those that were asked for; the height to aim for rises to that of the peer. */
    method Receive(height: nat, blocks: seq<Got>, target: nat) returns (ok: bool, raised: nat)
      requires Valid() && height < U64
      modifies this`awaiting, this`hits, this`remote, this`requested
      ensures Valid()
      ensures ok <==> && old(awaiting) == Objects && blocks != [] && last <= height && blocks[0].height <= awaitedHeight
                      && Arrives(blocks, old(requested)) && forall i :: 0 <= i < |blocks| ==> Unpruned(blocks[i])
      ensures ok ==> remote == height && requested == {} && hits == old(hits) + if height < old(remote) then 1 else 0
      ensures raised == if old(awaiting) == Objects && blocks != [] && last <= height then Max(target, height) else target
    {
      raised := target;
      if awaiting != Objects { return false, raised; }
      awaiting := Nothing;
      if blocks == [] { return false, raised; }
      if height < last { return false, raised; }
      if height < remote { hits := hits + 1; }
      remote := height;
      if raised < remote { raised := remote; }
      if !blocks[0].coinbase || awaitedHeight < blocks[0].height { return false, raised; }
      ok := Deliver(blocks);
      if !ok { return; }
      for i := 0 to |blocks|
        invariant forall j :: 0 <= j < i ==> Unpruned(blocks[j])
      {
        if !Unpruned(blocks[i]) { return false, raised; }
      }
    }

    /** Queue the blocks and drain the queue into the node; a batch without parent resets the list. */
    method Absorb(blocks: seq<Got>, peer: nat, blank: Hash, fate: (nat, BlockQueue.Batch) -> BlockQueue.Fate, queue: BlockQueue.Queue)
      returns (ok: bool)
      requires Valid() && queue.Valid() && blocks != []
      modifies this`needed, this`last, this`lastKnown, queue
      ensures Valid() && queue.Valid()
    {
      queue.AddBlocks(blocks[0].height, GotHashes(blocks), peer);
      lastKnown := Some(blank);
      var ending := queue.Drain(fate);
      if ending == BlockQueue.Orphaned { needed, last := [], 0; }
      return ending != BlockQueue.Broken;
    }

    /**
     Blocks from the peer. They have to be exactly the requested ones; they go to the queue, the
     queue is drained into the node (`after` is what the node then has), and more is asked for.
     `target` is the height the node aimed for before, `raised` the one it aims for now; `blank` is
     the hash that is kept as last known one: that of an empty block.
     */
    method HandleObjects(height: nat, blocks: seq<Got>, peer: nat, blank: Hash, fate: (nat, BlockQueue.Batch) -> BlockQueue.Fate,
                         after: Core, target: nat, queue: BlockQueue.Queue, force: bool, free: bool)
      returns (ok: bool, r: Result, raised: nat)
      requires Valid() && queue.Valid() && height < U64
      modifies this, queue
      ensures Valid() && queue.Valid()
      ensures ok ==> reply == old(reply) && start == old(start) && remote == height
      ensures ok ==> old(awaiting) == Objects && Arrives(blocks, old(requested)) && raised == Max(target, height)
      ensures ok ==> forall i :: 0 <= i < |blocks| ==> Unpruned(blocks[i])
    {
      r := Failed;
      ok, raised := Receive(height, blocks, target);
      if !ok { return; }
      ok := Absorb(blocks, peer, blank, fate, queue);
      if !ok { return; }
      r := RequestMissing(after.(target := raised), queue, force, free);
      ok := r != Failed;
    }
  }

  function GotHashes(blocks: seq<Got>): seq<Hash> {
    seq(|blocks|, i requires 0 <= i < |blocks| => blocks[i].hash)
  }

  ghost function Delivered(blocks: seq<Got>): set<Hash> {
    set i | 0 <= i < |blocks| :: blocks[i].hash
  }

  lemma {:induction false} DeliveredPush(blocks: seq<Got>, i: nat)
    requires i < |blocks|
    ensures Delivered(blocks[..i + 1]) == Delivered(blocks[..i]) + {blocks[i].hash}
  {
    assert blocks[..i + 1] == blocks[..i] + [blocks[i]];
    forall h | h in Delivered(blocks[..i]) ensures h in Delivered(blocks[..i + 1]) {
      var j :| 0 <= j < i && blocks[..i][j].hash == h;
      assert blocks[..i + 1][j].hash == h;
    }
    assert blocks[..i + 1][i] == blocks[i];
  }

  lemma {:induction false} DeliveredSize(blocks: seq<Got>)
    ensures |Delivered(blocks)| <= |blocks|
    decreases |blocks|
  {
    if blocks != [] {
      var n := |blocks| - 1;
      DeliveredSize(blocks[..n]);
      DeliveredPush(blocks, n);
      assert blocks[..n + 1] == blocks;
    }
  }

  /** A block that was not asked for, or comes twice, spoils the whole delivery. */
  lemma {:induction false} DeliveredTwice(blocks: seq<Got>, i: nat, asked: set<Hash>)
    requires i < |blocks| && (blocks[i].hash !in asked || blocks[i].hash in Delivered(blocks[..i]))
    ensures !(|blocks| == |asked| && Delivered(blocks) == asked)
  {
    assert blocks[i].hash in Delivered(blocks);
    if blocks[i].hash in asked {
      var rest := blocks[..i] + blocks[i + 1..];
      forall h | h in Delivered(blocks) ensures h in Delivered(rest) {
        var j :| 0 <= j < |blocks| && blocks[j].hash == h;
        if j == i {
          var k :| 0 <= k < i && blocks[..i][k].hash == blocks[i].hash;
          assert rest[k].hash == h;
        } else {
          assert rest[if j < i then j else j - 1].hash == h;
        }
      }
      forall h | h in Delivered(rest) ensures h in Delivered(blocks) {
        var j :| 0 <= j < |rest| && rest[j].hash == h;
        assert blocks[if j < i then j else j + 1].hash == h;
      }
      assert Delivered(rest) == Delivered(blocks);
      DeliveredSize(rest);
    }
  }

  /** The blocks are whole and exactly those asked for, each once. */
  ghost predicate Arrives(blocks: seq<Got>, asked: set<Hash>) {
    && (forall i :: 0 <= i < |blocks| ==> Whole(blocks[i]))
    && |blocks| == |asked| && Delivered(blocks) == asked
  }

  /** The first `i` blocks have come and `left` is what is still to come. */
  ghost predicate Fetched(blocks: seq<Got>, i: nat, asked: set<Hash>, left: set<Hash>) {
    && i <= |blocks| && (forall j :: 0 <= j < i ==> Whole(blocks[j]))
    && Delivered(blocks[..i]) <= asked && left == asked - Delivered(blocks[..i]) && |left| + i == |asked|
  }

  lemma {:induction false} FetchOne(blocks: seq<Got>, i: nat, asked: set<Hash>, left: set<Hash>)
    requires Fetched(blocks, i, asked, left) && i < |blocks| && Whole(blocks[i]) && blocks[i].hash in left
    ensures Fetched(blocks, i + 1, asked, left - {blocks[i].hash})
  {
    DeliveredPush(blocks, i);
  }

  lemma {:induction false} FetchFails(blocks: seq<Got>, i: nat, asked: set<Hash>, left: set<Hash>)
    requires Fetched(blocks, i, asked, left) && i < |blocks| && !(Whole(blocks[i]) && blocks[i].hash in left)
    ensures !Arrives(blocks, asked)
  {
    if Whole(blocks[i]) { DeliveredTwice(blocks, i, asked); }
  }

  lemma {:induction false} FetchEnds(blocks: seq<Got>, asked: set<Hash>, left: set<Hash>)
    requires Fetched(blocks, |blocks|, asked, left)
    ensures left == {} <==> Arrives(blocks, asked)
  {
    assert blocks[..|blocks|] == blocks;
    if left == {} { assert Delivered(blocks) == asked; }
  }

  // ---------- an honest peer ----------

  /** What the node has it has with the parent. */
  ghost predicate Closed(l: History.Links, core: Core) {
    forall h {:trigger l.parent(h)} :: Have(core, h) && 0 < l.height(h) ==> Have(core, l.parent(h))
  }

  lemma {:induction false} KnownBelow(l: History.Links, core: Core, b: seq<Hash>, i: nat, j: nat)
    requires Closed(l, core) && History.Linked(l, b) && i <= j < |b| && Have(core, b[j])
    ensures Have(core, b[i])
    decreases j
  {
    if i < j {
      assert History.LinkedAt(l, b, j);
      assert l.parent(b[j]) == b[j - 1];
      KnownBelow(l, core, b, i, j - 1);
    }
  }

  lemma {:induction false} LinkedDistinct(l: History.Links, b: seq<Hash>, s: nat, e: nat)
    requires History.Linked(l, b) && s <= e <= |b|
    ensures Distinct(b[s..e])
  {
    forall i, j | 0 <= i < j < e - s ensures b[s..e][i] != b[s..e][j] {
      assert History.LinkedAt(l, b, s + i) && History.LinkedAt(l, b, s + j);
    }
  }

  lemma {:induction false} HonestIds(l: History.Links, core: Core, b: seq<Hash>, s: nat, e: nat)
    requires History.Linked(l, core.main) && History.Linked(l, b) && Closed(l, core)
    requires s < e <= |b| && Have(core, b[s]) && forall h :: h in b ==> h !in core.invalid
    ensures IdsOk(core, s, b[s..e])
  {
    var ids := b[s..e];
    LinkedDistinct(l, b, s, e);
    forall i | 1 <= i < |ids| ensures IdOk(core, s, ids, i) {
      assert ids[i] == b[s + i];
      if Have(core, ids[i]) {
        assert b[s + i] in b;
        forall j | 1 <= j < i ensures Have(core, ids[j]) { KnownBelow(l, core, b, s + j, s + i); }
        if ids[i] in core.main {
          var k :| 0 <= k < |core.main| && core.main[k] == ids[i];
          History.SameBelow(l, core.main, b, k, s + i);
        }
      }
    }
  }

  /** The reply of a peer with chain `b`; the block weights are optional. */
  ghost predicate HonestReply(b: seq<Hash>, e: Entry) {
    e.start < |b| == e.total && e.ids == History.ReplyFrom(b, e.start) && (e.weights == [] || |e.weights| == |e.ids|)
  }

  /**
   An honest reply is accepted: if the node has the parents of its blocks, none of the peer's
   blocks is invalid here, and the peer answers from a block the node has, every check passes.
   */
  lemma {:induction false} HonestIsAcceptable(l: History.Links, core: Core, b: seq<Hash>, e: Entry, awaitedHeight: nat)
    requires History.Linked(l, core.main) && History.Linked(l, b) && Closed(l, core)
    requires |b| < MAX_BLOCK_NUMBER && forall h :: h in b ==> h !in core.invalid
    requires HonestReply(b, e) && Have(core, b[e.start]) && e.start + 1 <= awaitedHeight
    ensures Acceptable(core, awaitedHeight, e)
  {
    HonestIds(l, core, b, e.start, Min(|b|, e.start + History.REPLY_IDS));
  }

  /** In particular the reply to the short history of the node's own chain. */
  lemma {:induction false} HonestExchange(l: History.Links, core: Core, b: seq<Hash>, f: nat, m: nat, i: nat, e: Entry)
    requires History.Linked(l, core.main) && History.Linked(l, b) && Closed(l, core)
    requires |b| < MAX_BLOCK_NUMBER && forall h :: h in b ==> h !in core.invalid
    requires History.PartAfter(core.main, b, f) && History.Reaches(|core.main|, m)
    requires History.FirstKnown(b, History.Chosen(core.main, m), i)
    requires HonestReply(b, e) && b[e.start] == History.Chosen(core.main, m)[i]
    ensures Acceptable(core, |core.main|, e)
  {
    History.SplitIsClose(l, core.main, b, f, m, i, e.start);
    History.CommonUpTo(l, core.main, b, f, e.start);
    HonestIsAcceptable(l, core, b, e, |core.main|);
  }
}
