/** The queue of downloaded spans of blocks, and the choice of the next span to ask for. */
module BlockQueue {
  import opened Ledger

  /** A span of blocks from a peer, starting at height `start`. */
  datatype Batch = Batch(start: nat, blocks: seq<Hash>, peer: nat)

  predicate FromPeer(b: Batch, peer: nat) { b.peer == peer }

  predicate UpTo(b: Batch, peer: nat, start: nat) { b.peer == peer && b.start <= start }

  /** The batches that `drop` does not name, in their order. */
  ghost function Keep(s: seq<Batch>, drop: Batch -> bool): seq<Batch> {
    if s == [] then []
    else if drop(s[|s| - 1]) then Keep(s[..|s| - 1], drop)
    else Keep(s[..|s| - 1], drop) + [s[|s| - 1]]
  }

  lemma {:induction false} KeepIs(s: seq<Batch>, drop: Batch -> bool)
    ensures |Keep(s, drop)| <= |s|
    ensures forall x :: x in Keep(s, drop) <==> x in s && !drop(x)
    ensures s != [] && drop(s[0]) ==> |Keep(s, drop)| < |s|
    decreases |s|
  {
    if s != [] {
      var n := |s| - 1;
      KeepIs(s[..n], drop);
      assert s == s[..n] + [s[n]];
    }
  }

  class Queue {
    var batches: seq<Batch>

    /** No batch is empty. */
    ghost predicate Valid()
      reads this
    {
      forall b :: b in batches ==> b.blocks != []
    }

    constructor()
      ensures Valid() && batches == []
    {
      batches := [];
    }

    method AddBlocks(start: nat, blocks: seq<Hash>, peer: nat)
      requires Valid()
      modifies this
      ensures Valid()
      ensures batches == if blocks == [] then old(batches) else old(batches) + [Batch(start, blocks, peer)]
    {
      if blocks == [] { return; }
      batches := batches + [Batch(start, blocks, peer)];
    }

    method RemovePeer(peer: nat)
      requires Valid()
      modifies this
      ensures Valid() && batches == Keep(old(batches), b => FromPeer(b, peer))
    {
      var kept := [];
      for i := 0 to |batches|
        invariant batches == old(batches)
        invariant kept == Keep(batches[..i], b => FromPeer(b, peer))
      {
        assert batches[..i + 1][..i] == batches[..i];
        if batches[i].peer != peer { kept := kept + [batches[i]]; }
      }
      assert batches[..|batches|] == batches;
      KeepIs(batches, b => FromPeer(b, peer));
      batches := kept;
    }

    method RemoveUpTo(peer: nat, start: nat)
      requires Valid()
      modifies this
      ensures Valid() && batches == Keep(old(batches), b => UpTo(b, peer, start))
    {
      var kept := [];
      for i := 0 to |batches|
        invariant batches == old(batches)
        invariant kept == Keep(batches[..i], b => UpTo(b, peer, start))
      {
        assert batches[..i + 1][..i] == batches[..i];
        if !(batches[i].peer == peer && batches[i].start <= start) { kept := kept + [batches[i]]; }
      }
      assert batches[..|batches|] == batches;
      KeepIs(batches, b => UpTo(b, peer, start));
      batches := kept;
    }

    /**
     The span to ask for next: the hashes still needed end at height `last`, and the span is the
     first `max` of them.
     */
    method Reserve(first: nat, last: nat, max: nat, hashes: seq<Hash>) returns (span: Option<(nat, nat)>)
      ensures span.None? <==> last < first || max == 0 || last < |hashes| || hashes == []
      ensures span.Some? ==> span.value == (last + 1 - |hashes|, Min(max, |hashes|))
    {
      if last < first || max == 0 { return None; }
      if last < |hashes| { return None; }
      var start := last - |hashes| + 1;
      var hashesStart := last - |hashes| + 1;
      if |hashes| + hashesStart <= start { return None; }
      var i := start - hashesStart;
      var length := 0;
      while i != |hashes| && length < max
        invariant 0 <= i <= |hashes| && length == i <= max
        decreases |hashes| - i
      {
        i, length := i + 1, length + 1;
      }
      if length == 0 { return None; }
      return Some((start, length));
    }

    /** The span of the batch at the front. */
    method NextSpan() returns (span: Option<(nat, nat)>)
      ensures span == if batches == [] then None else Some((batches[0].start, |batches[0].blocks|))
    {
      if batches == [] { return None; }
      return Some((batches[0].start, |batches[0].blocks|));
    }

    /**
     Hand the batches to the node, front first, until none is left, one fails, or one has an
     unknown parent; `fate` says how the node takes a batch. Every round removes the front, so the
     loop ends, and a batch without blocks is never met.
     */
    method Drain(fate: (nat, Batch) -> Fate) returns (ending: Ending)
      requires Valid()
      modifies this
      ensures Valid() && |batches| <= |old(batches)|
      ensures forall b :: b in batches ==> b in old(batches)
      ensures ending.Emptied? ==> batches == []
      ensures ending.Orphaned? ==> |batches| < |old(batches)|
    {
      var round := 0;
      while batches != []
        invariant Valid() && |batches| <= |old(batches)|
        invariant forall b :: b in batches ==> b in old(batches)
        decreases |batches|
      {
        var front := batches[0];
        KeepIs(batches, b => UpTo(b, front.peer, front.start));
        var f := fate(round, front);
        if f == Unprepared { return Broken; }
        RemoveUpTo(front.peer, front.start);
        if f == NoParent { return Orphaned; }
        if f == Failed { return Broken; }
        round := round + 1;
      }
      return Emptied;
    }
  }

  datatype Fate = Old | NoParent | Unprepared | Failed | Taken

  datatype Ending = Emptied | Orphaned | Broken
}
