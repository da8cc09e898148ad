/**
 The blocks whose timestamps and cumulative work decide the next difficulty: the last 145
 blocks below the new one, genesis left out, taken from the main chain or, for a block on a
 branch, from the branch and the main chain below the fork.
 */
module Windows {
  import opened Ledger

  const WINDOW: nat := 145

  /** Height of the first block of the window for a block at `height`. */
  function Start(height: nat): nat {
    Max(1, height - Min(height, WINDOW))
  }

  function Window(c: seq<Node>): (w: seq<Node>)
    ensures |w| == if |c| == 0 then 0 else Min(|c| - 1, WINDOW)
  {
    if |c| <= Start(|c|) then [] else c[Start(|c|)..]
  }

  function Stamps(c: seq<Node>): (s: seq<nat>)
    ensures |s| == |c| && forall i :: 0 <= i < |c| ==> s[i] == c[i].block.timestamp
  {
    seq(|c|, i requires 0 <= i < |c| => c[i].block.timestamp)
  }

  function Works(c: seq<Node>): (s: seq<nat>)
    ensures |s| == |c| && forall i :: 0 <= i < |c| ==> s[i] == c[i].work
  {
    seq(|c|, i requires 0 <= i < |c| => c[i].work)
  }

  /** Height at which the branch leaves the main chain; `height` is that of the block to be placed. */
  function Fork(alts: seq<Node>, height: nat): nat {
    if alts == [] then height else alts[0].block.height
  }

  /** The chain a branch would be part of: the main chain below the fork, then the branch. */
  function Branch(main: seq<Node>, alts: seq<Node>, height: nat): seq<Node>
    requires Fork(alts, height) <= |main|
  {
    main[..Fork(alts, height)] + alts
  }

  /** The lists of the main-chain routine. */
  method MainLists(c: seq<Node>) returns (stamps: seq<nat>, works: seq<nat>)
    ensures stamps == Stamps(Window(c)) && works == Works(Window(c))
  {
    var height := |c|;
    var offset := height - Min(height, WINDOW);
    if offset == 0 { offset := 1; }
    stamps, works := [], [];
    ghost var from := offset;
    while offset < height
      invariant from <= offset && (offset <= height || offset == from)
      invariant |stamps| == |works| == offset - from
      invariant forall i :: 0 <= i < offset - from ==> from + i < |c| && stamps[i] == c[from + i].block.timestamp
      invariant forall i :: 0 <= i < offset - from ==> from + i < |c| && works[i] == c[from + i].work
    {
      stamps, works := stamps + [c[offset].block.timestamp], works + [c[offset].work];
      offset := offset + 1;
    }
  }

  lemma {:induction false} LongBranchWindow(main: seq<Node>, alts: seq<Node>, height: nat)
    requires 1 <= Fork(alts, height) <= |main| && WINDOW <= |alts|
    ensures Window(Branch(main, alts, height)) == alts[|alts| - WINDOW..]
  {
    var c := Branch(main, alts, height);
    assert c[|c| - WINDOW..] == alts[|alts| - WINDOW..];
  }

  lemma {:induction false} ShortBranchWindow(main: seq<Node>, alts: seq<Node>, height: nat, start: nat)
    requires 1 <= Fork(alts, height) <= |main| && |alts| < WINDOW
    requires var stop := Fork(alts, height); start == Max(1, stop - Min(WINDOW - |alts|, stop))
    ensures start <= Fork(alts, height)
    ensures Window(Branch(main, alts, height)) == main[start..Fork(alts, height)] + alts
  {
    var c := Branch(main, alts, height);
    assert Start(|c|) == start;
    assert c[start..] == main[start..Fork(alts, height)] + alts;
  }

  /** `stamps[i]` and `works[i]` belong to the block as far from the end of `alts` as `i` is from theirs. */
  ghost predicate TailAt(alts: seq<Node>, stamps: seq<nat>, works: seq<nat>, i: nat) {
    && i < |stamps| == |works| <= |alts|
    && var x := alts[|alts| - |stamps| + i]; stamps[i] == x.block.timestamp && works[i] == x.work
  }

  /** Write a branch back to front into two buffers, newest block first, until they are full. */
  method FillBack(alts: seq<Node>, s: array<nat>, w: array<nat>, ghost stamps: seq<nat>, ghost works: seq<nat>)
    requires s != w && s.Length == w.Length == |stamps| == |works| <= |alts|
    requires forall i {:trigger TailAt(alts, stamps, works, i)} :: 0 <= i < |stamps| ==> TailAt(alts, stamps, works, i)
    modifies s, w
    ensures s[..] == stamps && w[..] == works
  {
    var count := 0;
    while count < s.Length
      invariant 0 <= count <= s.Length
      invariant forall i :: s.Length - count <= i < s.Length ==> s[i] == stamps[i]
      invariant forall i :: s.Length - count <= i < s.Length ==> w[i] == works[i]
    {
      assert TailAt(alts, stamps, works, s.Length - 1 - count);
      var x := alts[|alts| - 1 - count];
      s[s.Length - 1 - count] := x.block.timestamp;
      w[s.Length - 1 - count] := x.work;
      count := count + 1;
    }
  }

  /** The last 145 blocks of a long branch. */
  method TailLists(alts: seq<Node>) returns (stamps: seq<nat>, works: seq<nat>)
    requires WINDOW <= |alts|
    ensures stamps == Stamps(alts[|alts| - WINDOW..]) && works == Works(alts[|alts| - WINDOW..])
  {
    ghost var tail := alts[|alts| - WINDOW..];
    var s, w := new nat[WINDOW], new nat[WINDOW];
    assert forall i {:trigger TailAt(alts, Stamps(tail), Works(tail), i)} ::
        0 <= i < |tail| ==> TailAt(alts, Stamps(tail), Works(tail), i);
    FillBack(alts, s, w, Stamps(tail), Works(tail));
    stamps, works := s[..], w[..];
  }

  lemma {:induction false} ListsPush(c: seq<Node>, x: Node)
    ensures Stamps(c + [x]) == Stamps(c) + [x.block.timestamp]
    ensures Works(c + [x]) == Works(c) + [x.work]
  {
  }

  /** A stretch of the main chain followed by the branch. */
  method ShortLists(main: seq<Node>, from: nat, stop: nat, alts: seq<Node>) returns (stamps: seq<nat>, works: seq<nat>)
    requires from <= stop <= |main|
    ensures stamps == Stamps(main[from..stop] + alts) && works == Works(main[from..stop] + alts)
  {
    stamps, works := [], [];
    var start := from;
    while start < stop
      invariant from <= start <= stop
      invariant stamps == Stamps(main[from..start]) && works == Works(main[from..start])
    {
      ListsPush(main[from..start], main[start]);
      assert main[from..start + 1] == main[from..start] + [main[start]];
      stamps, works := stamps + [main[start].block.timestamp], works + [main[start].work];
      start := start + 1;
    }
    assert main[from..stop] + alts[..0] == main[from..stop];
    for i := 0 to |alts|
      invariant stamps == Stamps(main[from..stop] + alts[..i]) && works == Works(main[from..stop] + alts[..i])
    {
      ListsPush(main[from..stop] + alts[..i], alts[i]);
      assert main[from..stop] + alts[..i + 1] == main[from..stop] + alts[..i] + [alts[i]];
      stamps, works := stamps + [alts[i].block.timestamp], works + [alts[i].work];
    }
    assert alts[..|alts|] == alts;
  }

  /**
   The lists of the branch routine for a block at `height` on the branch `alts`: for every fork
   point and branch length they are the lists the main-chain routine would build at that height
   with the branch as main chain.
   */
  method AltLists(main: seq<Node>, alts: seq<Node>, height: nat) returns (stamps: seq<nat>, works: seq<nat>)
    requires 1 <= Fork(alts, height) <= |main|
    ensures stamps == Stamps(Window(Branch(main, alts, height)))
    ensures works == Works(Window(Branch(main, alts, height)))
  {
    if |alts| < WINDOW {
      var stop := if alts != [] then alts[0].block.height else height;
      var count := WINDOW - Min(WINDOW, |alts|);
      count := Min(count, stop);
      var start := stop - count;
      if start == 0 { start := start + 1; }
      ShortBranchWindow(main, alts, height, start);
      stamps, works := ShortLists(main, start, stop, alts);
    } else {
      LongBranchWindow(main, alts, height);
      stamps, works := TailLists(alts);
    }
  }
}
