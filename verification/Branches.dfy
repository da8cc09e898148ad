/** Alternative blocks: a stored branch is a path, and carries the work it would have as main chain. */
module Branches {
  import opened Ledger
  import opened Windows
  import opened Chain
  import opened Reorg

  /** Every alternative is stored under its hash, with the work of its history. */
  ghost predicate AltOk(r: Rules, g: Node, alt: map<Hash, Node>) {
    forall h :: h in alt ==> AltNode(r, g, h, alt[h])
  }

  ghost predicate AltNode(r: Rules, g: Node, h: Hash, x: Node) {
    r.hash(x.block) == h && 1 <= x.block.height && Known(r, g, x)
  }

  /** Each node links to the one before it. */
  ghost predicate Linked(r: Rules, c: seq<Node>) {
    forall i :: 0 < i < |c| ==> c[i].block.prev == r.hash(c[i - 1].block)
  }

  ghost predicate AllStored(r: Rules, alt: map<Hash, Node>, c: seq<Node>) {
    forall i :: 0 <= i < |c| ==> r.hash(c[i].block) in alt && alt[r.hash(c[i].block)] == c[i]
  }

  /** The blocks are stored, and no two are the same. */
  ghost predicate Droppable(r: Rules, alt: map<Hash, Node>, bs: seq<Block>) {
    && (forall i :: 0 <= i < |bs| ==> r.hash(bs[i]) in alt)
    && forall i, j :: 0 <= i < j < |bs| ==> r.hash(bs[i]) != r.hash(bs[j])
  }

  lemma {:induction false} DroppableRest(r: Rules, alt: map<Hash, Node>, bs: seq<Block>)
    requires Droppable(r, alt, bs) && bs != []
    ensures Droppable(r, alt - {r.hash(bs[0])}, bs[1..])
    ensures Hashes(r, bs) == {r.hash(bs[0])} + Hashes(r, bs[1..])
  {
    forall h | h in Hashes(r, bs) ensures h in {r.hash(bs[0])} + Hashes(r, bs[1..]) {
      var i :| 0 <= i < |bs| && h == r.hash(bs[i]);
      if 0 < i { assert bs[1..][i - 1] == bs[i]; }
    }
    forall h | h in Hashes(r, bs[1..]) ensures h in Hashes(r, bs) {
      var i :| 0 <= i < |bs[1..]| && h == r.hash(bs[1..][i]);
      assert bs[i + 1] == bs[1..][i];
    }
    forall i | 0 <= i < |bs[1..]| ensures r.hash(bs[1..][i]) in alt - {r.hash(bs[0])} {
      assert r.hash(bs[0]) != r.hash(bs[i + 1]);
    }
  }

  /** Blocks that are stored can be dropped. */
  lemma {:induction false} ForgetDrops(r: Rules, s: State, bs: seq<Block>)
    requires Droppable(r, s.alt, bs)
    ensures Forget(r, s, bs) == Step(s.(alt := s.alt - Hashes(r, bs)), Switched)
    decreases |bs|
  {
    if bs == [] {
      assert s.alt - Hashes(r, bs) == s.alt;
    } else {
      DroppableRest(r, s.alt, bs);
      var t := s.(alt := s.alt - {r.hash(bs[0])});
      ForgetDrops(r, t, bs[1..]);
      assert t.alt - Hashes(r, bs[1..]) == s.alt - Hashes(r, bs);
    }
  }

  lemma {:induction false} AbandonDrops(r: Rules, s: State, bs: seq<Block>)
    requires Droppable(r, s.alt, bs)
    ensures Abandon(r, s, bs) == Step(s.(alt := s.alt - Hashes(r, bs), invalid := s.invalid + Hashes(r, bs)), RolledBack)
    decreases |bs|
  {
    if bs == [] {
      assert s.alt - Hashes(r, bs) == s.alt && s.invalid + Hashes(r, bs) == s.invalid;
    } else {
      DroppableRest(r, s.alt, bs);
      var h := {r.hash(bs[0])};
      var t := s.(alt := s.alt - h, invalid := s.invalid + h);
      AbandonDrops(r, t, bs[1..]);
      assert t.alt - Hashes(r, bs[1..]) == s.alt - Hashes(r, bs);
      assert t.invalid + Hashes(r, bs[1..]) == s.invalid + Hashes(r, bs);
    }
  }

  /** Forgetting only drops, and drops nothing but these. */
  lemma {:induction false} ForgetBounds(r: Rules, s: State, bs: seq<Block>)
    ensures forall h :: h in Forget(r, s, bs).state.alt ==> h in s.alt && Forget(r, s, bs).state.alt[h] == s.alt[h]
    decreases |bs|
  {
    if bs != [] && r.hash(bs[0]) in s.alt { ForgetBounds(r, s.(alt := s.alt - {r.hash(bs[0])}), bs[1..]); }
  }

  lemma {:induction false} BuildAltLinked(r: Rules, g: Node, alt: map<Hash, Node>, h: Hash)
    requires AltOk(r, g, alt)
    ensures Linked(r, BuildAlt(alt, h)) && AllStored(r, alt, BuildAlt(alt, h))
    ensures BuildAlt(alt, h) == [] <==> h !in alt
    ensures h in alt ==> Last(BuildAlt(alt, h)) == alt[h]
    decreases alt.Keys
  {
    if h in alt {
      BuildAltLinked(r, g, alt - {h}, alt[h].block.prev);
      var a := BuildAlt(alt - {h}, alt[h].block.prev);
      var c := a + [alt[h]];
      assert a != [] ==> Last(a) == alt[alt[h].block.prev];
    }
  }

  /** A linked run of known nodes behind a path makes a longer path. */
  lemma {:induction false} PathAppend(r: Rules, g: Node, p: seq<Node>, c: seq<Node>)
    requires Lawful(r) && g.block.height == 0 && Path(r, g, p) && Linked(r, c)
    requires c != [] ==> c[0].block.prev == r.hash(Last(p).block)
    requires forall i :: 0 <= i < |c| ==> Known(r, g, c[i]) && c[i].block.height != 0
    ensures Path(r, g, p + c)
    decreases |c|
  {
    if c == [] {
      assert p + c == p;
    } else {
      PathGrows(r, g, p, c[0]);
      PathAppend(r, g, p + [c[0]], c[1..]);
      assert p + c == p + [c[0]] + c[1..];
    }
  }

  /** The parent chain of an attached block is a path that ends in its parent. */
  lemma {:induction false} ParentPath(r: Rules, g: Node, c: seq<Record>, alt: map<Hash, Node>, prev: Hash)
    requires Lawful(r) && g.block.height == 0 && Path(r, g, Nodes(c)) && AltOk(r, g, alt)
    requires Attached(r, c, BuildAlt(alt, prev), prev)
    ensures var alts := BuildAlt(alt, prev);
            var p := ParentChain(r, c, alts, prev);
            Path(r, g, p) && r.hash(Last(p).block) == prev && |p| == AltHeight(r, c, alts, prev)
  {
    var alts := BuildAlt(alt, prev);
    BuildAltLinked(r, g, alt, prev);
    if alts == [] {
      var k := Find(r, c, prev);
      PathPrefix(r, g, Nodes(c), k + 1);
      assert Branch(Nodes(c), [], k + 1) == Nodes(c)[..k + 1];
    } else {
      var f := alts[0].block.height;
      PathPrefix(r, g, Nodes(c), f);
      assert Last(Nodes(c)[..f]) == c[f - 1].node;
      forall i | 0 <= i < |alts| ensures Known(r, g, alts[i]) && alts[i].block.height != 0 {
        assert AltNode(r, g, r.hash(alts[i].block), alts[i]);
      }
      PathAppend(r, g, Nodes(c)[..f], alts);
      PathHeight(r, g, Nodes(c)[..f] + alts);
    }
  }

  /** Storing one more alternative. */
  ghost predicate PlacedAs(r: Rules, g: Node, s: State, b: Block, p: Placed, x: Node)
    requires s.main != []
  {
    && x.block == b && Known(r, g, x) && 1 <= b.height
    && p.state == s.(alt := s.alt[r.hash(b) := x])
    && (p.outcome == Heavier <==> Last(s.main).node.work < x.work)
    && p.branch == BuildAlt(s.alt, b.prev) + [x]
    && Attached(r, s.main, BuildAlt(s.alt, b.prev), b.prev)
    && Path(r, g, ParentChain(r, s.main, BuildAlt(s.alt, b.prev), b.prev) + [x])
  }

  /** The block passes every check of the branch with difficulty `d`. */
  ghost predicate Storable(r: Rules, s: State, b: Block, d: nat) {
    AltTimely(r, s, b) && AltAhead(r, s, b) == Some(d) && AltPasses(r, s, b, d)
  }

  lemma {:induction false} PlaceUnfolds(r: Rules, s: State, b: Block) returns (d: nat)
    requires s.main != []
    ensures var p := PlaceAlt(r, s, b);
            if p.outcome == Heavier || p.outcome == Lighter
            then Storable(r, s, b, d) && p == StoreAlt(r, s, b, NewNode(r, s, b, d))
            else p.state == s
  {
    d := 0;
    if AltTimely(r, s, b) && AltAhead(r, s, b).Some? { d := AltAhead(r, s, b).value; }
  }

  /** A block that passes every check is stored. */
  lemma {:induction false} PlaceStores(r: Rules, s: State, b: Block, d: nat)
    requires s.main != [] && b.height != 0 && Storable(r, s, b, d)
    ensures PlaceAlt(r, s, b) == StoreAlt(r, s, b, NewNode(r, s, b, d))
  {
    assert BuildAlt(s.alt, b.prev) != [] ==> b.prev in s.alt;
  }

  lemma {:induction false} StorableIs(r: Rules, s: State, b: Block, d: nat, alts: seq<Node>)
    requires BuildAlt(s.alt, b.prev) == alts && Attached(r, s.main, alts, b.prev)
    requires r.median(AltStamps(r, s.main, alts, b.prev)) <= b.timestamp
    requires r.ahead(ParentChain(r, s.main, alts, b.prev), |s.main|) == Some(d) && d != 0 && r.pow(b, d) && r.coinbase(b)
    requires b.height == AltHeight(r, s.main, alts, b.prev) && r.hash(b) !in s.alt
    ensures Storable(r, s, b, d)
  {
  }

  /** A block on the main chain below the tip, heavier than the tip. */
  lemma {:induction false} StoredAside(r: Rules, s: State, n: Node, d: nat)
    requires s.main != [] && Last(s.main).node.work < n.work
    requires BuildAlt(s.alt, n.block.prev) == [] && Attached(r, s.main, [], n.block.prev)
    requires r.median(AltStamps(r, s.main, [], n.block.prev)) <= n.block.timestamp
    requires r.ahead(ParentChain(r, s.main, [], n.block.prev), |s.main|) == Some(d) && d != 0
    requires r.pow(n.block, d) && r.coinbase(n.block) && r.hash(n.block) !in s.alt
    requires n.block.height == AltHeight(r, s.main, [], n.block.prev)
    requires n.work == Last(ParentChain(r, s.main, [], n.block.prev)).work + d
    ensures PlaceAlt(r, s, n.block) == Placed(s.(alt := s.alt[r.hash(n.block) := n]), [n], Heavier)
  {
    StorableIs(r, s, n.block, d, []);
    PlaceStores(r, s, n.block, d);
    assert [] + [n] == [n];
  }

  /**
   The difficulty rule, which is asked with the length of the main chain, gives for the branch of
   `b` what it would give with the length of that branch.
   */
  ghost predicate Agrees(r: Rules, s: State, b: Block) {
    var alts := BuildAlt(s.alt, b.prev);
    Attached(r, s.main, alts, b.prev) ==>
      SameAhead(r, ParentChain(r, s.main, alts, b.prev), |s.main|, AltHeight(r, s.main, alts, b.prev))
  }

  /** A stored block has the work the main chain would give it exactly when the rule agrees. */
  lemma {:induction false} NewNodeKnownIff(r: Rules, g: Node, s: State, b: Block, d: nat)
    requires Lawful(r) && g.block.height == 0 && s.main != [] && Path(r, g, Nodes(s.main)) && AltOk(r, g, s.alt)
    requires Storable(r, s, b, d) && b.height != 0
    ensures Known(r, g, NewNode(r, s, b, d)) <==> Agrees(r, s, b)
    ensures Agrees(r, s, b) ==> Path(r, g, ParentChain(r, s.main, BuildAlt(s.alt, b.prev), b.prev) + [NewNode(r, s, b, d)])
  {
    var x, parent := NewNode(r, s, b, d), ParentChain(r, s.main, BuildAlt(s.alt, b.prev), b.prev);
    ParentPath(r, g, s.main, s.alt, b.prev);
    assert x.work - Last(parent).work == d;
    if Agrees(r, s, b) {
      assert Extends(r, parent, x);
      PathPush(r, g, parent, x);
      assert Last(parent + [x]) == x;
    }
    if Known(r, g, x) {
      PathGrows(r, g, parent, x);
    }
  }

  /**
   Where the rule agrees, a block is stored with exactly the work the main chain would give it
   once its branch is the main chain.
   */
  lemma {:induction false} PlaceFacts(r: Rules, g: Node, s: State, b: Block) returns (x: Node)
    requires Lawful(r) && g.block.height == 0 && s.main != [] && Path(r, g, Nodes(s.main)) && AltOk(r, g, s.alt)
    requires Agrees(r, s, b)
    ensures var p := PlaceAlt(r, s, b);
            if p.outcome == Heavier || p.outcome == Lighter then PlacedAs(r, g, s, b, p, x) else p.state == s
  {
    var d := PlaceUnfolds(r, s, b);
    x := g;
    var p := PlaceAlt(r, s, b);
    if p.outcome == Heavier || p.outcome == Lighter {
      assert b.height != 0;
      NewNodeKnownIff(r, g, s, b, d);
      x := NewNode(r, s, b, d);
    }
  }

  lemma {:induction false} PlacedOk(r: Rules, g: Node, s: State, b: Block, p: Placed, x: Node)
    requires s.main != [] && AltOk(r, g, s.alt) && PlacedAs(r, g, s, b, p, x)
    ensures AltOk(r, g, p.state.alt)
  {
  }

  // ---------- putting disconnected blocks back ----------

  /** `alt'` is `alt` with, at most, some of the blocks `rest` added. */
  ghost predicate OnlyMore(r: Rules, alt: map<Hash, Node>, alt': map<Hash, Node>, rest: seq<Node>) {
    && (forall h :: h in alt ==> h in alt' && alt'[h] == alt[h])
    && (forall h :: h in alt' ==> h in alt || h in Hashes(r, Blocks(rest)))
  }

  /** Asked with `length`, the rule gives `d` the difficulty it has on its own chain. */
  ghost predicate Steady(r: Rules, g: Node, d: Node, length: nat) {
    exists p :: SteadyOn(r, g, p, d, length)
  }

  ghost predicate SteadyOn(r: Rules, g: Node, p: seq<Node>, d: Node, length: nat) {
    p != [] && Path(r, g, p + [d]) && SameAhead(r, p, length, |p|)
  }

  lemma {:induction false} SteadyAgrees(r: Rules, g: Node, s: State, d: Node)
    requires Lawful(r) && g.block.height == 0 && s.main != [] && Path(r, g, Nodes(s.main)) && AltOk(r, g, s.alt)
    requires Steady(r, g, d, |s.main|)
    ensures Agrees(r, s, d.block)
    ensures Attached(r, s.main, BuildAlt(s.alt, d.block.prev), d.block.prev) ==>
              && AltAhead(r, s, d.block).Some?
              && Path(r, g, ParentChain(r, s.main, BuildAlt(s.alt, d.block.prev), d.block.prev) + [d])
  {
    var b := d.block;
    var p :| SteadyOn(r, g, p, d, |s.main|);
    PathPush(r, g, p, d);
    if Attached(r, s.main, BuildAlt(s.alt, b.prev), b.prev) {
      var parent := ParentChain(r, s.main, BuildAlt(s.alt, b.prev), b.prev);
      ParentPath(r, g, s.main, s.alt, b.prev);
      assert SameHash(r, Last(p).block, Last(parent).block);
      PathUnique(r, g, p, parent);
    }
  }

  lemma {:induction false} SameNode(r: Rules, g: Node, p: seq<Node>, d: Node, x: Node)
    requires Lawful(r) && g.block.height == 0 && Path(r, g, p + [d]) && Path(r, g, p + [x]) && d.block == x.block
    ensures d == x
  {
    assert Last(p + [d]) == d && Last(p + [x]) == x;
    PathUnique(r, g, p + [d], p + [x]);
  }

  /** A disconnected block never outweighs the new main chain, nor makes the rule throw. */
  lemma {:induction false} ReaddOne(r: Rules, g: Node, s: State, d: Node)
    requires Lawful(r) && g.block.height == 0 && s.main != [] && Path(r, g, Nodes(s.main)) && AltOk(r, g, s.alt)
    requires Steady(r, g, d, |s.main|) && d.work <= Last(s.main).node.work
    ensures var p := PlaceAlt(r, s, d.block);
            && p.outcome != Heavier && p.outcome != Raised
            && p.state.main == s.main && p.state.pool == s.pool && p.state.invalid == s.invalid
            && AltOk(r, g, p.state.alt) && OnlyMore(r, s.alt, p.state.alt, [d])
  {
    var b := d.block;
    var p := PlaceAlt(r, s, b);
    SteadyAgrees(r, g, s, d);
    var x := PlaceFacts(r, g, s, b);
    if p.outcome == Heavier || p.outcome == Lighter {
      PlacedOk(r, g, s, b, p, x);
      SameNode(r, g, ParentChain(r, s.main, BuildAlt(s.alt, b.prev), b.prev), d, x);
      assert Blocks([d])[0] == b;
      assert r.hash(b) in Hashes(r, Blocks([d]));
    }
  }

  lemma {:induction false} OnlyMoreTrans(r: Rules, a: map<Hash, Node>, b: map<Hash, Node>, c: map<Hash, Node>, rest: seq<Node>)
    requires rest != [] && OnlyMore(r, a, b, [rest[0]]) && OnlyMore(r, b, c, rest[1..])
    ensures OnlyMore(r, a, c, rest)
  {
    forall h | h in c && h !in a ensures h in Hashes(r, Blocks(rest)) {
      if h in b {
        assert Blocks(rest)[0] == Blocks([rest[0]])[0];
        assert h == r.hash(Blocks(rest)[0]);
      } else {
        var i :| 0 <= i < |rest[1..]| && h == r.hash(Blocks(rest[1..])[i]);
        assert Blocks(rest)[i + 1] == Blocks(rest[1..])[i];
      }
    }
  }

  ghost predicate Disconnected(r: Rules, g: Node, s: State, d: Node)
    requires s.main != []
  {
    Steady(r, g, d, |s.main|) && d.work <= Last(s.main).node.work
  }

  /** Putting blocks back as alternatives touches nothing else, whatever they are. */
  lemma {:induction false} ReaddFrame(r: Rules, s: State, blocks: seq<Block>)
    requires s.main != []
    ensures Readd(r, s, blocks).state.pool == s.pool && Readd(r, s, blocks).state.invalid == s.invalid
    decreases |blocks|
  {
    if blocks != [] {
      var d := PlaceUnfolds(r, s, blocks[0]);
      ReaddFrame(r, PlaceAlt(r, s, blocks[0]).state, blocks[1..]);
    }
  }

  /** Re-adding the disconnected blocks finishes without a second switch. */
  lemma {:induction false} ReaddFinishes(r: Rules, g: Node, s: State, rest: seq<Node>)
    requires Lawful(r) && g.block.height == 0 && s.main != [] && Path(r, g, Nodes(s.main)) && AltOk(r, g, s.alt)
    requires forall i :: 0 <= i < |rest| ==> Disconnected(r, g, s, rest[i])
    ensures var e := Readd(r, s, Blocks(rest));
            && e.verdict == Switched
            && e.state.main == s.main && e.state.pool == s.pool && e.state.invalid == s.invalid
            && AltOk(r, g, e.state.alt) && OnlyMore(r, s.alt, e.state.alt, rest)
    decreases |rest|
  {
    if rest != [] {
      assert Disconnected(r, g, s, rest[0]);
      ReaddOne(r, g, s, rest[0]);
      var p := PlaceAlt(r, s, rest[0].block);
      assert Blocks(rest)[1..] == Blocks(rest[1..]);
      forall i | 0 <= i < |rest[1..]| ensures Disconnected(r, g, p.state, rest[1..][i]) {
        assert Disconnected(r, g, s, rest[i + 1]);
      }
      ReaddFinishes(r, g, p.state, rest[1..]);
      OnlyMoreTrans(r, s.alt, p.state.alt, Readd(r, s, Blocks(rest)).state.alt, rest);
    }
  }
}
