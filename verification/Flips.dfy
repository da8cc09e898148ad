/**
 Where the difficulty rule does not agree: two empty blocks on top of the same chain, each heavier
 as an alternative than as a main-chain block. Offering the one while the other is on top switches
 to it and, putting the old one back, switches back again.
 */
module Flips {
  import opened Ledger
  import opened Chain
  import opened Reorg
  import opened MainSteps
  import opened Branches
  import opened Switching
  import opened Nesting
  import opened Trials
  import Lwma

  /** `x` and `y` are such blocks: the rule, told of a chain one block longer than `c`, asks for `d`. */
  ghost predicate Sides(r: Rules, c: seq<Record>, x: Record, y: Record, d: nat, now: nat) {
    && c != [] && Side(r, c, x, d, now) && Side(r, c, y, d, now)
    && r.hash(x.node.block) != r.hash(y.node.block) && x.node.work == y.node.work
    && Find(r, c, r.hash(Last(c).node.block)) == |c| - 1 && d != 0
    && r.ahead(Nodes(c), |c| + 1) == Some(d)
  }

  ghost predicate Side(r: Rules, c: seq<Record>, x: Record, d: nat, now: nat)
    requires c != []
  {
    && Fits(r, c, x, now) && x.txs == [] && NextDefined(r, c + [x])
    && r.pow(x.node.block, d) && r.median(FillStamps(Nodes(c), |c| - 1, 0)) <= x.node.block.timestamp
    && r.hash(x.node.block) != r.hash(Last(c).node.block)
    && x.node.work < Last(c).node.work + d
  }

  /** The block as an alternative. */
  function Aside(c: seq<Record>, x: Record, d: nat): Node
    requires c != []
  {
    Node(x.node.block, Last(c).node.work + d)
  }

  // ---------- single steps ----------

  /** The header of a block on top of `c` passes with difficulty `d`. */
  ghost predicate Headed(r: Rules, c: seq<Record>, b: Block, d: nat)
    requires c != []
  {
    && b.prev == r.hash(Last(c).node.block) && b.height == |c| && r.coinbase(b) && r.pow(b, d)
    && r.median(FillStamps(Nodes(c), |c| - 1, 0)) <= b.timestamp
    && Find(r, c, b.prev) == |c| - 1 && d != 0 && r.ahead(Nodes(c), |c| + 1) == Some(d)
  }

  lemma {:induction false} SidesHeaded(r: Rules, c: seq<Record>, x: Record, y: Record, d: nat, now: nat)
    requires Sides(r, c, x, y, d, now)
    ensures Headed(r, c, y.node.block, d)
  {
  }

  lemma {:induction false} HeadedPlaced(r: Rules, c: seq<Record>, x: Record, b: Block, d: nat, s: State)
    requires c != [] && Headed(r, c, b, d) && s.main == c + [x] && x.node.work < Last(c).node.work + d
    requires r.hash(b) !in s.alt && b.prev !in s.alt
    ensures var n := Node(b, Last(c).node.work + d);
            PlaceAlt(r, s, b) == Placed(s.(alt := s.alt[r.hash(b) := n]), [n], Heavier)
  {
    AsideSees(r, c, s);
    assert Last(Nodes(c)) == Last(c).node && Last(s.main) == x;
    StoredAside(r, s, Node(b, Last(c).node.work + d), d);
  }

  lemma {:induction false} HeadedRefused(r: Rules, c: seq<Record>, x: Record, b: Block, d: nat, s: State)
    requires c != [] && Headed(r, c, b, d) && s.main == c + [x] && r.hash(b) in s.alt && b.prev !in s.alt
    ensures PlaceAlt(r, s, b) == Placed(s, [], Refused)
  {
    AsideSees(r, c, s);
    StoredTwice(r, s, b, d, []);
  }

  lemma {:induction false} SidePlaced(r: Rules, c: seq<Record>, x: Record, y: Record, d: nat, s: State, now: nat)
    requires Sides(r, c, x, y, d, now) && s.main == c + [x]
    requires r.hash(y.node.block) !in s.alt && r.hash(Last(c).node.block) !in s.alt
    ensures PlaceAlt(r, s, y.node.block)
         == Placed(s.(alt := s.alt[r.hash(y.node.block) := Aside(c, y, d)]), [Aside(c, y, d)], Heavier)
  {
    SidesHeaded(r, c, x, y, d, now);
    HeadedPlaced(r, c, x, y.node.block, d, s);
  }

  lemma {:induction false} StoredTwice(r: Rules, s: State, b: Block, d: nat, alts: seq<Node>)
    requires s.main != [] && b.height != 0 && r.hash(b) in s.alt
    requires BuildAlt(s.alt, b.prev) == alts && Attached(r, s.main, alts, b.prev) && (alts == [] || b.prev in s.alt)
    requires r.median(AltStamps(r, s.main, alts, b.prev)) <= b.timestamp
    requires r.ahead(ParentChain(r, s.main, alts, b.prev), |s.main|) == Some(d)
    ensures PlaceAlt(r, s, b) == Placed(s, [], Refused)
  {
  }

  /** The tip is exchanged for the other block. */
  lemma {:induction false} Exchange(r: Rules, c: seq<Record>, x: Record, y: Record, s: State, n: Node, now: nat)
    requires c != [] && s.main == c + [x] && x.txs == [] && n.block == y.node.block
    requires Fits(r, c, y, now) && y.txs == [] && NextDefined(r, c + [y])
    ensures Attempt(r, s, |c|, [n], now) == Connection(s.(main := c + [y]), 1, Added)
    ensures Blocks(Nodes(s.main[|c|..])) == [x.node.block]
  {
    EmptyPopsTo(r, c, [x], s, now);
    var u := s.(main := c);
    EmptyJoins(r, u, y, now);
    var bs := Blocks([n]);
    assert bs == [y.node.block];
    assert Connect(r, s.(main := c + [y]), bs[1..], now) == Connection(s.(main := c + [y]), 0, Added);
    assert s.main[|c|..] == [x];
  }

  // ---------- there and back ----------

  lemma {:induction false} OneForgotten(r: Rules, s: State, n: Node)
    requires r.hash(n.block) in s.alt
    ensures Forget(r, s, Blocks([n])) == Step(s.(alt := s.alt - {r.hash(n.block)}), Switched)
  {
    var bs := Blocks([n]);
    assert bs[0] == n.block;
    assert Forget(r, s.(alt := s.alt - {r.hash(bs[0])}), bs[1..]) == Step(s.(alt := s.alt - {r.hash(bs[0])}), Switched);
  }

  /** A switch to a branch of one block, from its parts. */
  lemma {:induction false} OneSwitched(r: Rules, s: State, k: nat, n: Node, u: State, bs: seq<Block>, v: State, now: nat, depth: nat)
    requires 1 <= k <= |s.main| && Attempt(r, s, k, [n], now) == Connection(u, 1, Added)
    requires Blocks(Nodes(s.main[k..])) == bs && u.main != [] && DeepReadd(r, u, bs, now, depth) == Step(v, Switched)
    requires r.hash(n.block) in v.alt
    ensures DeepSwitchAt(r, s, k, [n], now, depth) == Step(v.(alt := v.alt - {r.hash(n.block)}), Switched)
  {
    OneForgotten(r, v, n);
  }

  /** The inner switch: the block it disconnects is still stored, and so not put back. */
  lemma {:induction false} SwitchBack(r: Rules, c: seq<Record>, x: Record, y: Record, d: nat, s: State, now: nat, depth: nat)
    requires Sides(r, c, y, x, d, now) && s.main == c + [x]
    requires r.hash(x.node.block) in s.alt && r.hash(y.node.block) in s.alt && r.hash(Last(c).node.block) !in s.alt
    ensures DeepSwitchAt(r, s, |c|, [Aside(c, y, d)], now, depth)
         == Step(s.(main := c + [y], alt := s.alt - {r.hash(y.node.block)}), Switched)
  {
    var n := Aside(c, y, d);
    Exchange(r, c, x, y, s, n, now);
    var u := s.(main := c + [y]);
    SidesHeaded(r, c, y, x, d, now);
    HeadedRefused(r, c, y, x.node.block, d, u);
    UnplacedIs(r, u, x.node.block, now, depth);
    var bs := [x.node.block];
    assert DeepReadd(r, u, bs[1..], now, depth) == Step(u, Switched);
    OneSwitched(r, s, |c|, n, u, bs, u, now, depth);
  }

  lemma {:induction false} SwitchFromParent(r: Rules, c: seq<Record>, x: Record, y: Record, d: nat, s: State, st: Step, now: nat, depth: nat)
    requires Sides(r, c, x, y, d, now) && s.main == c + [x] && st == DeepSwitchAt(r, s, |c|, [Aside(c, y, d)], now, depth)
    ensures DeepSwitch(r, s, [Aside(c, y, d)], now, depth) == st
  {
    FindOnTop(r, c, c + [x], r.hash(Last(c).node.block));
    SwitchFrom(r, s, |c|, [Aside(c, y, d)], st, now, depth);
  }

  /** Putting `x` back on a chain with `y` on top leads to the switch back. */
  lemma {:induction false} PutBack(r: Rules, c: seq<Record>, x: Record, y: Record, d: nat, u: State, now: nat, depth: nat)
    requires Sides(r, c, y, x, d, now) && Sides(r, c, x, y, d, now) && u.main == c + [y]
    requires r.hash(y.node.block) in u.alt && r.hash(x.node.block) !in u.alt && r.hash(Last(c).node.block) !in u.alt
    ensures DeepReadd(r, u, [x.node.block], now, depth + 1) == Step(u.(main := c + [x]), Switched)
  {
    var n, hx := Aside(c, x, d), r.hash(x.node.block);
    SidePlaced(r, c, y, x, d, u, now);
    var p := PlaceAlt(r, u, x.node.block);
    SwitchBack(r, c, y, x, d, p.state, now, depth);
    var st := DeepSwitchAt(r, p.state, |c|, [n], now, depth);
    SwitchFromParent(r, c, y, x, d, p.state, st, now, depth);
    FollowIs(r, p, st, now, depth);
    assert u.alt[hx := n] - {hx} == u.alt;
    var bs := [x.node.block];
    assert DeepAlt(r, u, bs[0], now, depth + 1) == st;
    assert DeepReadd(r, st.state, bs[1..], now, depth + 1) == Step(st.state, Switched);
  }

  /** The whole switch to `y` ends where it began, but for `y`, which is forgotten. */
  lemma {:induction false} ThereAndBack(r: Rules, c: seq<Record>, x: Record, y: Record, d: nat, s: State, now: nat, depth: nat)
    requires Sides(r, c, x, y, d, now) && s.main == c + [x]
    requires r.hash(y.node.block) in s.alt && r.hash(x.node.block) !in s.alt && r.hash(Last(c).node.block) !in s.alt
    ensures DeepSwitchAt(r, s, |c|, [Aside(c, y, d)], now, depth + 1)
         == Step(s.(alt := s.alt - {r.hash(y.node.block)}), Switched)
  {
    var n := Aside(c, y, d);
    Exchange(r, c, x, y, s, n, now);
    var u := s.(main := c + [y]);
    PutBack(r, c, x, y, d, u, now, depth);
    assert u.(main := c + [x]) == s;
    OneSwitched(r, s, |c|, n, u, [x.node.block], s, now, depth + 1);
  }

  /** The state with `x` on top of `c` and nothing else. */
  function Topped(c: seq<Record>, x: Record): State { State(c + [x], map[], {}, NoTxs()) }

  /**
   Offering `y` while `x` is on top is answered with a completed switch, and changes nothing: the
   tip is `x` as before, and `y` is not even kept.
   */
  lemma {:induction false} Flip(r: Rules, c: seq<Record>, x: Record, y: Record, d: nat, now: nat, depth: nat)
    requires Sides(r, c, x, y, d, now) && !InMain(r, c + [x], r.hash(y.node.block))
    requires r.hash(x.node.block) != r.hash(Last(c).node.block)
    ensures DeepAdd(r, Topped(c, x), y.node.block, now, depth + 1) == Step(Topped(c, x), Switched)
  {
    var s, n := Topped(c, x), Aside(c, y, d);
    SidePlaced(r, c, x, y, d, s, now);
    var p := PlaceAlt(r, s, y.node.block);
    ThereAndBack(r, c, x, y, d, p.state, now, depth);
    var st := DeepSwitchAt(r, p.state, |c|, [n], now, depth + 1);
    SwitchFromParent(r, c, x, y, d, p.state, st, now, depth + 1);
    FollowIs(r, p, st, now, depth + 1);
    assert p.state.alt - {r.hash(y.node.block)} == map[];
    assert st == Step(s, Switched);
    assert y.node.block.prev == r.hash(Last(c).node.block) != TipHash(r, s);
  }

  // ---------- a real state ----------

  /** A block every second. */
  function Quickly(h: nat): nat { Lwma.TARGET + h }

  /** One block a second, each of the first difficulty. */
  ghost predicate Quick(c: seq<Record>) { Even(c, 1) }

  /** Told of 147 blocks or more, the rule asks for more than the first difficulty. */
  lemma {:induction false} QuickAhead(r: Rules, c: seq<Record>, length: nat)
    requires Lwma.Uses(r) && Quick(c) && 146 <= |c| <= 147 <= length
    ensures r.ahead(Nodes(c), length) == Some(10_452_992)
  {
    EvenAhead(r, c, 1, length);
  }

  lemma {:induction false} QuickSide(r: Rules, c: seq<Record>, x: Record, d: nat, now: nat)
    requires Lenient(r) && |c| == 146 && Fits(r, c, x, now) && x.txs == [] && Quick(c + [x]) && Lwma.FIRST_WORK < d
    requires r.hash(x.node.block) != r.hash(Last(c).node.block)
    ensures Side(r, c, x, d, now)
  {
    QuickAhead(r, c + [x], 147);
    assert (c + [x])[145] == c[145] && (c + [x])[146] == x;
  }

  /** The chain `c` with `x` on top is such a chain of 147 blocks. */
  ghost predicate QuickTop(r: Rules, c: seq<Record>, x: Record, now: nat) {
    && Lenient(r) && |c| == 146 && now == Quickly(147)
    && Paced(Quickly, r, c + [x]) && Quick(c + [x])
  }

  lemma {:induction false} QuickFits(r: Rules, c: seq<Record>, x: Record, now: nat)
    requires QuickTop(r, c, x, now)
    ensures Fits(r, c, x, now) && x.txs == [] && Quick(c) && Quick(c + [Renumbered(x)])
  {
    var full := c + [x];
    assert FitsAt(r, full, 146, now);
    assert PacedAt(Quickly, full, 146);
    assert full[..146] == c && full[146] == x;
    EvenParts(c, x, Renumbered(x), 1);
  }

  /** The last block differs from its twin and from all blocks below. */
  lemma {:induction false} TwinIsNew(r: Rules, c: seq<Record>, x: Record, now: nat)
    requires QuickTop(r, c, x, now)
    ensures var y, h := Renumbered(x), r.hash;
            && !InMain(r, c + [x], h(y.node.block)) && h(y.node.block) != h(x.node.block)
            && h(x.node.block) != h(Last(c).node.block) && h(y.node.block) != h(Last(c).node.block)
  {
    var full := c + [x];
    PacedChained(Quickly, r, full);
    forall i | 0 <= i < 147 ensures full[i].node.block.height == i { HeightIs(r, full, i); }
    assert PacedAt(Quickly, full, 146);
    assert full[146] == x && full[145] == Last(c);
    FindsNot(r, full, Renumbered(x).node.block);
    assert !SameHash(r, x.node.block, Last(c).node.block) && !SameHash(r, Renumbered(x).node.block, Last(c).node.block);
    assert !SameHash(r, Renumbered(x).node.block, x.node.block);
  }

  lemma {:induction false} QuickSides(r: Rules, c: seq<Record>, x: Record, d: nat, now: nat)
    requires QuickTop(r, c, x, now)
    requires r.ahead(Nodes(c), 147) == Some(d) && Lwma.FIRST_WORK < d
    ensures Sides(r, c, x, Renumbered(x), d, now)
  {
    QuickFits(r, c, x, now);
    TwinIsNew(r, c, x, now);
    QuickSide(r, c, x, d, now);
    RenumberedFits(r, c, x, now);
    QuickSide(r, c, Renumbered(x), d, now);
    PrefixReplays(r, First(), c + [x], 146, now);
    assert (c + [x])[..146] == c;
    TipFound(r, c, now);
  }

  /** Offering `b` is answered with a completed switch and changes nothing, however many switches are followed. */
  ghost predicate ToAndFro(r: Rules, s: State, b: Block, now: nat)
    requires s.main != []
  {
    forall depth: nat :: 1 <= depth ==> DeepAdd(r, s, b, now, depth) == Step(s, Switched)
  }

  /**
   Such a state exists: a chain of 147 blocks found one a second, in perfect order, and a block
   that differs from its tip in the nonce. The node reports a reorganisation, follows it, and is
   back where it was.
   */
  lemma {:induction false} FlipHappens(hash: Block -> Hash) returns (s: State, b: Block, now: nat)
    requires Lwma.NoCollision(hash)
    ensures Inv(Easy(hash), First(), s, now) && NextDefined(Easy(hash), s.main) && |s.main| == 147 && s.alt == map[]
    ensures !HaveBlock(Easy(hash), s, hash(b)) && b.prev != TipHash(Easy(hash), s)
    ensures ToAndFro(Easy(hash), s, b, now)
  {
    EasyIsLenient(hash);
    var c, x := QuickChain(Easy(hash), Quickly(147));
    s, b, now := Topped(c, x), Renumbered(x).node.block, Quickly(147);
    ToppedInv(Easy(hash), c, x, now);
    TwinIsBeside(Easy(hash), c, x, now);
    QuickFlips(Easy(hash), c, x, now);
  }

  lemma {:induction false} TwinIsBeside(r: Rules, c: seq<Record>, x: Record, now: nat)
    requires QuickTop(r, c, x, now)
    ensures var b := Renumbered(x).node.block;
            !HaveBlock(r, Topped(c, x), r.hash(b)) && b.prev != TipHash(r, Topped(c, x))
  {
    TwinIsNew(r, c, x, now);
    QuickFits(r, c, x, now);
    assert Last(c + [x]) == x;
  }

  lemma {:induction false} QuickFlips(r: Rules, c: seq<Record>, x: Record, now: nat)
    requires QuickTop(r, c, x, now)
    ensures ToAndFro(r, Topped(c, x), Renumbered(x).node.block, now)
  {
    forall depth: nat | 1 <= depth
      ensures DeepAdd(r, Topped(c, x), Renumbered(x).node.block, now, depth) == Step(Topped(c, x), Switched)
    {
      QuickFlip(r, c, x, now, depth - 1);
    }
  }

  lemma {:induction false} QuickChain(r: Rules, now: nat) returns (c: seq<Record>, x: Record)
    requires Lenient(r) && now == Quickly(147)
    ensures QuickTop(r, c, x, now)
  {
    var full := PacedUpTo(Quickly, r, 147);
    forall i | 0 <= i < 147 ensures full[i].node.block.timestamp == Quickly(i) { assert PacedAt(Quickly, full, i); }
    c, x := full[..146], full[146];
    assert c + [x] == full;
  }

  lemma {:induction false} ToppedInv(r: Rules, c: seq<Record>, x: Record, now: nat)
    requires QuickTop(r, c, x, now)
    ensures Inv(r, First(), Topped(c, x), now) && NextDefined(r, c + [x])
  {
    QuickAhead(r, c + [x], 147);
  }

  lemma {:induction false} QuickFlip(r: Rules, c: seq<Record>, x: Record, now: nat, depth: nat)
    requires QuickTop(r, c, x, now)
    ensures DeepAdd(r, Topped(c, x), Renumbered(x).node.block, now, depth + 1) == Step(Topped(c, x), Switched)
  {
    QuickFits(r, c, x, now);
    QuickAhead(r, c, 147);
    var d := r.ahead(Nodes(c), 147).value;
    QuickSides(r, c, x, d, now);
    TwinIsNew(r, c, x, now);
    Flip(r, c, x, Renumbered(x), d, now, depth);
  }
}
