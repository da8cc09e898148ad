/**
 A state in which a completed switch leaves the tip with less work. The branch is weighed with the
 length of the main chain, for which the rule asks ten times as much as it counts once it is on;
 and the block it replaces does not have that much work, so that it is not put back.
 */
module Setback {
  import opened Ledger
  import opened Windows
  import opened Chain
  import opened Reorg
  import opened MainSteps
  import opened Branches
  import opened Switching
  import opened Trials
  import Runs
  import Falls
  import Fates
  import Nesting
  import Lwma

  /** The rules of the node, where only blocks with nonce one have more work than the first difficulty. */
  function Strict(hash: Block -> Hash): Rules {
    Lwma.NodeRules(hash, (b: Block, d) => d <= Lwma.FIRST_WORK || b.nonce == 1, b => true, (c, tx) => true, tx => true, s => 0)
  }

  lemma {:induction false} StrictIsPlain(hash: Block -> Hash)
    requires Lwma.NoCollision(hash)
    ensures Sparing(Strict(hash))
  {
    var r := Strict(hash);
    Lwma.NodeRulesLawful(hash, r.pow, r.coinbase, r.inputs, r.sound, r.median);
  }

  ghost predicate Sparing(r: Rules) {
    Plain(r) && forall b, d: nat :: r.pow(b, d) <==> d <= Lwma.FIRST_WORK || b.nonce == 1
  }

  /** A block every twenty seconds, but the one at 146 half an hour late. */
  function Late(h: nat): nat { if h < 146 then Lwma.TARGET + 20 * h else 5000 + 20 * (h - 146) }

  /** A block every twenty seconds. */
  function Steadily(h: nat): nat { Lwma.TARGET + 20 * h }

  // ---------- the chain ----------

  /** `c` are the first 146 blocks, `x` the late one and `z` the one behind it. */
  ghost predicate Delayed(r: Rules, c: seq<Record>, x: Record, z: Record, now: nat) {
    && |c| == 146 && Even(c, 20) && Replays(r, First(), c + [x] + [z], now)
    && x.node.block.nonce == 0 && x.txs == [] && z.txs == [] && x.node.work == 1 + Lwma.FIRST_WORK * 146
    && z.node.work == x.node.work + 6_985_730 && now == Late(148)
  }

  lemma {:induction false} LateAhead(r: Rules, full: seq<Record>)
    requires Lwma.Uses(r) && Paced(Late, r, full) && |full| == 147
    requires forall i :: 0 <= i < 147 ==> full[i].node.work == 1 + Lwma.FIRST_WORK * i
    ensures r.ahead(Nodes(full), 147) == Some(6_985_730)
  {
    var w := Window(Nodes(full));
    assert w == Nodes(full)[2..];
    var stamps, works := Stamps(w), Works(w);
    forall i | 0 <= i < WINDOW ensures stamps[i] == Late(i + 2) {
      assert w[i] == full[i + 2].node;
      assert PacedAt(Late, full, i + 2);
    }
    assert w[0] == full[2].node && w[WINDOW - 1] == full[146].node;
    Lwma.EvenIs(stamps[0], stamps[1..WINDOW - 1], 20);
    Lwma.LateWeight(stamps, 20, Lwma.LONGEST);
    Lwma.LateNext(stamps, works, 147);
    assert Lwma.AnswersFor(r, Nodes(full), 147);
  }

  lemma {:induction false} LateChain(r: Rules, now: nat) returns (c: seq<Record>, x: Record, z: Record)
    requires Sparing(r) && now == Late(148)
    ensures Delayed(r, c, x, z, now)
  {
    var full := PacedUpTo(Late, r, 147);
    LateAhead(r, full);
    c, x := full[..146], full[146];
    assert c + [x] == full;
    assert PacedAt(Late, full, 146);
    forall i | 0 <= i < 146 ensures c[i].node.block.timestamp == Lwma.TARGET + 20 * i { assert PacedAt(Late, full, i); }
    z := PacedNext(Late, r, full, 1);
    PacedFits(Late, r, full, 1, now);
    ReplaysLater(r, First(), full, Late(147), now);
    ReplaysPush(r, First(), full, z, now);
  }

  /** The state with all three on the main chain, and nothing else. */
  function Before(c: seq<Record>, x: Record, z: Record): State { State(c + [x] + [z], map[], {}, NoTxs()) }

  /** The block that is offered, in the place of the late one. */
  function Offered(r: Rules, c: seq<Record>): Block
    requires c != []
  {
    PacedBlock(Steadily, r, c, 1)
  }

  /** What it is on the main chain, and as an alternative. */
  ghost predicate Arrives(r: Rules, c: seq<Record>, y: Record, now: nat)
    requires c != []
  {
    && y.node == Node(Offered(r, c), 1 + Lwma.FIRST_WORK * 146) && y.txs == []
    && Fits(r, c, y, now) && NextDefined(r, c + [y])
  }

  function Aside(r: Rules, c: seq<Record>): Node
    requires c != []
  {
    Node(Offered(r, c), 1 + Lwma.FIRST_WORK * 145 + 10_452_992)
  }

  lemma {:induction false} DelayedParts(r: Rules, c: seq<Record>, x: Record, z: Record, now: nat)
    requires Sparing(r) && Delayed(r, c, x, z, now)
    ensures Replays(r, First(), c, now) && Last(c).node.work == 1 + Lwma.FIRST_WORK * 145
    ensures x.node.block.prev == r.hash(Last(c).node.block) && x.node.block.height == 146
    ensures z.node.block.prev == r.hash(x.node.block) && z.node.block.height == 147
  {
    var full := c + [x] + [z];
    PrefixReplays(r, First(), full, 146, now);
    assert full[..146] == c;
    assert FitsAt(r, full, 146, now) && full[146] == x;
    assert FitsAt(r, full, 147, now) && full[147] == z && full[..147] == c + [x];
  }

  lemma {:induction false} OfferedArrives(r: Rules, c: seq<Record>, x: Record, z: Record, now: nat) returns (y: Record)
    requires Sparing(r) && Delayed(r, c, x, z, now)
    ensures Arrives(r, c, y, now)
  {
    DelayedParts(r, c, x, z, now);
    Lwma.ShortBranchThrows(Nodes(c), 146);
    assert Lwma.AnswersFor(r, Nodes(c), 146);
    y := PacedNext(Steadily, r, c, 1);
    PacedFits(Steadily, r, c, 1, now);
    EvenAhead(r, c + [y], 20, 147);
  }

  // ---------- the switch ----------

  lemma {:induction false} OfferedIsHeavier(r: Rules, c: seq<Record>, x: Record, z: Record, now: nat)
    requires Sparing(r) && Delayed(r, c, x, z, now)
    ensures var s, n := Before(c, x, z), Aside(r, c);
            PlaceAlt(r, s, n.block) == Placed(s.(alt := map[r.hash(n.block) := n]), [n], Heavier)
  {
    var s := Before(c, x, z);
    DelayedParts(r, c, x, z, now);
    TipFound(r, c, now);
    assert c <= s.main;
    AsideSees(r, c, s);
    EvenAhead(r, c, 20, 148);
    assert Last(Nodes(c)) == Last(c).node;
    StoredAside(r, s, Aside(r, c), 10_452_992);
  }

  /** The late block is refused when it is put back, and the one behind it has no parent. */
  lemma {:induction false} NeitherComesBack(r: Rules, c: seq<Record>, x: Record, z: Record, y: Record, u: State, now: nat)
    requires Sparing(r) && Delayed(r, c, x, z, now) && Arrives(r, c, y, now)
    requires u.main == c + [y] && u.alt.Keys == {r.hash(y.node.block)}
    ensures Readd(r, u, [x.node.block, z.node.block]) == Step(u, Switched)
  {
    DelayedParts(r, c, x, z, now);
    LateRefused(r, c, x, z, y, u, now);
    LateGone(r, c, x, z, y, u, now);
    var bs := [x.node.block, z.node.block];
    assert bs[1..] == [z.node.block] && bs[1..][1..] == [];
    assert Readd(r, u, bs[1..][1..]) == Step(u, Switched);
    assert Readd(r, u, bs[1..]) == Step(u, Switched);
  }

  lemma {:induction false} OthersApart(r: Rules, c: seq<Record>, x: Record, z: Record, y: Record, now: nat)
    requires Sparing(r) && Delayed(r, c, x, z, now) && Arrives(r, c, y, now)
    ensures r.hash(x.node.block) != r.hash(y.node.block) && r.hash(Last(c).node.block) != r.hash(y.node.block)
    ensures !InMain(r, c + [x] + [z], r.hash(y.node.block)) && !InMain(r, c + [y], r.hash(x.node.block))
    ensures y.node.block.prev != r.hash(z.node.block)
  {
    DelayedParts(r, c, x, z, now);
    HealthyChained(r, First(), c, now);
    HeightIs(r, c, 145);
    assert !SameHash(r, x.node.block, y.node.block) && !SameHash(r, Last(c).node.block, y.node.block);
    assert !SameHash(r, Last(c).node.block, z.node.block);
    NotFound(r, c, [x, z], y.node.block, now);
    NotFound(r, c, [y], x.node.block, now);
    assert c + [x] + [z] == c + [x, z];
  }

  lemma {:induction false} NotFound(r: Rules, c: seq<Record>, rest: seq<Record>, b: Block, now: nat)
    requires Lawful(r) && Replays(r, First(), c, now) && |c| <= b.height && forall i :: 0 <= i < |rest| ==> rest[i].node.block != b
    ensures !InMain(r, c + rest, r.hash(b))
  {
    FindsNot(r, c + rest, b);
    HealthyChained(r, First(), c, now);
    forall i | 0 <= i < |c + rest| ensures (c + rest)[i].node.block != b {
      if i < |c| { HeightIs(r, c, i); }
    }
  }

  lemma {:induction false} LateRefused(r: Rules, c: seq<Record>, x: Record, z: Record, y: Record, u: State, now: nat)
    requires Sparing(r) && Delayed(r, c, x, z, now) && Arrives(r, c, y, now)
    requires u.main == c + [y] && u.alt.Keys == {r.hash(y.node.block)}
    ensures PlaceAlt(r, u, x.node.block) == Placed(u, [], Refused)
  {
    DelayedParts(r, c, x, z, now);
    OthersApart(r, c, x, z, y, now);
    TipFound(r, c, now);
    AsideSees(r, c, u);
    EvenAhead(r, c, 20, 147);
  }

  lemma {:induction false} LateGone(r: Rules, c: seq<Record>, x: Record, z: Record, y: Record, u: State, now: nat)
    requires Sparing(r) && Delayed(r, c, x, z, now) && Arrives(r, c, y, now)
    requires u.main == c + [y] && u.alt.Keys == {r.hash(y.node.block)}
    ensures PlaceAlt(r, u, z.node.block) == Placed(u, [], NoParent)
  {
    DelayedParts(r, c, x, z, now);
    OthersApart(r, c, x, z, y, now);
  }

  lemma {:induction false} OfferedSwitches(r: Rules, c: seq<Record>, x: Record, z: Record, y: Record, s: State, st: Step, now: nat)
    requires Sparing(r) && Delayed(r, c, x, z, now) && Arrives(r, c, y, now)
    requires s == Before(c, x, z).(alt := map[r.hash(y.node.block) := Aside(r, c)]) && st == SwitchAt(r, s, 146, [Aside(r, c)], now)
    ensures st == Step(State(c + [y], map[], {}, NoTxs()), Switched)
  {
    var n, u := Aside(r, c), s.(main := c + [y]);
    assert s.main == c + [x, z];
    EmptyPopsTo(r, c, [x, z], s, now);
    EmptyJoins(r, s.(main := c), y, now);
    OneOn(r, s.(main := c), n, u, now);
    NeitherComesBack(r, c, x, z, y, u, now);
    assert Blocks(Nodes(s.main[146..])) == [x.node.block, z.node.block];
    var bs := Blocks([n]);
    assert bs[0] == y.node.block;
    ForgetDrops(r, u, bs);
    assert u.alt - Hashes(r, bs) == map[] by { assert r.hash(bs[0]) in Hashes(r, bs); }
  }

  lemma {:induction false} OneOn(r: Rules, t: State, n: Node, u: State, now: nat)
    requires t.main != [] && HandleMain(r, t, n.block, now) == Step(u, Added)
    ensures Connect(r, t, Blocks([n]), now) == Connection(u, 1, Added)
  {
    var bs := Blocks([n]);
    assert bs[0] == n.block && bs[1..] == [];
    assert Connect(r, u, bs[1..], now) == Connection(u, 0, Added);
  }

  /** A completed switch to a shorter chain of less work. */
  ghost predicate SetsBack(s: State, st: Step) {
    && st.verdict == Switched && st.state.alt == map[]
    && |st.state.main| == |s.main| - 1 && st.state.main != [] && Runs.TipWork(st.state) < Runs.TipWork(s)
  }

  lemma {:induction false} DelayedSetsBack(c: seq<Record>, x: Record, z: Record, y: Record)
    requires y.node.work < z.node.work
    ensures SetsBack(Before(c, x, z), Step(State(c + [y], map[], {}, NoTxs()), Switched))
  {
    assert Last(c + [x] + [z]) == z && Last(c + [y]) == y;
  }

  lemma {:induction false} BeforeInv(r: Rules, c: seq<Record>, x: Record, z: Record, now: nat)
    requires Sparing(r) && Delayed(r, c, x, z, now)
    ensures Inv(r, First(), Before(c, x, z), now)
  {
  }

  lemma {:induction false} DelayedAdds(r: Rules, c: seq<Record>, x: Record, z: Record, y: Record, s: State, now: nat)
    requires Sparing(r) && Delayed(r, c, x, z, now) && Arrives(r, c, y, now) && s == Before(c, x, z)
    ensures AddNewBlock(r, s, y.node.block, now) == Step(State(c + [y], map[], {}, NoTxs()), Switched)
  {
    var n := Aside(r, c);
    var p := Placed(s.(alt := map[r.hash(n.block) := n]), [n], Heavier);
    OthersApart(r, c, x, z, y, now);
    OfferedIsHeavier(r, c, x, z, now);
    DelayedParts(r, c, x, z, now);
    TipFound(r, c, now);
    assert c <= s.main;
    FindOnTop(r, c, s.main, r.hash(Last(c).node.block));
    var st := SwitchAt(r, p.state, 146, [n], now);
    OfferedSwitches(r, c, x, z, y, p.state, st, now);
    assert Last(s.main) == z;
    BesideSwitches(r, s, y.node.block, p, 146, st, now);
  }

  /**
   Such a state exists. A chain of 148 blocks in perfect order, the last but one half an hour late,
   and a block that would have been in time: the node switches to it, reports a reorganisation, and
   is left with a shorter chain of less work.
   */
  lemma {:induction false} SetbackHappens(hash: Block -> Hash) returns (s: State, b: Block, now: nat)
    requires Lwma.NoCollision(hash)
    ensures Inv(Strict(hash), First(), s, now) && |s.main| == 148 && s.alt == map[]
    ensures SetsBack(s, AddNewBlock(Strict(hash), s, b, now))
    ensures Falls.Loses(Strict(hash), First(), s, b, now) && Fates.Sinking(Strict(hash), First(), s, b, now)
  {
    var r := Strict(hash);
    StrictIsPlain(hash);
    now := Late(148);
    var c, x, z := LateChain(r, now);
    var y := OfferedArrives(r, c, x, z, now);
    s, b := Before(c, x, z), y.node.block;
    BeforeInv(r, c, x, z, now);
    DelayedAdds(r, c, x, z, y, s, now);
    DelayedSetsBack(c, x, z, y);
    Falls.WorkFallsIff(r, First(), s, b, AddNewBlock(r, s, b, now), now);
    Nesting.AddIsPlain(r, s, b, AddNewBlock(r, s, b, now), now, 1);
    Fates.WorkFallsIff(r, First(), s, b, AddNewBlock(r, s, b, now), now);
  }
}
