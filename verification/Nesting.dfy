/**
 Switches within switches. A disconnected block that is put back may come out heavier than the new
 main chain, and is then switched to at once, in the middle of the switch that disconnected it.
 `depth` says how many of these are followed; `Nested` is the verdict when there are more.
 */
module Nesting {
  import opened Ledger
  import opened Chain
  import opened Transit
  import opened MainSteps
  import opened Branches
  import opened Switching
  import opened Reorg

  /** What comes of a block that calls for no switch. */
  function Unplaced(p: Placed): (st: Step)
    ensures st.state == p.state && st.verdict != RolledBack
  {
    Step(p.state, VerdictOf(p.outcome))
  }

  function VerdictOf(outcome: Outcome): Verdict {
    match outcome
    case Refused => Rejected
    case NoParent => Orphaned
    case Raised => Threw
    case Lighter => Alternative
    case Heavier => Nested
  }

  /** The switch that a stored block calls for, if it calls for one and it is still followed. */
  function DeepFollow(r: Rules, p: Placed, now: nat, depth: nat): (st: Step)
    requires p.state.main != []
    ensures st.state.main != []
    decreases depth, 0
  {
    if p.outcome != Heavier || depth == 0 then Unplaced(p) else DeepSwitch(r, p.state, p.branch, now, depth - 1)
  }

  /** A block that is not on top of the main chain, with the switch it may call for. */
  function DeepAlt(r: Rules, s: State, b: Block, now: nat, depth: nat): (st: Step)
    requires s.main != []
    ensures st.state.main != []
    decreases depth, 1
  {
    DeepFollow(r, PlaceAlt(r, s, b), now, depth)
  }

  /** Put disconnected blocks back as alternatives; only an exception stops that. */
  function DeepReadd(r: Rules, s: State, blocks: seq<Block>, now: nat, depth: nat): (st: Step)
    requires s.main != []
    ensures st.state.main != [] && st.verdict != RolledBack
    decreases depth, 2, |blocks|
  {
    if blocks == [] then Step(s, Switched)
    else
      var st := DeepAlt(r, s, blocks[0], now, depth);
      if st.verdict == Threw || st.verdict == Nested then st else DeepReadd(r, st.state, blocks[1..], now, depth)
  }

  /** The branch is on: keep the disconnected blocks as alternatives, forget the branch as one. */
  function DeepConclude(r: Rules, s: State, split: nat, alts: seq<Node>, c: Connection, now: nat, depth: nat): (st: Step)
    requires 1 <= split <= |s.main| && c.state.main != []
    ensures st.state.main != [] && st.verdict != RolledBack
    decreases depth, 3
  {
    var e := DeepReadd(r, c.state, Blocks(Nodes(s.main[split..])), now, depth);
    if e.verdict != Switched then e else Forget(r, e.state, Blocks(alts))
  }

  function DeepSwitchAt(r: Rules, s: State, split: nat, alts: seq<Node>, now: nat, depth: nat): (st: Step)
    requires 1 <= split <= |s.main|
    ensures st.state.main != []
    decreases depth, 4
  {
    var c := Attempt(r, s, split, alts, now);
    if c.verdict == Threw then Step(c.state, Threw)
    else if c.verdict != Added then GiveUp(r, s, split, alts, c, now)
    else DeepConclude(r, s, split, alts, c, now, depth)
  }

  /** Make the branch `alts` the main chain, or leave everything as it was. */
  function DeepSwitch(r: Rules, s: State, alts: seq<Node>, now: nat, depth: nat): (st: Step)
    requires s.main != []
    ensures st.state.main != []
    decreases depth, 5
  {
    if alts == [] || !Joins(r, s, alts) then Step(s, Rejected)
    else DeepSwitchAt(r, s, SplitOf(r, s, alts), alts, now, depth)
  }

  /** A block from anywhere. */
  function DeepAdd(r: Rules, s: State, b: Block, now: nat, depth: nat): (st: Step)
    requires s.main != []
    ensures st.state.main != []
  {
    if HaveBlock(r, s, r.hash(b)) || b.prev == TipHash(r, s) then AddNewBlock(r, s, b, now)
    else DeepAlt(r, s, b, now, depth + 1)
  }

  lemma {:induction false} FollowIs(r: Rules, p: Placed, st: Step, now: nat, depth: nat)
    requires p.state.main != [] && p.outcome == Heavier && st == DeepSwitch(r, p.state, p.branch, now, depth)
    ensures DeepFollow(r, p, now, depth + 1) == st
  {
  }

  lemma {:induction false} FollowNot(r: Rules, p: Placed, now: nat, depth: nat)
    requires p.state.main != [] && (p.outcome != Heavier || depth == 0)
    ensures DeepFollow(r, p, now, depth) == Unplaced(p)
  {
  }

  lemma {:induction false} ReaddFirst(r: Rules, s: State, bs: seq<Block>, first: Step, e: Step, now: nat, depth: nat)
    requires s.main != [] && bs != [] && first == DeepAlt(r, s, bs[0], now, depth) && e == DeepReadd(r, s, bs, now, depth)
    ensures e == if first.verdict == Threw || first.verdict == Nested then first else DeepReadd(r, first.state, bs[1..], now, depth)
  {
  }

  lemma {:induction false} SwitchFrom(r: Rules, s: State, split: nat, alts: seq<Node>, st: Step, now: nat, depth: nat)
    requires alts != [] && Joins(r, s, alts) && split == SplitOf(r, s, alts)
    requires st == DeepSwitchAt(r, s, split, alts, now, depth)
    ensures DeepSwitch(r, s, alts, now, depth) == st
  {
  }

  // ---------- where nothing nests ----------

  lemma {:induction false} UnplacedIs(r: Rules, s: State, b: Block, now: nat, depth: nat)
    requires s.main != [] && PlaceAlt(r, s, b).outcome != Heavier
    ensures DeepAlt(r, s, b, now, depth) == Unplaced(PlaceAlt(r, s, b)) == HandleAlt(r, s, b, now)
  {
  }

  lemma {:induction false} ReaddIsPlain(r: Rules, s: State, blocks: seq<Block>, now: nat, depth: nat)
    requires s.main != [] && Readd(r, s, blocks).verdict != Nested
    ensures DeepReadd(r, s, blocks, now, depth) == Readd(r, s, blocks)
    decreases |blocks|
  {
    if blocks != [] {
      var p := PlaceAlt(r, s, blocks[0]);
      UnplacedIs(r, s, blocks[0], now, depth);
      if p.outcome != Raised { ReaddIsPlain(r, p.state, blocks[1..], now, depth); }
    }
  }

  lemma {:induction false} SwitchAtIsPlain(r: Rules, s: State, split: nat, alts: seq<Node>, st: Step, now: nat, depth: nat)
    requires 1 <= split <= |s.main| && st == SwitchAt(r, s, split, alts, now) && st.verdict != Nested
    ensures DeepSwitchAt(r, s, split, alts, now, depth) == st
  {
    var c := Attempt(r, s, split, alts, now);
    if c.verdict == Added { ReaddIsPlain(r, c.state, Blocks(Nodes(s.main[split..])), now, depth); }
  }

  lemma {:induction false} SwitchIsPlain(r: Rules, s: State, alts: seq<Node>, st: Step, now: nat, depth: nat)
    requires s.main != [] && st == Switch(r, s, alts, now) && st.verdict != Nested
    ensures DeepSwitch(r, s, alts, now, depth) == st
  {
    SwitchIs(r, s, alts, now);
    if alts != [] && Joins(r, s, alts) {
      SwitchAtIsPlain(r, s, SplitOf(r, s, alts), alts, st, now, depth);
    }
  }

  /** A block that calls for no nested switch is handled alike at every depth. */
  lemma {:induction false} AddIsPlain(r: Rules, s: State, b: Block, st: Step, now: nat, depth: nat)
    requires s.main != [] && st == AddNewBlock(r, s, b, now) && st.verdict != Nested
    ensures DeepAdd(r, s, b, now, depth) == st
  {
    if !HaveBlock(r, s, r.hash(b)) && b.prev != TipHash(r, s) { AltIsPlain(r, s, b, st, now, depth); }
  }

  lemma {:induction false} AltIsPlain(r: Rules, s: State, b: Block, st: Step, now: nat, depth: nat)
    requires s.main != [] && st == HandleAlt(r, s, b, now) && st.verdict != Nested
    ensures DeepAlt(r, s, b, now, depth + 1) == st
  {
    var p := PlaceAlt(r, s, b);
    if p.outcome == Heavier {
      SwitchIsPlain(r, p.state, p.branch, st, now, depth);
      FollowIs(r, p, st, now, depth);
    } else {
      UnplacedIs(r, s, b, now, depth + 1);
    }
  }

  // ---------- deep enough is deep enough ----------

  lemma {:induction false} FollowDeeper(r: Rules, p: Placed, st: Step, now: nat, depth: nat)
    requires p.state.main != [] && st == DeepFollow(r, p, now, depth) && st.verdict != Nested
    ensures DeepFollow(r, p, now, depth + 1) == st
    decreases depth, 0
  {
    if p.outcome == Heavier && depth != 0 {
      FollowedDeeper(r, p, st, now, depth - 1);
    }
  }

  lemma {:induction false} FollowedDeeper(r: Rules, p: Placed, st: Step, now: nat, depth: nat)
    requires p.state.main != [] && p.outcome == Heavier
    requires st == DeepSwitch(r, p.state, p.branch, now, depth) && st.verdict != Nested
    ensures DeepFollow(r, p, now, depth + 2) == st
    decreases depth, 6
  {
    SwitchDeeper(r, p.state, p.branch, st, now, depth);
    FollowIs(r, p, st, now, depth + 1);
  }

  lemma {:induction false} ReaddDeeper(r: Rules, s: State, blocks: seq<Block>, st: Step, now: nat, depth: nat)
    requires s.main != [] && st == DeepReadd(r, s, blocks, now, depth) && st.verdict != Nested
    ensures DeepReadd(r, s, blocks, now, depth + 1) == st
    decreases depth, 2, |blocks|
  {
    if blocks != [] {
      var first := DeepAlt(r, s, blocks[0], now, depth);
      FollowDeeper(r, PlaceAlt(r, s, blocks[0]), first, now, depth);
      if first.verdict != Threw { ReaddDeeper(r, first.state, blocks[1..], st, now, depth); }
    }
  }

  lemma {:induction false} SwitchAtDeeper(r: Rules, s: State, split: nat, alts: seq<Node>, st: Step, now: nat, depth: nat)
    requires 1 <= split <= |s.main| && st == DeepSwitchAt(r, s, split, alts, now, depth) && st.verdict != Nested
    ensures DeepSwitchAt(r, s, split, alts, now, depth + 1) == st
    decreases depth, 3
  {
    var c := Attempt(r, s, split, alts, now);
    if c.verdict == Added {
      var blocks := Blocks(Nodes(s.main[split..]));
      ReaddDeeper(r, c.state, blocks, DeepReadd(r, c.state, blocks, now, depth), now, depth);
    }
  }

  lemma {:induction false} SwitchDeeper(r: Rules, s: State, alts: seq<Node>, st: Step, now: nat, depth: nat)
    requires s.main != [] && st == DeepSwitch(r, s, alts, now, depth) && st.verdict != Nested
    ensures DeepSwitch(r, s, alts, now, depth + 1) == st
    decreases depth, 4
  {
    if alts != [] && Joins(r, s, alts) {
      SwitchAtDeeper(r, s, SplitOf(r, s, alts), alts, st, now, depth);
    }
  }

  /** Once no nested switch is left, following more of them changes nothing. */
  lemma {:induction false} AddDeeper(r: Rules, s: State, b: Block, st: Step, now: nat, depth: nat)
    requires s.main != [] && st == DeepAdd(r, s, b, now, depth) && st.verdict != Nested
    ensures DeepAdd(r, s, b, now, depth + 1) == st
  {
    if !HaveBlock(r, s, r.hash(b)) && b.prev != TipHash(r, s) { FollowDeeper(r, PlaceAlt(r, s, b), st, now, depth + 1); }
  }

  // ---------- what holds however deep it goes ----------

  /** `st` is consistent and has lost nothing since `s`. */
  ghost predicate Intact(r: Rules, g: Record, s: State, st: Step, now: nat) {
    Healthy(r, g, st.state, now) && NothingLost(s, st.state)
  }

  lemma {:induction false} IntactAfter(r: Rules, g: Record, s: State, t: State, st: Step, now: nat)
    requires NothingLost(s, t) && Intact(r, g, t, st, now)
    ensures Intact(r, g, s, st, now)
  {
    NothingLostTrans(s, t, st.state);
  }

  lemma {:induction false} PlacedIntact(r: Rules, g: Record, s: State, b: Block, p: Placed, now: nat)
    requires Healthy(r, g, s, now) && p == PlaceAlt(r, s, b)
    ensures Healthy(r, g, p.state, now) && NothingLost(s, p.state)
  {
    SamePoolSafe(s, s, s);
    var d := PlaceUnfolds(r, s, b);
    SamePoolSafe(s, s, p.state);
  }

  lemma {:induction false} DeepFollowKeeps(r: Rules, g: Record, p: Placed, st: Step, now: nat, depth: nat)
    requires Healthy(r, g, p.state, now) && st == DeepFollow(r, p, now, depth)
    ensures Mild(r, g, p.state, st, now)
    decreases depth, 0
  {
    if p.outcome != Heavier || depth == 0 {
      MildSame(r, g, p.state, p.state, st.verdict, now);
    } else {
      DeepSwitchKeeps(r, g, p.state, p.branch, st, now, depth - 1);
    }
  }

  lemma {:induction false} DeepAltKeeps(r: Rules, g: Record, s: State, b: Block, st: Step, now: nat, depth: nat)
    requires Healthy(r, g, s, now) && st == DeepAlt(r, s, b, now, depth)
    ensures Mild(r, g, s, st, now)
    decreases depth, 1
  {
    var p := PlaceAlt(r, s, b);
    PlacedIntact(r, g, s, b, p, now);
    DeepFollowKeeps(r, g, p, st, now, depth);
    IntactAfter(r, g, s, p.state, st, now);
  }

  lemma {:induction false} DeepReaddKeeps(r: Rules, g: Record, s: State, blocks: seq<Block>, st: Step, now: nat, depth: nat)
    requires Healthy(r, g, s, now) && st == DeepReadd(r, s, blocks, now, depth)
    ensures Intact(r, g, s, st, now)
    decreases depth, 2, |blocks|
  {
    if blocks == [] {
      SamePoolSafe(s, s, s);
    } else {
      var first := DeepAlt(r, s, blocks[0], now, depth);
      DeepAltKeeps(r, g, s, blocks[0], first, now, depth);
      if first.verdict != Threw && first.verdict != Nested {
        DeepReaddKeeps(r, g, first.state, blocks[1..], st, now, depth);
        IntactAfter(r, g, s, first.state, st, now);
      }
    }
  }

  lemma {:induction false} DeepConcludeKeeps(r: Rules, g: Record, s: State, f: nat, alts: seq<Node>, c: Connection, st: Step, now: nat, depth: nat)
    requires Healthy(r, g, c.state, now) && 1 <= f <= |s.main| && st == DeepConclude(r, s, f, alts, c, now, depth)
    ensures Intact(r, g, c.state, st, now)
    decreases depth, 3
  {
    var e := DeepReadd(r, c.state, Blocks(Nodes(s.main[f..])), now, depth);
    DeepReaddKeeps(r, g, c.state, Blocks(Nodes(s.main[f..])), e, now, depth);
    SamePoolSafe(c.state, e.state, st.state);
  }

  lemma {:induction false} DeepSwitchAtKeeps(r: Rules, g: Record, s: State, f: nat, alts: seq<Node>, st: Step, now: nat, depth: nat)
    requires Healthy(r, g, s, now) && 1 <= f <= |s.main| && st == DeepSwitchAt(r, s, f, alts, now, depth)
    ensures Mild(r, g, s, st, now)
    decreases depth, 4
  {
    var c := Attempt(r, s, f, alts, now);
    AttemptKeeps(r, g, s, f, alts, now);
    if c.verdict == Added {
      DeepConcludeKeeps(r, g, s, f, alts, c, st, now, depth);
      IntactAfter(r, g, s, c.state, st, now);
    } else if c.verdict != Threw {
      GiveUpRestores(r, g, s, f, alts, c, now);
    }
  }

  lemma {:induction false} DeepSwitchKeeps(r: Rules, g: Record, s: State, alts: seq<Node>, st: Step, now: nat, depth: nat)
    requires Healthy(r, g, s, now) && st == DeepSwitch(r, s, alts, now, depth)
    ensures Mild(r, g, s, st, now)
    decreases depth, 5
  {
    if alts == [] || !Joins(r, s, alts) {
      MildSame(r, g, s, s, Rejected, now);
    } else {
      DeepSwitchAtKeeps(r, g, s, SplitOf(r, s, alts), alts, st, now, depth);
    }
  }

  /**
   Offering any block in any state with a consistent chain and pool keeps them so, loses no
   transaction, and a rollback leaves the main chain as it was: whatever the alternatives, the
   heights and the difficulties, and however many switches nest.
   */
  lemma {:induction false} DeepAddKeeps(r: Rules, g: Record, s: State, b: Block, st: Step, now: nat, depth: nat)
    requires Healthy(r, g, s, now) && st == DeepAdd(r, s, b, now, depth)
    ensures Mild(r, g, s, st, now)
  {
    if HaveBlock(r, s, r.hash(b)) {
      MildSame(r, g, s, s, Exists, now);
    } else if b.prev != TipHash(r, s) {
      DeepAltKeeps(r, g, s, b, st, now, depth + 1);
    } else {
      var x := MainKeeps(r, g, s, b, now);
    }
  }
}
