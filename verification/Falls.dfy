/**
 When the work of the tip falls. A branch is weighed with the length of the main chain before the
 switch, but counts with its own lengths once it is on; so what it counts then can be told before.
 */
module Falls {
  import opened Ledger
  import opened Chain
  import opened Reorg
  import opened MainSteps
  import opened Branches
  import opened Switching
  import opened Forecast
  import opened Nesting
  import opened Runs

  // ---------- the switch ----------

  /** From `t` on the blocks get to where they count less than `work`. */
  ghost predicate Light(r: Rules, g: Record, t: State, bs: seq<Block>, work: nat, now: nat) {
    exists n: nat :: Gets(r, g, t, bs, n, now) && MainWork(r, Nodes(t.main), bs[..n]) < work
  }

  lemma {:induction false} LastNode(s: State)
    requires s.main != []
    ensures TipWork(s) == Last(Nodes(s.main)).work
  {
  }

  /** What the tip counts when the blocks are on, so far as they get. */
  lemma {:induction false} OnWork(r: Rules, g: Record, t: State, bs: seq<Block>, c: Connection, work: nat, now: nat)
    requires Healthy(r, g, t, now) && NextDefined(r, t.main) && bs != [] && c == Connect(r, t, bs, now) && c.verdict != Rejected
    requires Healthy(r, g, c.state, now)
    ensures work <= TipWork(c.state) <==> !Light(r, g, t, bs, work, now)
  {
    GetsSomewhere(r, g, t, bs, c, now);
    forall n: nat | Gets(r, g, t, bs, n, now) ensures TipWork(c.state) == MainWork(r, Nodes(t.main), bs[..n]) {
      GotThere(r, g, t, bs, n, c, now);
      LastNode(c.state);
    }
  }

  lemma {:induction false} RefusedIsNotLight(r: Rules, g: Record, t: State, bs: seq<Block>, work: nat, now: nat)
    requires Healthy(r, g, t, now) && Connect(r, t, bs, now).verdict == Rejected
    ensures !Light(r, g, t, bs, work, now)
  {
    forall n: nat ensures !Gets(r, g, t, bs, n, now) {
      if Gets(r, g, t, bs, n, now) { GotThere(r, g, t, bs, n, Connect(r, t, bs, now), now); }
    }
  }

  lemma {:induction false} PoppedDefined(r: Rules, g: Record, s: State, f: nat, now: nat)
    requires Healthy(r, g, s, now) && 1 <= f < |s.main|
    ensures Healthy(r, g, PopTo(r, s, f, now), now) && NextDefined(r, PopTo(r, s, f, now).main)
  {
    PopToKeeps(r, g, s, f, now);
    assert FitsAt(r, s.main, f, now);
  }

  /** After a switch, whatever its end, the tip counts less than before exactly when the branch is light. */
  lemma {:induction false} SwitchWorkIff(r: Rules, g: Record, s: State, f: nat, alts: seq<Node>, st: Step, now: nat)
    requires Healthy(r, g, s, now) && 1 <= f < |s.main| && alts != [] && st == SwitchAt(r, s, f, alts, now)
    ensures TipWork(s) <= TipWork(st.state) <==> !Light(r, g, PopTo(r, s, f, now), Blocks(alts), TipWork(s), now)
  {
    var c := Attempt(r, s, f, alts, now);
    AttemptKeeps(r, g, s, f, alts, now);
    PoppedDefined(r, g, s, f, now);
    if c.verdict == Rejected {
      RefusedIsNotLight(r, g, PopTo(r, s, f, now), Blocks(alts), TipWork(s), now);
      GiveUpRestores(r, g, s, f, alts, c, now);
      RefusedGivesUp(r, s, f, alts, now);
    } else {
      OnWork(r, g, PopTo(r, s, f, now), Blocks(alts), c, TipWork(s), now);
      ConnectStacks(r, g, PopTo(r, s, f, now), Blocks(alts), c, now);
    }
  }

  /**
   A branch that is on to its last block counts there what the rule asks at its own heights, so that
   the tip lost work exactly when that is less.
   */
  lemma {:induction false} OnBranchWorkIff(r: Rules, g: Record, s: State, f: nat, alts: seq<Node>, st: Step, now: nat)
    requires Healthy(r, g, s, now) && 1 <= f < |s.main| && alts != [] && st == SwitchAt(r, s, f, alts, now)
    requires var c := Attempt(r, s, f, alts, now); c.verdict != Rejected && |c.state.main| == f + |alts|
    ensures Nodes(st.state.main) == MainChain(r, Nodes(s.main)[..f], Blocks(alts))
    ensures TipWork(s) <= TipWork(st.state) <==> TipWork(s) <= MainWork(r, Nodes(s.main)[..f], Blocks(alts))
  {
    OnBranchIs(r, g, s, f, alts, Attempt(r, s, f, alts, now), now);
    SwitchedMain(r, s, f, alts, Attempt(r, s, f, alts, now), st, now);
    LastNode(st.state);
  }

  lemma {:induction false} OnBranchIs(r: Rules, g: Record, s: State, f: nat, alts: seq<Node>, c: Connection, now: nat)
    requires Healthy(r, g, s, now) && 1 <= f < |s.main| && alts != [] && c == Attempt(r, s, f, alts, now)
    requires c.verdict != Rejected && |c.state.main| == f + |alts|
    ensures Nodes(c.state.main) == MainChain(r, Nodes(s.main)[..f], Blocks(alts)) && (c.verdict == Added || c.verdict == Threw)
  {
    var t := PopTo(r, s, f, now);
    AttemptKeeps(r, g, s, f, alts, now);
    PoppedDefined(r, g, s, f, now);
    AllThereIs(r, g, t, Blocks(alts), c, now);
    assert Nodes(t.main) == Nodes(s.main)[..f];
  }

  lemma {:induction false} SwitchedMain(r: Rules, s: State, f: nat, alts: seq<Node>, c: Connection, st: Step, now: nat)
    requires 1 <= f <= |s.main| && c == Attempt(r, s, f, alts, now) && st == SwitchAt(r, s, f, alts, now) && c.verdict != Rejected
    requires c.verdict == Added || c.verdict == Threw
    ensures st.state.main == c.state.main
  {
  }

  // ---------- any block ----------

  /** Offering `b` puts a branch on that counts less than the tip. */
  ghost predicate Loses(r: Rules, g: Record, s: State, b: Block, now: nat)
    requires s.main != []
  {
    var p, alts := PlaceAlt(r, s, b), Challenger(r, s, b);
    && alts != [] && Joins(r, p.state, alts)
    && Light(r, g, PopTo(r, p.state, SplitOf(r, p.state, alts), now), Blocks(alts), TipWork(s), now)
  }

  /** The branch of a block that is not on top leaves the main chain below its tip. */
  lemma {:induction false} ForksBelow(r: Rules, s: State, b: Block, p: Placed)
    requires s.main != [] && b.prev != TipHash(r, s) && p == PlaceAlt(r, s, b) && p.outcome == Heavier
    ensures p.branch != [] && p.state.main == s.main && Joins(r, p.state, p.branch)
    ensures SplitOf(r, p.state, p.branch) < |s.main|
  {
    var d := PlaceUnfolds(r, s, b);
    var a := BuildAlt(s.alt, b.prev);
    if a == [] {
      assert p.branch[0].block == b;
    } else {
      assert p.branch[0] == a[0];
      assert Find(r, s.main, a[0].block.prev) <= a[0].block.height - 1;
    }
  }

  /**
   Any block in any state with a consistent chain and pool: where it does not nest a switch in
   another, the work of the tip falls exactly when the branch it completes counts less on the main
   chain than the tip does, as far as it gets.
   */
  lemma {:induction false} WorkFallsIff(r: Rules, g: Record, s: State, b: Block, st: Step, now: nat)
    requires Healthy(r, g, s, now) && st == AddNewBlock(r, s, b, now)
    ensures TipWork(st.state) < TipWork(s) <==> Loses(r, g, s, b, now)
  {
    if HaveBlock(r, s, r.hash(b)) {
    } else if b.prev == TipHash(r, s) {
      OnTopGains(r, g, s, b, st, now);
    } else {
      BesideWork(r, g, s, b, PlaceAlt(r, s, b), st, now);
    }
  }

  lemma {:induction false} OnTopGains(r: Rules, g: Record, s: State, b: Block, st: Step, now: nat)
    requires Healthy(r, g, s, now) && st == HandleMain(r, s, b, now)
    ensures TipWork(s) <= TipWork(st.state)
  {
    var x := MainKeeps(r, g, s, b, now);
    if !Unchanged(r, s, b, st) { GrownWork(r, s, b, now, st, x); }
  }

  lemma {:induction false} BesideWork(r: Rules, g: Record, s: State, b: Block, p: Placed, st: Step, now: nat)
    requires Healthy(r, g, s, now) && !HaveBlock(r, s, r.hash(b)) && b.prev != TipHash(r, s)
    requires p == PlaceAlt(r, s, b) && st == HandleAlt(r, s, b, now)
    ensures TipWork(st.state) < TipWork(s) <==> Loses(r, g, s, b, now)
  {
    if p.outcome == Heavier {
      ForksBelow(r, s, b, p);
      PlacedIntact(r, g, s, b, p, now);
      SwitchIs(r, p.state, p.branch, now);
      SwitchWorkIff(r, g, p.state, SplitOf(r, p.state, p.branch), p.branch, st, now);
    } else {
      var d := PlaceUnfolds(r, s, b);
    }
  }

  /** A block for which the rule agrees is none that loses work. */
  lemma {:induction false} LevelLosesNot(r: Rules, g: Record, s: State, b: Block, now: nat)
    requires Sane(r, g, s, now) && s.main != [] && (b.prev != TipHash(r, s) ==> Level(r, s, b))
    ensures !Loses(r, g, s, b, now)
  {
    var st := AddNewBlock(r, s, b, now);
    AddNewBlockKeeps(r, g, s, b, st, Mixes(r, g, s, b, now), now);
    WorkFallsIff(r, g, s, b, st, now);
  }
}
