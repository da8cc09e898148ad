/** Fork choice: of all the blocks the node keeps, the tip of the main chain carries the most work. */
module ForkChoice {
  import opened Ledger
  import opened Chain
  import opened Reorg
  import opened MainSteps
  import opened Branches
  import opened Switching
  import opened Runs

  /** No stored alternative is heavier than the main chain. */
  ghost predicate Heaviest(s: State) {
    s.main != [] && forall h :: h in s.alt ==> s.alt[h].work <= TipWork(s)
  }

  // ---------- a block has one work ----------

  lemma {:induction false} KnownSame(r: Rules, g: Node, x: Node, y: Node)
    requires Lawful(r) && g.block.height == 0 && Known(r, g, x) && Known(r, g, y) && r.hash(x.block) == r.hash(y.block)
    ensures x == y
  {
    var p :| Path(r, g, p) && Last(p) == x;
    var q :| Path(r, g, q) && Last(q) == y;
    assert SameHash(r, x.block, y.block);
    PathUnique(r, g, p, q);
  }

  /** A block of the main chain is known with its work, which is at most that of the tip. */
  lemma {:induction false} MainKnown(r: Rules, g: Record, c: seq<Record>, k: nat, now: nat)
    requires Replays(r, g, c, now) && k < |c|
    ensures Known(r, g.node, c[k].node) && c[k].node.work <= Last(c).node.work
  {
    ReplaysPath(r, g, c, now);
    PathPrefix(r, g.node, Nodes(c), k + 1);
    assert Last(Nodes(c)[..k + 1]) == c[k].node;
    WorkGrows(r, g.node, Nodes(c), k, |c| - 1);
  }

  /** `t` keeps only alternatives that `s` had, blocks of its main chain, and perhaps the block of `x`. */
  ghost predicate KeptFrom(r: Rules, s: State, t: State, x: Node) {
    forall h :: h in t.alt ==> h in s.alt || InMain(r, s.main, h) || h == r.hash(x.block)
  }

  lemma {:induction false} KeptIsLighter(r: Rules, g: Record, s: State, t: State, x: Node, h: Hash, now: nat)
    requires Sane(r, g, s, now) && Sane(r, g, t, now) && Heaviest(s) && KeptFrom(r, s, t, x) && Known(r, g.node, x)
    requires h in t.alt
    ensures t.alt[h].work <= TipWork(s) || t.alt[h] == x
  {
    assert AltNode(r, g.node, h, t.alt[h]);
    if h in s.alt {
      assert AltNode(r, g.node, h, s.alt[h]);
      KnownSame(r, g.node, s.alt[h], t.alt[h]);
    } else if InMain(r, s.main, h) {
      var k := Find(r, s.main, h);
      MainKnown(r, g, s.main, k, now);
      KnownSame(r, g.node, s.main[k].node, t.alt[h]);
    } else {
      KnownSame(r, g.node, x, t.alt[h]);
    }
  }

  /** Then the tip stays heaviest exactly when `x` does not outweigh it. */
  lemma {:induction false} KeptHeaviest(r: Rules, g: Record, s: State, t: State, x: Node, now: nat)
    requires Sane(r, g, s, now) && Sane(r, g, t, now) && Heaviest(s) && KeptFrom(r, s, t, x) && Known(r, g.node, x)
    requires t.main != [] && TipWork(s) <= TipWork(t)
    ensures Heaviest(t) <==> r.hash(x.block) !in t.alt || x.work <= TipWork(t)
  {
    forall h | h in t.alt ensures t.alt[h].work <= TipWork(t) || t.alt[h] == x {
      KeptIsLighter(r, g, s, t, x, h, now);
    }
    forall h | h in t.alt && t.alt[h] == x ensures h == r.hash(x.block) { assert AltNode(r, g.node, h, t.alt[h]); }
    if r.hash(x.block) in t.alt {
      assert AltNode(r, g.node, r.hash(x.block), t.alt[r.hash(x.block)]);
      KnownSame(r, g.node, x, t.alt[r.hash(x.block)]);
    }
  }

  // ---------- a heavier branch ----------

  /** A heavier branch is refused, and the difficulty after the main chain that is put back is not defined. */
  ghost predicate Stuck(r: Rules, g: Record, s: State, f: nat, alts: seq<Node>, now: nat) {
    && alts != [] && 1 <= f <= |s.main|
    && !NextDefined(r, s.main) && !Joinable(r, g, s, f, alts, now)
  }

  /** What a challenge leaves: `x` is the last block of the branch. */
  ghost predicate Answered(r: Rules, s: State, st: Step, stuck: bool, x: Node) {
    && st.state.main != [] && (forall h :: h in st.state.alt ==> h in s.alt || InMain(r, s.main, h))
    && (r.hash(x.block) !in st.state.alt || x.work <= TipWork(st.state) <==> !stuck)
  }

  lemma {:induction false} LastMarked(r: Rules, alts: seq<Node>, k: nat)
    requires k < |alts|
    ensures r.hash(Last(alts).block) in Hashes(r, Blocks(alts[k..]))
  {
    assert Blocks(alts[k..])[|alts| - 1 - k] == Last(alts).block;
  }

  lemma {:induction false} RefusedAnswered(r: Rules, g: Record, s: State, f: nat, alts: seq<Node>, st: Step, stuck: bool, now: nat)
    requires Challenges(r, g, s, f, alts, now) && st == Switch(r, s, alts, now)
    requires !Joinable(r, g, s, f, alts, now) && stuck == !NextDefined(r, s.main)
    ensures Answered(r, s, st, stuck, Last(alts))
  {
    if NextDefined(r, s.main) {
      SwitchUndone(r, g, s, f, alts, st, now);
      LastMarked(r, alts, Attempt(r, s, f, alts, now).count);
    } else {
      SwitchStranded(r, g, s, f, alts, st, now);
      assert r.hash(alts[|alts| - 1].block) in s.alt;
    }
  }

  lemma {:induction false} BranchOnTop(s: State, t: State, f: nat, alts: seq<Node>)
    requires OnBranch(s, t, alts, f) && alts != []
    ensures t.main != [] && TipWork(t) == Last(alts).work
  {
    assert |Nodes(t.main)| == f + |alts|;
    assert Last(Nodes(t.main)) == Last(alts);
  }

  lemma {:induction false} DoneAnswered(r: Rules, g: Record, s: State, f: nat, alts: seq<Node>, st: Step, now: nat)
    requires Done(r, g, s, f, alts, st, now) && alts != []
    ensures Answered(r, s, st, false, Last(alts))
  {
    BranchOnTop(s, st.state, f, alts);
  }

  lemma {:induction false} JoinedAnswered(r: Rules, g: Record, s: State, f: nat, alts: seq<Node>, st: Step, now: nat)
    requires Challenges(r, g, s, f, alts, now) && st == Switch(r, s, alts, now) && Joinable(r, g, s, f, alts, now)
    ensures Answered(r, s, st, false, Last(alts))
  {
    if BranchDefined(r, s, f, alts) {
      SwitchDone(r, g, s, f, alts, st, now);
      DoneAnswered(r, g, s, f, alts, st, now);
    } else {
      SwitchThrown(r, g, s, f, alts, st, now);
    }
  }

  lemma {:induction false} ChallengeAnswered(r: Rules, g: Record, s: State, f: nat, alts: seq<Node>, st: Step, stuck: bool, now: nat)
    requires Challenges(r, g, s, f, alts, now) && st == Switch(r, s, alts, now) && stuck == Stuck(r, g, s, f, alts, now)
    ensures Answered(r, s, st, stuck, Last(alts))
  {
    if Joinable(r, g, s, f, alts, now) {
      JoinedAnswered(r, g, s, f, alts, st, now);
    } else {
      RefusedAnswered(r, g, s, f, alts, st, stuck, now);
    }
  }

  // ---------- any block ----------

  lemma {:induction false} PlacedAnswered(r: Rules, g: Record, s: State, b: Block, p: Placed, x: Node, st: Step, stuck: bool, now: nat)
    requires Sane(r, g, s, now) && !HaveBlock(r, s, r.hash(b)) && b.prev != TipHash(r, s)
    requires PlacedAs(r, g.node, s, b, p, x) && p.outcome == Heavier
    requires b.height == AltHeight(r, s.main, BuildAlt(s.alt, b.prev), b.prev)
    requires OldSteady(r, s, ForkOf(p.branch), b.height + 1)
    requires st == Switch(r, p.state, p.branch, now) && stuck == Stuck(r, g, p.state, ForkOf(p.branch), p.branch, now)
    ensures KeptFrom(r, s, st.state, x) && st.state.main != []
    ensures r.hash(x.block) !in st.state.alt || x.work <= TipWork(st.state) <==> !stuck
  {
    PlacedReady(r, g, s, b, p, x, now);
    ChallengeAnswered(r, g, p.state, ForkOf(p.branch), p.branch, st, stuck, now);
    assert Last(p.branch) == x;
  }

  /** The branch that `b` completes is refused while the difficulty after the main chain is not defined. */
  ghost predicate GetsStuck(r: Rules, g: Record, s: State, b: Block, now: nat)
    requires s.main != []
  {
    var alts := Challenger(r, s, b);
    Stuck(r, g, PlaceAlt(r, s, b).state, ForkOf(alts), alts, now)
  }

  lemma {:induction false} BesideHeaviest(r: Rules, g: Record, s: State, b: Block, st: Step, stuck: bool, now: nat)
    requires Sane(r, g, s, now) && !HaveBlock(r, s, r.hash(b)) && b.prev != TipHash(r, s) && Level(r, s, b)
    requires Heaviest(s) && st == HandleAlt(r, s, b, now) && stuck == GetsStuck(r, g, s, b, now)
    requires Offered(r, g, s, st, now)
    ensures Heaviest(st.state) <==> !stuck
  {
    ReplaysPath(r, g, s.main, now);
    var p := PlaceAlt(r, s, b);
    var x := PlaceFacts(r, g.node, s, b);
    var d := PlaceUnfolds(r, s, b);
    if p.outcome == Heavier {
      PlacedAnswered(r, g, s, b, p, x, st, stuck, now);
      KeptHeaviest(r, g, s, st.state, x, now);
    } else if p.outcome == Lighter {
      KeptHeaviest(r, g, s, st.state, x, now);
    }
  }

  lemma {:induction false} OnTopHeaviest(r: Rules, g: Record, s: State, b: Block, st: Step, now: nat)
    requires Sane(r, g, s, now) && Heaviest(s) && st == HandleMain(r, s, b, now)
    requires st.state.main != [] && TipWork(s) <= TipWork(st.state)
    ensures Heaviest(st.state)
  {
    var x := MainKeeps(r, g, s, b, now);
    assert st.state.alt == s.alt;
  }

  /**
   Offering any block for which the difficulty rule agrees leaves the tip the heaviest block the
   node keeps, exactly when it does not get stuck: a branch that is refused stays stored, heavier
   than the main chain, only where the difficulty after the main chain is not defined.
   */
  lemma {:induction false} TipStaysHeaviest(r: Rules, g: Record, s: State, b: Block, st: Step, now: nat)
    requires Sane(r, g, s, now) && Heaviest(s) && st == AddNewBlock(r, s, b, now)
    requires b.prev != TipHash(r, s) ==> Level(r, s, b)
    ensures Heaviest(st.state) <==> !GetsStuck(r, g, s, b, now)
  {
    AddNewBlockKeeps(r, g, s, b, st, Mixes(r, g, s, b, now), now);
    if HaveBlock(r, s, r.hash(b)) {
    } else if b.prev != TipHash(r, s) {
      BesideHeaviest(r, g, s, b, st, GetsStuck(r, g, s, b, now), now);
    } else {
      OnTopHeaviest(r, g, s, b, st, now);
    }
  }
}
