/**
 Where the promises about reorganisation end: near the start of the chain the branch routine asks
 the difficulty rule with the length of the main chain, and that can throw.
 */
module Bootstrap {
  import opened Ledger
  import opened Windows
  import opened Chain
  import opened Reorg
  import opened Branches
  import opened Switching
  import Lwma

  // ---------- where the rule agrees ----------

  /** Blocks whose heights lie in one band with the lengths involved are stored and put back with the right work. */
  lemma {:induction false} SameBandIsSteady(r: Rules, s: State, f: nat, length: nat)
    requires Lwma.Uses(r) && forall h :: f <= h < |s.main| ==> Lwma.Band(h) == Lwma.Band(length)
    ensures OldSteady(r, s, f, length)
  {
    forall h | f <= h < |s.main| ensures SteadyAt(r, s, h, length) {
      Lwma.SameBandAgrees(r, Nodes(s.main)[..h], length, h);
    }
  }

  lemma {:induction false} SameBandAgreesOn(r: Rules, s: State, b: Block)
    requires Lwma.Uses(r)
    requires Lwma.Band(AltHeight(r, s.main, BuildAlt(s.alt, b.prev), b.prev)) == Lwma.Band(|s.main|)
    ensures Agrees(r, s, b)
  {
    var alts := BuildAlt(s.alt, b.prev);
    if Attached(r, s.main, alts, b.prev) {
      Lwma.SameBandAgrees(r, ParentChain(r, s.main, alts, b.prev), |s.main|, AltHeight(r, s.main, alts, b.prev));
    }
  }

  // ---------- putting back what the switch disconnected ----------

  /** The block at height `f` is not earlier than the median of the blocks below it. */
  predicate TimelyAt(r: Rules, c: seq<Record>, f: nat)
    requires 1 <= f < |c|
  {
    r.median(FillStamps(Nodes(c), f - 1, 0)) <= c[f].node.block.timestamp
  }

  /**
   From height 12 on every block of an accepted chain is so, if the median does not depend on the
   order of the list: then a switch over such a fork always throws.
   */
  lemma {:induction false} AcceptedIsTimely(r: Rules, g: Record, c: seq<Record>, f: nat, now: nat)
    requires Replays(r, g, c, now) && 12 <= f < |c|
    requires var w := Stamps(Nodes(c)[f - STAMP_WINDOW..f]); r.median(Reverse(w)) == r.median(w)
    ensures TimelyAt(r, c, f)
  {
    assert FitsAt(r, c, f, now);
    assert Nodes(c[..f])[f - STAMP_WINDOW..] == Nodes(c)[f - STAMP_WINDOW..f];
  }

  lemma {:induction false} FillSame(a: seq<Node>, b: seq<Node>, f: nat, have: nat)
    requires 1 <= f <= |a| && f <= |b| && a[..f] == b[..f]
    ensures FillStamps(a, f - 1, have) == FillStamps(b, f - 1, have)
  {
    if have < STAMP_WINDOW {
      var need := STAMP_WINDOW - have;
      var stop := if need < f - 1 then f - 1 - need else 0;
      assert a[stop + 1..f] == a[..f][stop + 1..] && b[stop + 1..f] == b[..f][stop + 1..];
    }
  }

  /** The block of height `f`, put back on a chain that has kept everything below it. */
  lemma {:induction false} FirstBack(r: Rules, s: State, u: State, f: nat)
    requires Lwma.Uses(r) && 1 <= f < |s.main| && f <= 145 && Lwma.BOOTSTRAP <= |u.main|
    requires Nodes(u.main)[..f] == Nodes(s.main)[..f] && s.main[f].node.block.height == f
    requires var prev := s.main[f].node.block.prev; prev !in u.alt && Find(r, u.main, prev) == f - 1
    ensures var p := PlaceAlt(r, u, s.main[f].node.block);
            p.state == u && p.outcome == if TimelyAt(r, s.main, f) then Raised else Refused
  {
    var b := s.main[f].node.block;
    assert BuildAlt(u.alt, b.prev) == [];
    FillSame(Nodes(u.main), Nodes(s.main), f, 0);
    assert AltStamps(r, u.main, [], b.prev) == FillStamps(Nodes(s.main), f - 1, 0);
    assert AltTimely(r, u, b) <==> TimelyAt(r, s.main, f);
    if TimelyAt(r, s.main, f) {
      var c := ParentChain(r, u.main, [], b.prev);
      Lwma.ShortBranchThrows(c, |u.main|);
      assert Lwma.AnswersFor(r, c, |u.main|);
    }
  }

  /** A block whose parent is nowhere. */
  ghost predicate Stray(r: Rules, s: State, b: Block) {
    b.prev !in s.alt && !InMain(r, s.main, b.prev)
  }

  lemma {:induction false} StraysStayOut(r: Rules, s: State, blocks: seq<Block>)
    requires s.main != [] && forall i :: 0 <= i < |blocks| ==> Stray(r, s, blocks[i])
    ensures Readd(r, s, blocks) == Step(s, Switched)
    decreases |blocks|
  {
    if blocks != [] {
      assert Stray(r, s, blocks[0]);
      StraysStayOut(r, s, blocks[1..]);
    }
  }

  /** Behind the first disconnected block, the parent of each is gone from the main chain. */
  lemma {:induction false} LaterIsStray(r: Rules, g: Record, s: State, u: State, f: nat, alts: seq<Node>, k: nat, now: nat)
    requires Inv(r, g, s, now) && 1 <= f < k < |s.main| && OnBranch(s, u, alts, f) && u.alt == s.alt && AllStored(r, s.alt, alts)
    ensures Stray(r, u, s.main[k].node.block)
  {
    ReplaysPath(r, g, s.main, now);
    assert FitsAt(r, s.main, k, now);
    var h := r.hash(s.main[k - 1].node.block);
    assert s.main[k].node.block.prev == h;
    FindAt(r, g.node, s.main, k - 1);
    assert InMain(r, s.main, h);
    NewFind(r, s, u, f, alts, h);
    BranchIsStored(r, s.alt, alts, h);
  }

  lemma {:induction false} BranchIsStored(r: Rules, alt: map<Hash, Node>, alts: seq<Node>, h: Hash)
    requires AllStored(r, alt, alts)
    ensures h in Hashes(r, Blocks(alts)) ==> h in alt
  {
    if h in Hashes(r, Blocks(alts)) {
      var i :| 0 <= i < |Blocks(alts)| && h == r.hash(Blocks(alts)[i]);
      assert Blocks(alts)[i] == alts[i].block;
    }
  }

  lemma {:induction false} FirstIsPlaced(r: Rules, g: Record, s: State, u: State, f: nat, alts: seq<Node>, now: nat)
    requires Inv(r, g, s, now) && 1 <= f < |s.main| && OnBranch(s, u, alts, f) && u.alt == s.alt
    requires Path(r, g.node, Nodes(u.main))
    ensures Nodes(u.main)[..f] == Nodes(s.main)[..f] && s.main[f].node.block.height == f
    ensures var prev := s.main[f].node.block.prev; prev !in u.alt && Find(r, u.main, prev) == f - 1
  {
    ParentOf(r, g, s, f, now);
    assert |Nodes(u.main)| == f + |alts|;
    NewBlockAt(r, s, u, f, alts, f - 1);
    FindAt(r, g.node, u.main, f - 1);
  }

  lemma {:induction false} ParentOf(r: Rules, g: Record, s: State, f: nat, now: nat)
    requires Inv(r, g, s, now) && 1 <= f < |s.main|
    ensures s.main[f].node.block.height == f && s.main[f].node.block.prev == r.hash(s.main[f - 1].node.block)
    ensures s.main[f].node.block.prev !in s.alt
  {
    assert FitsAt(r, s.main, f, now);
    assert Last(s.main[..f]) == s.main[f - 1];
    assert InMain(r, s.main, r.hash(s.main[f - 1].node.block));
  }

  lemma {:induction false} BackOnTop(r: Rules, g: Record, s: State, u: State, f: nat, alts: seq<Node>, now: nat)
    requires Lwma.Uses(r) && Inv(r, g, s, now) && 1 <= f < |s.main| && f <= 145 && Lwma.BOOTSTRAP <= |u.main|
    requires OnBranch(s, u, alts, f) && u.alt == s.alt && AllStored(r, s.alt, alts) && Path(r, g.node, Nodes(u.main))
    ensures Readd(r, u, Blocks(Nodes(s.main[f..]))) == Step(u, if TimelyAt(r, s.main, f) then Threw else Switched)
  {
    var bs := Blocks(Nodes(s.main[f..]));
    FirstIsPlaced(r, g, s, u, f, alts, now);
    FirstBack(r, s, u, f);
    AllStrays(r, g, s, u, f, alts, bs, now);
    BackInOrder(r, u, bs, TimelyAt(r, s.main, f));
  }

  lemma {:induction false} BackInOrder(r: Rules, u: State, bs: seq<Block>, timely: bool)
    requires u.main != [] && bs != [] && forall i :: 0 <= i < |bs[1..]| ==> Stray(r, u, bs[1..][i])
    requires PlaceAlt(r, u, bs[0]).state == u && PlaceAlt(r, u, bs[0]).outcome == if timely then Raised else Refused
    ensures Readd(r, u, bs) == Step(u, if timely then Threw else Switched)
  {
    StraysStayOut(r, u, bs[1..]);
  }

  lemma {:induction false} AllStrays(r: Rules, g: Record, s: State, u: State, f: nat, alts: seq<Node>, bs: seq<Block>, now: nat)
    requires Inv(r, g, s, now) && 1 <= f < |s.main| && OnBranch(s, u, alts, f) && u.alt == s.alt && AllStored(r, s.alt, alts)
    requires bs == Blocks(Nodes(s.main[f..]))
    ensures |bs| == |s.main| - f && bs[0] == s.main[f].node.block
    ensures forall i :: 0 <= i < |bs[1..]| ==> Stray(r, u, bs[1..][i])
  {
    forall i | 0 <= i < |bs[1..]| ensures Stray(r, u, bs[1..][i]) {
      assert bs[1..][i] == s.main[f + 1 + i].node.block;
      LaterIsStray(r, g, s, u, f, alts, f + 1 + i, now);
    }
  }

  // ---------- the switch near the start ----------

  /** What a switch near the start ends in. */
  ghost predicate EarlyEnd(r: Rules, s: State, f: nat, alts: seq<Node>, timely: bool, st: Step) {
    && OnBranch(s, st.state, alts, f)
    && (if timely then st.verdict == Threw && st.state.alt == s.alt && !IdsApart(r, st.state)
        else st.verdict == Switched && st.state.alt == s.alt - Hashes(r, Blocks(alts)) && IdsApart(r, st.state))
  }

  lemma {:induction false} EarlyConcludes(r: Rules, g: Record, s: State, f: nat, alts: seq<Node>, c: Connection, now: nat)
    requires Lwma.Uses(r) && Inv(r, g, s, now) && 1 <= f < |s.main| && f <= 145 && Lwma.BOOTSTRAP <= f + |alts|
    requires AllStored(r, s.alt, alts) && Arrived(r, g, s, f, alts, c, now)
    ensures EarlyEnd(r, s, f, alts, TimelyAt(r, s.main, f), Conclude(r, s, f, alts, c))
  {
    assert |Nodes(c.state.main)| == f + |alts|;
    ReplaysPath(r, g, c.state.main, now);
    BackOnTop(r, g, s, c.state, f, alts, now);
    if TimelyAt(r, s.main, f) {
      OverlapShows(r, s, c.state, f, alts);
    } else {
      EarlyForgets(r, g, s, f, alts, c, now);
    }
  }

  lemma {:induction false} EarlyForgets(r: Rules, g: Record, s: State, f: nat, alts: seq<Node>, c: Connection, now: nat)
    requires Inv(r, g, s, now) && 1 <= f < |s.main| && AllStored(r, s.alt, alts) && Arrived(r, g, s, f, alts, c, now)
    ensures EarlyEnd(r, s, f, alts, false, Forget(r, c.state, Blocks(alts)))
  {
    ReplaysPath(r, g, c.state.main, now);
    BranchDroppable(r, g, s, f, alts, s.alt, 0);
    assert Blocks(alts)[0..] == Blocks(alts);
    ForgetDrops(r, c.state, Blocks(alts));
    SwitchedApart(r, g, s, Forget(r, c.state, Blocks(alts)).state, f, alts, now);
  }

  /**
   A switch over a fork at height at most 145 to a chain of at least 147 blocks. If the branch is
   acceptable and followed by a defined difficulty, the call throws exactly when the first
   disconnected block is not earlier than the median of the blocks below it: the new chain is then
   in place with its blocks still among the alternatives. Otherwise it goes through, and none of
   the disconnected blocks is kept.
   */
  lemma {:induction false} EarlySwitch(r: Rules, g: Record, s: State, f: nat, alts: seq<Node>, st: Step, now: nat)
    requires Lwma.Uses(r) && Inv(r, g, s, now) && IsBranch(r, g, s, alts) && f == alts[0].block.height
    requires f < |s.main| && f <= 145 && Lwma.BOOTSTRAP <= f + |alts|
    requires Joinable(r, g, s, f, alts, now) && BranchDefined(r, s, f, alts)
    requires st == Switch(r, s, alts, now)
    ensures EarlyEnd(r, s, f, alts, TimelyAt(r, s.main, f), st)
  {
    SwitchSplits(r, g, s, alts, now);
    EarlySwitchAt(r, g, s, f, alts, st, now);
  }

  lemma {:induction false} EarlySwitchAt(r: Rules, g: Record, s: State, f: nat, alts: seq<Node>, st: Step, now: nat)
    requires Lwma.Uses(r) && Inv(r, g, s, now) && IsBranch(r, g, s, alts) && f == alts[0].block.height
    requires f < |s.main| && f <= 145 && Lwma.BOOTSTRAP <= f + |alts|
    requires Joinable(r, g, s, f, alts, now) && BranchDefined(r, s, f, alts)
    requires st == SwitchAt(r, s, f, alts, now)
    ensures EarlyEnd(r, s, f, alts, TimelyAt(r, s.main, f), st)
  {
    AttemptArrives(r, g, s, f, alts, now);
    AcceptedConcludes(r, s, f, alts, now);
    EarlyConcludes(r, g, s, f, alts, Attempt(r, s, f, alts, now), now);
  }
}
