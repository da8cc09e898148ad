/**
 Reorganisation as a transaction. A switch goes through, with strictly more work on the main
 chain, or ends with exactly the old main chain; no transaction is lost either way.
 */
module Switching {
  import opened Ledger
  import opened Chain
  import opened Reorg
  import opened Transit
  import opened MainSteps
  import opened Branches

  /** No block is in two of main chain, alternatives and invalid blocks. */
  ghost predicate IdsApart(r: Rules, s: State) {
    && (forall h :: h in s.alt ==> !InMain(r, s.main, h) && h !in s.invalid)
    && (forall i :: 0 <= i < |s.main| ==> r.hash(s.main[i].node.block) !in s.invalid)
  }

  /** Chain and pool are consistent and every alternative carries the work of its history. */
  ghost predicate Sane(r: Rules, g: Record, s: State, now: nat) {
    && Lawful(r) && IsGenesis(g)
    && Healthy(r, g, s, now)
    && AltOk(r, g.node, s.alt)
  }

  /** The same, and no block is kept in two places. */
  ghost predicate Inv(r: Rules, g: Record, s: State, now: nat) {
    Sane(r, g, s, now) && IdsApart(r, s)
  }

  /** `alts` is a stored branch that leaves the main chain at the height of its first block. */
  ghost predicate IsBranch(r: Rules, g: Record, s: State, alts: seq<Node>) {
    && alts != [] && 1 <= alts[0].block.height <= |s.main|
    && alts[0].block.prev == r.hash(s.main[alts[0].block.height - 1].node.block)
    && Path(r, g.node, Nodes(s.main)[..alts[0].block.height] + alts)
    && AllStored(r, s.alt, alts)
  }

  // ---------- hashes on a path ----------

  lemma {:induction false} HeightAt(r: Rules, g: Node, c: seq<Node>, k: nat)
    requires Path(r, g, c) && g.block.height == 0 && k < |c|
    ensures c[k].block.height == k
  {
    PathPrefix(r, g, c, k + 1);
    PathHeight(r, g, c[..k + 1]);
  }

  lemma {:induction false} FindAt(r: Rules, g: Node, c: seq<Record>, k: nat)
    requires Lawful(r) && Path(r, g, Nodes(c)) && g.block.height == 0 && k < |c|
    ensures Find(r, c, r.hash(c[k].node.block)) == k
  {
    var j := Find(r, c, r.hash(c[k].node.block));
    assert SameHash(r, c[j].node.block, c[k].node.block);
    HeightAt(r, g, Nodes(c), j);
    HeightAt(r, g, Nodes(c), k);
  }

  lemma {:induction false} WorkGrows(r: Rules, g: Node, c: seq<Node>, i: nat, j: nat)
    requires Path(r, g, c) && i <= j < |c|
    ensures c[i].work + (j - i) <= c[j].work
    decreases j - i
  {
    if i < j {
      assert ExtendsAt(r, c, j);
      assert Last(c[..j]) == c[j - 1];
      WorkGrows(r, g, c, i, j - 1);
    }
  }

  // ---------- the attempt ----------

  /** The switch pops down to the height of the first block of the branch. */
  lemma {:induction false} SwitchSplits(r: Rules, g: Record, s: State, alts: seq<Node>, now: nat)
    requires Sane(r, g, s, now) && IsBranch(r, g, s, alts)
    ensures Switch(r, s, alts, now) == SwitchAt(r, s, alts[0].block.height, alts, now)
  {
    ReplaysPath(r, g, s.main, now);
    FindAt(r, g.node, s.main, alts[0].block.height - 1);
    SplitIs(r, s, alts, alts[0].block.height);
    SwitchIs(r, s, alts, now);
  }

  lemma {:induction false} SplitIs(r: Rules, s: State, alts: seq<Node>, f: nat)
    requires alts != [] && 1 <= f <= |s.main| && Find(r, s.main, alts[0].block.prev) == f - 1
    ensures Joins(r, s, alts) && SplitOf(r, s, alts) == f
  {
  }

  lemma {:induction false} AttemptKeeps(r: Rules, g: Record, s: State, f: nat, alts: seq<Node>, now: nat)
    requires Healthy(r, g, s, now) && 1 <= f <= |s.main|
    ensures var c := Attempt(r, s, f, alts, now);
            && Healthy(r, g, c.state, now) && NothingLost(s, c.state)
            && s.main[..f] <= c.state.main
  {
    var t := PopTo(r, s, f, now);
    PopToKeeps(r, g, s, f, now);
    ConnectKeeps(r, g, t, Blocks(alts), now);
    ConnectGrows(r, t, Blocks(alts), now);
    NothingLostTrans(s, t, Attempt(r, s, f, alts, now).state);
  }

  lemma {:induction false} AttemptFacts(r: Rules, g: Record, s: State, f: nat, alts: seq<Node>, now: nat)
    requires Healthy(r, g, s, now) && 1 <= f <= |s.main| && Path(r, g.node, Nodes(s.main)[..f] + alts)
    ensures var c := Attempt(r, s, f, alts, now);
            && Connected(r, PopTo(r, s, f, now), alts, c)
            && Healthy(r, g, c.state, now) && NothingLost(s, c.state)
  {
    AttemptKeeps(r, g, s, f, alts, now);
    NodesPrefix(s.main, f);
    ConnectShape(r, PopTo(r, s, f, now), alts, now);
  }

  // ---------- which branches go on ----------

  /** The chain that has the branch on top of the first `f` blocks. */
  ghost function BranchChain(s: State, f: nat, alts: seq<Node>): seq<Node>
    requires f <= |s.main|
  {
    Nodes(s.main)[..f] + alts
  }

  /** The difficulty after the branch is defined. */
  ghost predicate BranchDefined(r: Rules, s: State, f: nat, alts: seq<Node>)
    requires f <= |s.main|
  {
    r.ahead(BranchChain(s, f, alts), f + |alts|).Some?
  }

  /** `rs` are the records the branch would have: each block acceptable, its transactions in the popped pool. */
  ghost predicate JoinsAs(r: Rules, g: Record, s: State, f: nat, alts: seq<Node>, rs: seq<Record>, now: nat)
    requires 1 <= f <= |s.main|
  {
    && Nodes(rs) == alts
    && Replays(r, g, s.main[..f] + rs, now)
    && AllIn(PopTo(r, s, f, now).pool, rs)
  }

  /** Every block of the branch is acceptable in its turn. */
  ghost predicate Joinable(r: Rules, g: Record, s: State, f: nat, alts: seq<Node>, now: nat)
    requires 1 <= f <= |s.main|
  {
    exists rs :: JoinsAs(r, g, s, f, alts, rs, now)
  }

  lemma {:induction false} AttemptJoins(r: Rules, g: Record, s: State, f: nat, alts: seq<Node>, rs: seq<Record>, now: nat)
    requires Healthy(r, g, s, now) && 1 <= f <= |s.main| && JoinsAs(r, g, s, f, alts, rs, now)
    ensures Attempt(r, s, f, alts, now).verdict != Rejected
  {
    PopToKeeps(r, g, s, f, now);
    forall i | 0 <= i < |alts| ensures Blocks(alts)[i] == rs[i].node.block { assert Nodes(rs)[i] == alts[i]; }
    assert |Nodes(rs)| == |rs|;
    ConnectReplays(r, g, PopTo(r, s, f, now), rs, Blocks(alts), now);
  }

  lemma {:induction false} AttemptJoined(r: Rules, g: Record, s: State, f: nat, alts: seq<Node>, now: nat)
    requires Healthy(r, g, s, now) && 1 <= f <= |s.main| && Path(r, g.node, Nodes(s.main)[..f] + alts)
    requires Attempt(r, s, f, alts, now).verdict != Rejected
    ensures Joinable(r, g, s, f, alts, now)
  {
    var t, c := PopTo(r, s, f, now), Attempt(r, s, f, alts, now);
    AttemptFacts(r, g, s, f, alts, now);
    PopToKeeps(r, g, s, f, now);
    ConnectTook(r, g, t, Blocks(alts), now);
    var rs := c.state.main[f..];
    assert t.main + rs == c.state.main;
    assert alts[..|alts|] == alts;
    NodesPrefix(c.state.main, f);
    NodesPrefix(s.main, f);
    assert JoinsAs(r, g, s, f, alts, rs, now);
  }

  /**
   How an attempt ends, told beforehand: it is refused exactly when some block of the branch is not
   acceptable in its turn; otherwise it throws exactly when the difficulty after the branch is not
   defined.
   */
  lemma {:induction false} AttemptExact(r: Rules, g: Record, s: State, f: nat, alts: seq<Node>, now: nat)
    requires Healthy(r, g, s, now) && 1 <= f <= |s.main| && Path(r, g.node, Nodes(s.main)[..f] + alts) && alts != []
    ensures var v := Attempt(r, s, f, alts, now).verdict;
            v == if !Joinable(r, g, s, f, alts, now) then Rejected
                 else if BranchDefined(r, s, f, alts) then Added else Threw
  {
    AttemptFacts(r, g, s, f, alts, now);
    JoinableIff(r, g, s, f, alts, now);
    if Joinable(r, g, s, f, alts, now) { ConnectedDefined(r, s, f, alts, Attempt(r, s, f, alts, now), now); }
  }

  lemma {:induction false} JoinableIff(r: Rules, g: Record, s: State, f: nat, alts: seq<Node>, now: nat)
    requires Healthy(r, g, s, now) && 1 <= f <= |s.main| && Path(r, g.node, Nodes(s.main)[..f] + alts)
    ensures Joinable(r, g, s, f, alts, now) <==> Attempt(r, s, f, alts, now).verdict != Rejected
  {
    if Joinable(r, g, s, f, alts, now) {
      var rs :| JoinsAs(r, g, s, f, alts, rs, now);
      AttemptJoins(r, g, s, f, alts, rs, now);
    }
    if Attempt(r, s, f, alts, now).verdict != Rejected {
      AttemptJoined(r, g, s, f, alts, now);
    }
  }

  lemma {:induction false} ConnectedDefined(r: Rules, s: State, f: nat, alts: seq<Node>, c: Connection, now: nat)
    requires 1 <= f <= |s.main| && c.count <= |alts| && (c.verdict == Added <==> c.count == |alts|)
    requires Connected(r, PopTo(r, s, f, now), alts, c) && c.verdict != Rejected && alts != []
    ensures c.verdict == if BranchDefined(r, s, f, alts) then Added else Threw
  {
    AttemptOnBranch(r, s, f, alts, c, now);
    assert |Nodes(c.state.main)| == f + |alts|;
  }

  // ---------- undo ----------

  lemma {:induction false} OldStaysSafe(s: State, t: State, f: nat)
    requires f <= |s.main| && NothingLost(s, t)
    ensures AllSafe(t, s.main[f..])
  {
    var rest := s.main[f..];
    forall i, j | 0 <= i < |rest| && 0 <= j < |rest[i].txs| ensures Safe(t, rest[i].txs[j]) {
      TxSetHas(s.main, f + i, j);
      assert Safe(s, rest[i].txs[j]);
    }
  }

  /** Rolling back restores the old main chain, record for record, even where it ends in a throw. */
  lemma {:induction false} RollbackRestores(r: Rules, g: Record, s: State, u: State, f: nat, now: nat)
    requires Healthy(r, g, s, now)
    requires Healthy(r, g, u, now) && NothingLost(s, u)
    requires 1 <= f <= |s.main| && s.main[..f] <= u.main
    ensures var c := Rollback(r, u, Blocks(Nodes(s.main[f..])), f, now);
            && c.state.main == s.main && c.state.alt == u.alt && c.state.invalid == u.invalid
            && c.verdict == (if f == |s.main| || NextDefined(r, s.main) then Added else Threw)
            && Healthy(r, g, c.state, now) && NothingLost(s, c.state)
  {
    var t, rest := PopTo(r, u, f, now), s.main[f..];
    assert t.main == s.main[..f] && t.main + rest == s.main;
    PopToKeeps(r, g, u, f, now);
    NothingLostTrans(s, u, t);
    OldStaysSafe(s, t, f);
    RestoresOnTop(r, g, s, t, rest, now);
  }

  lemma {:induction false} RestoresOnTop(r: Rules, g: Record, s: State, t: State, rest: seq<Record>, now: nat)
    requires Healthy(r, g, s, now) && Healthy(r, g, t, now) && NothingLost(s, t)
    requires t.main + rest == s.main && AllSafe(t, rest)
    ensures var c := Connect(r, t, Blocks(Nodes(rest)), now);
            && c.state.main == s.main && c.state.alt == t.alt && c.state.invalid == t.invalid
            && c.verdict == (if rest == [] || NextDefined(r, s.main) then Added else Threw)
            && Healthy(r, g, c.state, now) && NothingLost(s, c.state)
  {
    ReconnectRestores(r, g, t, rest, now);
    ConnectKeeps(r, g, t, Blocks(Nodes(rest)), now);
    NothingLostTrans(s, t, Connect(r, t, Blocks(Nodes(rest)), now).state);
  }

  /** The state a failed switch ends in: the branch is invalid from its `k`-th block on. */
  ghost predicate Undone(r: Rules, s: State, t: State, alts: seq<Node>, k: nat) {
    && k < |alts|
    && t.main == s.main
    && t.alt == s.alt - Hashes(r, Blocks(alts[k..]))
    && t.invalid == s.invalid + Hashes(r, Blocks(alts[k..]))
  }

  lemma {:induction false} UndoneInv(r: Rules, g: Record, s: State, t: State, alts: seq<Node>, k: nat, now: nat)
    requires Sane(r, g, s, now) && AllStored(r, s.alt, alts) && Undone(r, s, t, alts, k) && Healthy(r, g, t, now)
    ensures Sane(r, g, t, now) && (IdsApart(r, s) ==> IdsApart(r, t))
  {
    if IdsApart(r, s) { UndoneApart(r, s, t, alts, k); }
  }

  lemma {:induction false} UndoneApart(r: Rules, s: State, t: State, alts: seq<Node>, k: nat)
    requires IdsApart(r, s) && AllStored(r, s.alt, alts) && Undone(r, s, t, alts, k)
    ensures IdsApart(r, t)
  {
    forall h | h in Hashes(r, Blocks(alts[k..])) ensures h in s.alt {
      var i :| 0 <= i < |alts[k..]| && h == r.hash(Blocks(alts[k..])[i]);
      assert Blocks(alts[k..])[i] == alts[k + i].block;
    }
    forall i | 0 <= i < |t.main| ensures r.hash(t.main[i].node.block) !in t.invalid {
      assert InMain(r, s.main, r.hash(s.main[i].node.block));
    }
  }

  lemma {:induction false} BadSet(r: Rules, alts: seq<Node>, k: nat)
    requires k < |alts|
    ensures Blocks(alts)[k..] == Blocks(alts[k..])
    ensures r.hash(alts[k].block) in Hashes(r, Blocks(alts[k..]))
  {
    assert Blocks(alts[k..])[0] == alts[k].block;
  }

  lemma {:induction false} AbandonKeeps(r: Rules, g: Record, s: State, u: State, bad: seq<Block>, now: nat)
    requires Healthy(r, g, u, now) && NothingLost(s, u)
    ensures Healthy(r, g, Abandon(r, u, bad).state, now) && NothingLost(s, Abandon(r, u, bad).state)
  {
    var t := Abandon(r, u, bad).state;
    forall tx | Safe(s, tx) ensures Safe(t, tx) { assert Safe(u, tx); }
  }

  /** Giving up ends with exactly the old main chain, for any branch whatever. */
  lemma {:induction false} GiveUpRestores(r: Rules, g: Record, s: State, f: nat, alts: seq<Node>, c: Connection, now: nat)
    requires Healthy(r, g, s, now)
    requires 1 <= f <= |s.main| && c.count <= |alts|
    requires Healthy(r, g, c.state, now) && NothingLost(s, c.state) && s.main[..f] <= c.state.main
    ensures var st := GiveUp(r, s, f, alts, c, now);
            && st.state.main == s.main && Healthy(r, g, st.state, now) && NothingLost(s, st.state)
            && (st.verdict == RolledBack || st.verdict == Threw)
  {
    RollbackRestores(r, g, s, c.state, f, now);
    var u := Rollback(r, c.state, Blocks(Nodes(s.main[f..])), f, now);
    AbandonKeeps(r, g, s, u.state, Blocks(alts)[c.count..], now);
  }

  /** What is marked and dropped, for a branch that is stored. */
  lemma {:induction false} GiveUpMarks(r: Rules, g: Record, s: State, f: nat, alts: seq<Node>, c: Connection, now: nat)
    requires Healthy(r, g, s, now)
    requires 1 <= f <= |s.main| && c.count <= |alts| && Droppable(r, c.state.alt, Blocks(alts)[c.count..])
    requires Healthy(r, g, c.state, now) && NothingLost(s, c.state) && s.main[..f] <= c.state.main
    ensures var st := GiveUp(r, s, f, alts, c, now);
            if f == |s.main| || NextDefined(r, s.main)
            then && st.verdict == RolledBack && st.state.alt == c.state.alt - Hashes(r, Blocks(alts)[c.count..])
                 && st.state.invalid == c.state.invalid + Hashes(r, Blocks(alts)[c.count..])
            else st.verdict == Threw && st.state.alt == c.state.alt && st.state.invalid == c.state.invalid
  {
    RollbackRestores(r, g, s, c.state, f, now);
    AbandonDrops(r, Rollback(r, c.state, Blocks(Nodes(s.main[f..])), f, now).state, Blocks(alts)[c.count..]);
  }

  /** The blocks of a stored branch can be dropped. */
  lemma {:induction false} BranchDroppable(r: Rules, g: Record, s: State, f: nat, alts: seq<Node>, alt: map<Hash, Node>, k: nat)
    requires Lawful(r) && IsGenesis(g) && f <= |s.main| && Path(r, g.node, Nodes(s.main)[..f] + alts)
    requires AllStored(r, s.alt, alts) && s.alt.Keys <= alt.Keys && k <= |alts|
    ensures Droppable(r, alt, Blocks(alts)[k..])
  {
    var c, bs := Nodes(s.main)[..f] + alts, Blocks(alts)[k..];
    forall i | 0 <= i < |bs| ensures r.hash(bs[i]) in alt {
      assert bs[i] == alts[k + i].block;
    }
    forall i, j | 0 <= i < j < |bs| ensures r.hash(bs[i]) != r.hash(bs[j]) {
      HeightAt(r, g.node, c, f + k + i);
      HeightAt(r, g.node, c, f + k + j);
      assert !SameHash(r, bs[i], bs[j]);
    }
  }

  /** The state a failed switch ends in when the old chain cannot be followed either: nothing is cleaned up. */
  ghost predicate Stranded(r: Rules, s: State, t: State, alts: seq<Node>) {
    && t.main == s.main && t.alt == s.alt
    && (t.invalid == s.invalid || exists i :: 0 <= i < |alts| && t.invalid == s.invalid + {r.hash(alts[i].block)})
  }

  lemma {:induction false} RefusedGivesUp(r: Rules, s: State, f: nat, alts: seq<Node>, now: nat)
    requires 1 <= f <= |s.main| && Attempt(r, s, f, alts, now).verdict == Rejected
    ensures SwitchAt(r, s, f, alts, now) == GiveUp(r, s, f, alts, Attempt(r, s, f, alts, now), now)
  {
  }

  lemma {:induction false} RefusedRestores(r: Rules, g: Record, s: State, f: nat, alts: seq<Node>, now: nat)
    requires Lawful(r) && IsGenesis(g) && Healthy(r, g, s, now) && 1 <= f < |s.main|
    requires Path(r, g.node, Nodes(s.main)[..f] + alts) && AllStored(r, s.alt, alts)
    requires Attempt(r, s, f, alts, now).verdict == Rejected
    ensures var c := Attempt(r, s, f, alts, now);
            var st := SwitchAt(r, s, f, alts, now);
            && NothingLost(s, st.state) && Healthy(r, g, st.state, now) && c.count < |alts|
            && (if NextDefined(r, s.main) then st.verdict == RolledBack && Undone(r, s, st.state, alts, c.count)
                else st.verdict == Threw && Stranded(r, s, st.state, alts) && st.state.invalid == c.state.invalid)
  {
    var c := Attempt(r, s, f, alts, now);
    AttemptKeeps(r, g, s, f, alts, now);
    AttemptFacts(r, g, s, f, alts, now);
    RefusedGivesUp(r, s, f, alts, now);
    GiveUpRestores(r, g, s, f, alts, c, now);
    BranchDroppable(r, g, s, f, alts, c.state.alt, c.count);
    GiveUpMarks(r, g, s, f, alts, c, now);
    RefusedShape(r, s, alts, c, GiveUp(r, s, f, alts, c, now).state);
  }

  lemma {:induction false} RefusedShape(r: Rules, s: State, alts: seq<Node>, c: Connection, t: State)
    requires c.count < |alts| && c.state.alt == s.alt && t.main == s.main
    requires s.invalid <= c.state.invalid <= s.invalid + {r.hash(alts[c.count].block)}
    ensures (&& t.alt == c.state.alt - Hashes(r, Blocks(alts)[c.count..])
             && t.invalid == c.state.invalid + Hashes(r, Blocks(alts)[c.count..])) ==> Undone(r, s, t, alts, c.count)
    ensures t.alt == c.state.alt && t.invalid == c.state.invalid ==> Stranded(r, s, t, alts)
  {
    BadSet(r, alts, c.count);
    MarkedOne(s.invalid, c.state.invalid, r.hash(alts[c.count].block));
  }

  lemma {:induction false} MarkedOne(a: set<Hash>, b: set<Hash>, h: Hash)
    requires a <= b <= a + {h}
    ensures b == a || b == a + {h}
  {
    if h in b { assert b == a + {h}; } else { assert b == a; }
  }

  /**
   A switch to a branch that is not acceptable ends with exactly the old main chain: the first
   block that is refused and all later ones are invalid and no alternatives any more, the earlier
   ones stay.
   */
  lemma {:induction false} SwitchUndone(r: Rules, g: Record, s: State, f: nat, alts: seq<Node>, st: Step, now: nat)
    requires Sane(r, g, s, now) && IsBranch(r, g, s, alts) && f == alts[0].block.height < |s.main| && NextDefined(r, s.main)
    requires !Joinable(r, g, s, f, alts, now) && st == Switch(r, s, alts, now)
    ensures st.verdict == RolledBack && NothingLost(s, st.state)
    ensures Undone(r, s, st.state, alts, Attempt(r, s, f, alts, now).count)
    ensures Sane(r, g, st.state, now) && (IdsApart(r, s) ==> IdsApart(r, st.state))
  {
    SwitchSplits(r, g, s, alts, now);
    AttemptExact(r, g, s, f, alts, now);
    RefusedRestores(r, g, s, f, alts, now);
    UndoneInv(r, g, s, st.state, alts, Attempt(r, s, f, alts, now).count, now);
  }

  lemma {:induction false} StrandedInv(r: Rules, g: Record, s: State, t: State, alts: seq<Node>, now: nat)
    requires Sane(r, g, s, now) && AllStored(r, s.alt, alts) && Stranded(r, s, t, alts) && Healthy(r, g, t, now)
    ensures Sane(r, g, t, now)
    ensures IdsApart(r, s) ==> (IdsApart(r, t) <==> t.invalid == s.invalid)
  {
    if IdsApart(r, s) { StrandedApart(r, s, t, alts); }
  }

  lemma {:induction false} StrandedApart(r: Rules, s: State, t: State, alts: seq<Node>)
    requires IdsApart(r, s) && AllStored(r, s.alt, alts) && Stranded(r, s, t, alts)
    ensures IdsApart(r, t) <==> t.invalid == s.invalid
  {
    if t.invalid != s.invalid {
      var i :| 0 <= i < |alts| && t.invalid == s.invalid + {r.hash(alts[i].block)};
      assert r.hash(alts[i].block) in t.alt;
    }
  }

  /**
   The same where the difficulty after the old chain is not defined: the old chain comes back, but
   the call throws before anything is cleaned up.
   */
  lemma {:induction false} SwitchStranded(r: Rules, g: Record, s: State, f: nat, alts: seq<Node>, st: Step, now: nat)
    requires Sane(r, g, s, now) && IsBranch(r, g, s, alts) && f == alts[0].block.height < |s.main| && !NextDefined(r, s.main)
    requires !Joinable(r, g, s, f, alts, now) && st == Switch(r, s, alts, now)
    ensures st.verdict == Threw && NothingLost(s, st.state) && Stranded(r, s, st.state, alts)
    ensures Sane(r, g, st.state, now) && st.state.invalid == Attempt(r, s, f, alts, now).state.invalid
    ensures IdsApart(r, s) ==> (IdsApart(r, st.state) <==> st.state.invalid == s.invalid)
  {
    SwitchSplits(r, g, s, alts, now);
    AttemptExact(r, g, s, f, alts, now);
    RefusedRestores(r, g, s, f, alts, now);
    StrandedInv(r, g, s, st.state, alts, now);
  }

  // ---------- success ----------

  /** The new main chain is the branch on top of what it shares with the old one. */
  ghost predicate OnBranch(s: State, t: State, alts: seq<Node>, f: nat) {
    f <= |s.main| && Nodes(t.main) == Nodes(s.main)[..f] + alts
  }

  /** Asked with `length`, the rule gives every block from height `f` on the difficulty it has. */
  ghost predicate OldSteady(r: Rules, s: State, f: nat, length: nat) {
    forall h {:trigger SteadyAt(r, s, h, length)} :: f <= h < |s.main| ==> SteadyAt(r, s, h, length)
  }

  ghost predicate SteadyAt(r: Rules, s: State, h: nat, length: nat) {
    h < |s.main| && SameAhead(r, Nodes(s.main)[..h], length, h)
  }

  lemma {:induction false} OldNodeSteady(r: Rules, g: Record, s: State, h: nat, length: nat, now: nat)
    requires Healthy(r, g, s, now) && 1 <= h < |s.main| && SteadyAt(r, s, h, length)
    ensures Steady(r, g.node, Nodes(s.main)[h], length)
  {
    ReplaysPath(r, g, s.main, now);
    var p := Nodes(s.main);
    PathPrefix(r, g.node, p, h + 1);
    assert p[..h + 1] == p[..h] + [p[h]];
    assert SteadyOn(r, g.node, p[..h], p[h], length);
  }

  lemma {:induction false} OldNodesLighter(r: Rules, g: Record, s: State, t: State, f: nat, now: nat)
    requires Healthy(r, g, s, now) && 1 <= f <= |s.main|
    requires t.main != [] && Last(s.main).node.work <= Last(t.main).node.work && OldSteady(r, s, f, |t.main|)
    ensures forall i :: 0 <= i < |s.main| - f ==> Disconnected(r, g.node, t, Nodes(s.main[f..])[i])
  {
    ReplaysPath(r, g, s.main, now);
    var p := Nodes(s.main);
    forall i | 0 <= i < |s.main| - f ensures Disconnected(r, g.node, t, Nodes(s.main[f..])[i]) {
      assert Nodes(s.main[f..])[i] == p[f + i];
      assert SteadyAt(r, s, f + i, |t.main|);
      OldNodeSteady(r, g, s, f + i, |t.main|, now);
      WorkGrows(r, g.node, p, f + i, |p| - 1);
    }
  }

  /** What a switch to an acceptable branch ends in. */
  ghost predicate Concluded(r: Rules, g: Record, s: State, f: nat, alts: seq<Node>, c: Connection, e: Step)
    requires f <= |s.main|
  {
    && e.verdict == Switched
    && e.state.main == c.state.main && e.state.pool == c.state.pool && e.state.invalid == c.state.invalid
    && AltOk(r, g.node, e.state.alt)
    && (forall h :: h in e.state.alt ==> h !in Hashes(r, Blocks(alts)))
    && (forall h :: h in s.alt && h !in Hashes(r, Blocks(alts)) ==> h in e.state.alt)
    && (forall h :: h in e.state.alt ==> h in s.alt || h in Hashes(r, Blocks(Nodes(s.main[f..]))))
  }

  lemma {:induction false} ConcludeFacts(r: Rules, g: Record, s: State, f: nat, alts: seq<Node>, c: Connection, now: nat)
    requires Sane(r, g, s, now) && 1 <= f <= |s.main| && alts != []
    requires Healthy(r, g, c.state, now) && c.state.alt == s.alt
    requires OnBranch(s, c.state, alts, f) && Last(s.main).node.work <= Last(alts).work && AllStored(r, s.alt, alts)
    requires OldSteady(r, s, f, f + |alts|)
    ensures Concluded(r, g, s, f, alts, c, Conclude(r, s, f, alts, c))
  {
    ReplaysPath(r, g, c.state.main, now);
    assert Last(Nodes(c.state.main)) == Last(alts);
    assert |Nodes(c.state.main)| == f + |alts|;
    OldNodesLighter(r, g, s, c.state, f, now);
    ReaddFinishes(r, g.node, c.state, Nodes(s.main[f..]));
    ReaddConcludes(r, g, s, f, alts, c, Readd(r, c.state, Blocks(Nodes(s.main[f..]))));
  }

  lemma {:induction false} ReaddConcludes(r: Rules, g: Record, s: State, f: nat, alts: seq<Node>, c: Connection, e: Step)
    requires Lawful(r) && IsGenesis(g) && f <= |s.main| && Path(r, g.node, Nodes(s.main)[..f] + alts) && AllStored(r, s.alt, alts)
    requires e.verdict == Switched && c.state.alt == s.alt && AltOk(r, g.node, e.state.alt)
    requires e.state.main == c.state.main && e.state.pool == c.state.pool && e.state.invalid == c.state.invalid
    requires OnlyMore(r, s.alt, e.state.alt, Nodes(s.main[f..]))
    ensures Concluded(r, g, s, f, alts, c, Forget(r, e.state, Blocks(alts)))
  {
    BranchDroppable(r, g, s, f, alts, e.state.alt, 0);
    assert Blocks(alts)[0..] == Blocks(alts);
    ForgetDrops(r, e.state, Blocks(alts));
  }

  lemma {:induction false} OldBlockAt(r: Rules, s: State, f: nat, h: Hash) returns (k: nat)
    requires f <= |s.main| && h in Hashes(r, Blocks(Nodes(s.main[f..])))
    ensures f <= k < |s.main| && r.hash(s.main[k].node.block) == h
  {
    var bs := Blocks(Nodes(s.main[f..]));
    var i :| 0 <= i < |bs| && h == r.hash(bs[i]);
    k := f + i;
    assert bs[i] == s.main[k].node.block;
  }

  /** A block of the new main chain is an old one below the fork, or one of the branch. */
  lemma {:induction false} NewBlockAt(r: Rules, s: State, t: State, f: nat, alts: seq<Node>, k: nat)
    requires OnBranch(s, t, alts, f) && k < |t.main|
    ensures k < f ==> t.main[k].node == s.main[k].node
    ensures f <= k ==> t.main[k].node == alts[k - f] && r.hash(t.main[k].node.block) in Hashes(r, Blocks(alts))
  {
    assert t.main[k].node == Nodes(t.main)[k];
    if f <= k { assert Blocks(alts)[k - f] == alts[k - f].block; }
  }

  lemma {:induction false} NewFind(r: Rules, s: State, t: State, f: nat, alts: seq<Node>, h: Hash)
    requires OnBranch(s, t, alts, f)
    ensures InMain(r, t.main, h) ==> h in Hashes(r, Blocks(alts)) || Find(r, s.main, h) < f
  {
    var k := Find(r, t.main, h);
    if k < |t.main| { NewBlockAt(r, s, t, f, alts, k); }
  }

  lemma {:induction false} SwitchedApart(r: Rules, g: Record, s: State, t: State, f: nat, alts: seq<Node>, now: nat)
    requires Inv(r, g, s, now) && 1 <= f <= |s.main| && OnBranch(s, t, alts, f) && AllStored(r, s.alt, alts)
    requires t.invalid == s.invalid
    requires forall h :: h in t.alt ==> h !in Hashes(r, Blocks(alts))
    requires forall h :: h in t.alt ==> h in s.alt || h in Hashes(r, Blocks(Nodes(s.main[f..])))
    ensures IdsApart(r, t)
  {
    ReplaysPath(r, g, s.main, now);
    forall h | h in t.alt ensures !InMain(r, t.main, h) && h !in t.invalid {
      NewFind(r, s, t, f, alts, h);
      if h !in s.alt {
        var j := OldBlockAt(r, s, f, h);
        FindAt(r, g.node, s.main, j);
      }
    }
    forall i | 0 <= i < |t.main| ensures r.hash(t.main[i].node.block) !in t.invalid {
      NewBlockAt(r, s, t, f, alts, i);
      if f <= i { assert r.hash(alts[i - f].block) in s.alt; }
    }
  }

  lemma {:induction false} AttemptOnBranch(r: Rules, s: State, f: nat, alts: seq<Node>, c: Connection, now: nat)
    requires 1 <= f <= |s.main| && c.count <= |alts| && (c.verdict == Added <==> c.count == |alts|)
    requires Connected(r, PopTo(r, s, f, now), alts, c) && c.verdict != Rejected && alts != []
    ensures OnBranch(s, c.state, alts, f) && c.state.alt == s.alt && c.state.invalid == s.invalid
    ensures c.state.main != [] && Last(c.state.main).node == Last(alts)
    ensures c.verdict == Added <==> NextDefined(r, c.state.main)
  {
    NodesPrefix(s.main, f);
    assert alts[..|alts|] == alts;
    assert Last(Nodes(c.state.main)) == Last(alts);
  }

  /** The branch is on the main chain: what the attempt leaves behind it. */
  ghost predicate Arrived(r: Rules, g: Record, s: State, f: nat, alts: seq<Node>, c: Connection, now: nat) {
    && OnBranch(s, c.state, alts, f) && c.state.alt == s.alt && c.state.invalid == s.invalid
    && c.state.main != [] && alts != [] && Last(c.state.main).node == Last(alts)
    && Healthy(r, g, c.state, now) && NothingLost(s, c.state)
    && (NextDefined(r, c.state.main) <==> c.verdict == Added)
  }

  lemma {:induction false} AttemptArrives(r: Rules, g: Record, s: State, f: nat, alts: seq<Node>, now: nat)
    requires Healthy(r, g, s, now) && 1 <= f <= |s.main| && Path(r, g.node, Nodes(s.main)[..f] + alts) && alts != []
    requires Joinable(r, g, s, f, alts, now)
    ensures Arrived(r, g, s, f, alts, Attempt(r, s, f, alts, now), now)
    ensures Attempt(r, s, f, alts, now).verdict == if BranchDefined(r, s, f, alts) then Added else Threw
  {
    AttemptExact(r, g, s, f, alts, now);
    AttemptFacts(r, g, s, f, alts, now);
    AttemptOnBranch(r, s, f, alts, Attempt(r, s, f, alts, now), now);
  }

  lemma {:induction false} SamePoolSafe(s: State, u: State, t: State)
    requires NothingLost(s, u) && t.main == u.main && t.pool == u.pool
    ensures NothingLost(s, t)
  {
    forall tx | Safe(s, tx) ensures Safe(t, tx) { assert Safe(u, tx); }
  }

  /** A switch that went through. */
  ghost predicate Done(r: Rules, g: Record, s: State, f: nat, alts: seq<Node>, st: Step, now: nat) {
    && st.verdict == Switched && OnBranch(s, st.state, alts, f)
    && s.main != [] && st.state.main != [] && Last(s.main).node.work < Last(st.state.main).node.work
    && NextDefined(r, st.state.main) && NothingLost(s, st.state) && st.state.invalid == s.invalid
    && Sane(r, g, st.state, now) && (IdsApart(r, s) ==> IdsApart(r, st.state))
    && (forall h :: h in st.state.alt ==> h in s.alt || InMain(r, s.main, h))
    && (forall h :: h in s.alt && h !in Hashes(r, Blocks(alts)) ==> h in st.state.alt)
  }

  lemma {:induction false} ConcludedDone(r: Rules, g: Record, s: State, f: nat, alts: seq<Node>, c: Connection, e: Step, now: nat)
    requires Sane(r, g, s, now) && 1 <= f <= |s.main| && AllStored(r, s.alt, alts)
    requires Arrived(r, g, s, f, alts, c, now) && Concluded(r, g, s, f, alts, c, e) && c.verdict == Added
    requires Last(s.main).node.work < Last(alts).work
    ensures Done(r, g, s, f, alts, e, now)
  {
    SamePoolSafe(s, c.state, e.state);
    if IdsApart(r, s) { SwitchedApart(r, g, s, e.state, f, alts, now); }
    forall h | h in e.state.alt && h !in s.alt ensures InMain(r, s.main, h) {
      var k := OldBlockAt(r, s, f, h);
      assert Find(r, s.main, h) <= k;
    }
  }

  lemma {:induction false} DoneAt(r: Rules, g: Record, s: State, f: nat, alts: seq<Node>, st: Step, now: nat)
    requires 1 <= f <= |s.main| && st == SwitchAt(r, s, f, alts, now)
    requires Sane(r, g, s, now) && IsBranch(r, g, s, alts) && f == alts[0].block.height
    requires Last(s.main).node.work < Last(alts).work && OldSteady(r, s, f, f + |alts|)
    requires Joinable(r, g, s, f, alts, now) && BranchDefined(r, s, f, alts)
    ensures Done(r, g, s, f, alts, st, now)
  {
    var c := Attempt(r, s, f, alts, now);
    AttemptArrives(r, g, s, f, alts, now);
    AcceptedConcludes(r, s, f, alts, now);
    ConcludeFacts(r, g, s, f, alts, c, now);
    ConcludedDone(r, g, s, f, alts, c, Conclude(r, s, f, alts, c), now);
  }

  /**
   A switch to an acceptable, heavier branch with a defined difficulty behind it makes it the main
   chain and keeps everything in order, if the rule agrees for the blocks it disconnects.
   */
  lemma {:induction false} SwitchDone(r: Rules, g: Record, s: State, f: nat, alts: seq<Node>, st: Step, now: nat)
    requires Sane(r, g, s, now) && IsBranch(r, g, s, alts) && f == alts[0].block.height
    requires Last(s.main).node.work < Last(alts).work && OldSteady(r, s, f, f + |alts|)
    requires Joinable(r, g, s, f, alts, now) && BranchDefined(r, s, f, alts)
    requires st == Switch(r, s, alts, now)
    ensures Done(r, g, s, f, alts, st, now)
  {
    SwitchSplits(r, g, s, alts, now);
    DoneAt(r, g, s, f, alts, st, now);
  }

  lemma {:induction false} AcceptedConcludes(r: Rules, s: State, f: nat, alts: seq<Node>, now: nat)
    requires 1 <= f <= |s.main| && Attempt(r, s, f, alts, now).verdict == Added
    ensures SwitchAt(r, s, f, alts, now) == Conclude(r, s, f, alts, Attempt(r, s, f, alts, now))
  {
  }

  /**
   A switch to an acceptable branch with no defined difficulty behind it throws there. The heavier
   chain is then in place and no transaction is lost, but the branch is still stored as an
   alternative.
   */
  lemma {:induction false} SwitchThrown(r: Rules, g: Record, s: State, f: nat, alts: seq<Node>, st: Step, now: nat)
    requires Sane(r, g, s, now) && IsBranch(r, g, s, alts) && f == alts[0].block.height
    requires Joinable(r, g, s, f, alts, now) && !BranchDefined(r, s, f, alts) && st == Switch(r, s, alts, now)
    ensures st.verdict == Threw && OnBranch(s, st.state, alts, f)
    ensures st.state.main != [] && Last(st.state.main).node == Last(alts) && st.state.alt == s.alt
    ensures !NextDefined(r, st.state.main) && Sane(r, g, st.state, now) && NothingLost(s, st.state)
    ensures !IdsApart(r, st.state)
  {
    SwitchSplits(r, g, s, alts, now);
    AttemptArrives(r, g, s, f, alts, now);
    OverlapShows(r, s, st.state, f, alts);
  }

  lemma {:induction false} OverlapShows(r: Rules, s: State, t: State, f: nat, alts: seq<Node>)
    requires OnBranch(s, t, alts, f) && alts != [] && AllStored(r, t.alt, alts)
    ensures !IdsApart(r, t)
  {
    var h := r.hash(alts[0].block);
    assert |Nodes(t.main)| == f + |alts|;
    NewBlockAt(r, s, t, f, alts, f);
    assert Find(r, t.main, h) <= f;
    assert h in t.alt;
  }

  // ---------- any branch whatever ----------

  /** Chain and pool are consistent, nothing is lost, and a rollback changes no block. */
  ghost predicate Mild(r: Rules, g: Record, s: State, st: Step, now: nat) {
    && Healthy(r, g, st.state, now) && NothingLost(s, st.state)
    && (st.verdict == RolledBack ==> st.state.main == s.main)
  }

  lemma {:induction false} MildSame(r: Rules, g: Record, s: State, t: State, v: Verdict, now: nat)
    requires Healthy(r, g, s, now) && t.main == s.main && t.pool == s.pool
    ensures Mild(r, g, s, Step(t, v), now)
  {
    SamePoolSafe(s, s, t);
  }

  lemma {:induction false} SwitchIs(r: Rules, s: State, alts: seq<Node>, now: nat)
    requires s.main != []
    ensures if alts == [] || !Joins(r, s, alts) then Switch(r, s, alts, now) == Step(s, Rejected)
            else Switch(r, s, alts, now) == SwitchAt(r, s, SplitOf(r, s, alts), alts, now)
  {
  }
}
