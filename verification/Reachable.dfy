/** Every state a node reaches from its first block, with the difficulty rule of the node. */
module Reachable {
  import opened Ledger
  import opened Chain
  import opened MemPool
  import opened Reorg
  import opened Transit
  import opened MainSteps
  import opened Switching
  import opened Nesting
  import Bootstrap
  import Fates
  import Runs
  import Lwma
  import Audit
  import Once

  /** A store with nothing but the first block. */
  function Fresh(g: Record, limit: nat): State {
    State([g], map[], {}, Pool(map[], map[], [], 0, limit, {}))
  }

  lemma {:induction false} FreshHealthy(r: Rules, g: Record, limit: nat)
    ensures Healthy(r, g, Fresh(g, limit), 0)
  {
    assert WF(Fresh(g, limit).pool);
  }

  /** What holds of a reachable state, said without the invariant. */
  ghost predicate InOrder(r: Rules, s: State) {
    && s.main != [] && WF(s.pool) && Apart(s.main, s.pool)
    && (forall h :: 0 <= h < |s.main| ==> s.main[h].coins == Audit.Emission.CoinsAt(h))
    && (forall i, j {:trigger Sound(r, s.main, i, j)} :: 0 <= i < j < |s.main| ==> Sound(r, s.main, i, j))
  }

  /** The block at `j` is in its place, and shares nothing with the one at `i`. */
  ghost predicate Sound(r: Rules, c: seq<Record>, i: nat, j: nat)
    requires i < j < |c|
  {
    Audit.WellPlaced(r, c, j) && Audit.Unrelated(c, i, j)
  }

  lemma {:induction false} HealthyInOrder(r: Rules, g: Record, s: State, now: nat)
    requires Healthy(r, g, s, now) && IsGenesis(g)
    ensures InOrder(r, s)
  {
    forall h | 0 <= h < |s.main| ensures s.main[h].coins == Audit.Emission.CoinsAt(h) {
      Audit.CoinsByHeight(r, g, s.main, now, h);
    }
    forall i, j | 0 <= i < j < |s.main| ensures Sound(r, s.main, i, j) {
      Audit.ChainInOrder(r, g, s.main, now, i, j);
    }
  }

  /**
   From the first block on, every run of blocks, transactions, sweeps and pops, under any rules at
   all, ends in a state whose chain is linked, ordered, bounded and free of double spends, whose
   coins follow the curve, and whose pool is consistent and shares nothing with the chain.
   */
  lemma {:induction false} RunsInOrder(r: Rules, g: Record, limit: nat, es: seq<Runs.Event>)
    requires IsGenesis(g) && Runs.Orderly(r, Fresh(g, limit), es, 0, Runs.Plain)
    ensures InOrder(r, Runs.Run(r, Fresh(g, limit), es))
  {
    FreshHealthy(r, g, limit);
    Runs.RunHealthy(r, g, Fresh(g, limit), es, 0, Runs.Plain);
    HealthyInOrder(r, g, Runs.Run(r, Fresh(g, limit), es), Runs.ClockAfter(es, 0));
  }

  /** With the rule of the node, a branch within one band of heights is one for which the rule agrees. */
  lemma {:induction false} SameBandIsLevel(r: Rules, s: State, b: Block)
    requires Lwma.Uses(r) && s.main != []
    requires Lwma.Band(AltHeight(r, s.main, BuildAlt(s.alt, b.prev), b.prev)) == Lwma.Band(|s.main|)
    requires forall h :: Runs.ForkOf(PlaceAlt(r, s, b).branch) <= h < |s.main| ==> Lwma.Band(h) == Lwma.Band(b.height + 1)
    ensures Runs.Level(r, s, b)
  {
    Bootstrap.SameBandAgreesOn(r, s, b);
    Bootstrap.SameBandIsSteady(r, s, Runs.ForkOf(PlaceAlt(r, s, b).branch), b.height + 1);
  }

  /**
   With the rules of the node and from its first block on, every even run leaves each alternative
   with the work of its history and, if the operator pops nothing, a tip at least as heavy.
   */
  lemma {:induction false} NodeGainsWork(hash: Block -> Hash, pow: (Block, nat) -> bool, coinbase: Block -> bool,
                                         inputs: (seq<Record>, Tx) -> bool, sound: Tx -> bool, median: seq<nat> -> nat,
                                         g: Record, limit: nat, es: seq<Runs.Event>)
    requires Lwma.NoCollision(hash) && IsGenesis(g)
    requires Runs.Orderly(Lwma.NodeRules(hash, pow, coinbase, inputs, sound, median), Fresh(g, limit), es, 0, Runs.Even)
    ensures var r := Lwma.NodeRules(hash, pow, coinbase, inputs, sound, median);
            var t := Runs.Run(r, Fresh(g, limit), es);
            Sane(r, g, t, Runs.ClockAfter(es, 0)) && (Runs.NoPop(es) ==> g.node.work <= Runs.TipWork(t))
  {
    var r := Lwma.NodeRules(hash, pow, coinbase, inputs, sound, median);
    Lwma.NodeRulesLawful(hash, pow, coinbase, inputs, sound, median);
    FreshHealthy(r, g, limit);
    Runs.RunSane(r, g, Fresh(g, limit), es, 0, Runs.Even);
    if Runs.NoPop(es) { Runs.RunGainsWork(r, g, Fresh(g, limit), es, 0, Runs.Even); }
  }

  /**
   Under any lawful rules and from the first block on, over every run: no block is ever kept in two
   places exactly if no block comes with another than a neat fate. In such a run without pops the work
   of the tip never falls exactly if no block lets it, and the tip stays the heaviest block kept
   exactly if none takes the lead.
   */
  lemma {:induction false} NodeKeepsApart(r: Rules, g: Record, limit: nat, es: seq<Runs.Event>)
    requires Lawful(r) && IsGenesis(g) && Runs.Orderly(r, Fresh(g, limit), es, 0, Runs.Plain)
    ensures Fates.StaysApart(r, Fresh(g, limit), es) <==> Fates.Neatly(r, g, Fresh(g, limit), es)
    ensures Runs.NoPop(es) && Fates.Neatly(r, g, Fresh(g, limit), es) ==>
              && (Fates.NeverFalls(r, Fresh(g, limit), es) <==> Fates.Buoyant(r, g, Fresh(g, limit), es))
              && (Fates.StaysHeaviest(r, Fresh(g, limit), es) <==> Fates.Led(r, g, Fresh(g, limit), es))
  {
    var s := Fresh(g, limit);
    FreshHealthy(r, g, limit);
    Fates.RunApartIff(r, g, s, es, 0);
    if Runs.NoPop(es) && Fates.Neatly(r, g, s, es) {
      Fates.RunFallsIff(r, g, s, es, 0);
      Fates.RunHeaviestIff(r, g, s, es, 0);
    }
  }

  /** After every run from the first block on, under any lawful rules, a block offered next nests switches at most once. */
  lemma {:induction false} NodeNestsOnce(r: Rules, g: Record, limit: nat, es: seq<Runs.Event>, b: Block, now: nat)
    requires Lawful(r) && IsGenesis(g) && Runs.Orderly(r, Fresh(g, limit), es, 0, Runs.Plain) && Runs.ClockAfter(es, 0) <= now
    ensures DeepAdd(r, Runs.Run(r, Fresh(g, limit), es), b, now, 1).verdict != Nested
  {
    var s := Runs.Run(r, Fresh(g, limit), es);
    FreshHealthy(r, g, limit);
    Runs.RunHealthy(r, g, Fresh(g, limit), es, 0, Runs.Plain);
    Runs.HealthyLater(r, g, s, Runs.ClockAfter(es, 0), now);
    Once.RunKeyed(r, Fresh(g, limit), es);
    Once.NestsOnce(r, g, s, b, DeepAdd(r, s, b, now, 1), now, 1);
  }
}
