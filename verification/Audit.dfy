/** What every accepted chain looks like, and where its coins come from. */
module Audit {
  import opened Ledger
  import opened Chain
  import Emission

  // ---------- the shape of a chain ----------

  /** The block at `j` is linked, at its own height, heavier than its parent, and within bounds. */
  ghost predicate WellPlaced(r: Rules, c: seq<Record>, j: nat)
    requires 1 <= j < |c|
  {
    && c[j].node.block.prev == r.hash(c[j - 1].node.block)
    && c[j].node.block.height == j
    && c[j - 1].node.work < c[j].node.work
    && c[j].weight <= Max(128 * 1024, j)
    && Distinct(c[j].node.block.txs) && Distinct(ImagesOf(c[j].txs))
  }

  /** The blocks at `i` and `j` share no transaction and spend no key image twice. */
  ghost predicate Unrelated(c: seq<Record>, i: nat, j: nat)
    requires i < |c| && j < |c|
  {
    && (forall x :: x in c[j].node.block.txs ==> x !in Ids(c[i].txs))
    && (forall k :: k in ImagesOf(c[j].txs) ==> k !in ImagesOf(c[i].txs))
  }

  lemma {:induction false} ChainHas(c: seq<Record>, i: nat)
    requires i < |c|
    ensures forall x :: x in Ids(c[i].txs) ==> x in TxIds(c)
    ensures forall k :: k in ImagesOf(c[i].txs) ==> k in Spent(c)
    decreases |c|
  {
    if i < |c| - 1 { ChainHas(Front(c), i); }
  }

  /** Every chain the node accepts is linked, ordered, bounded and free of double spends. */
  lemma {:induction false} ChainInOrder(r: Rules, g: Record, c: seq<Record>, now: nat, i: nat, j: nat)
    requires Replays(r, g, c, now) && i < j < |c|
    ensures WellPlaced(r, c, j) && Unrelated(c, i, j)
  {
    assert FitsAt(r, c, j, now);
    ChainHas(c[..j], i);
    assert c[..j][i] == c[i];
    assert Last(c[..j]) == c[j - 1];
    forall k | k in ImagesOf(c[j].txs) ensures k !in ImagesOf(c[i].txs) {
      var n :| 0 <= n < |ImagesOf(c[j].txs)| && ImagesOf(c[j].txs)[n] == k;
      assert k !in Spent(c[..j]);
    }
    forall x | x in c[j].node.block.txs ensures x !in Ids(c[i].txs) {
      var n :| 0 <= n < |c[j].txs| && Ids(c[j].txs)[n] == x;
      assert c[j].txs[n].id !in TxIds(c[..j]);
    }
  }

  lemma {:induction false} CoinsStep(r: Rules, g: Record, c: seq<Record>, now: nat, h: nat)
    requires Replays(r, g, c, now) && 1 <= h < |c|
    ensures c[h].coins == c[h - 1].coins + Emission.Reward(c[h - 1].coins)
  {
    assert FitsAt(r, c, h, now);
    assert Last(c[..h]) == c[h - 1];
  }

  /** The coin counter is a function of the height alone: the same on every branch. */
  lemma {:induction false} CoinsByHeight(r: Rules, g: Record, c: seq<Record>, now: nat, h: nat)
    requires Replays(r, g, c, now) && IsGenesis(g) && h < |c|
    ensures c[h].coins == Emission.CoinsAt(h) < U64
    decreases h
  {
    Emission.CoinsBound(h);
    if 0 < h {
      CoinsByHeight(r, g, c, now, h - 1);
      CoinsStep(r, g, c, now, h);
    }
  }

  /** The hash of the tip fixes the chain below it, with all its work and coins. */
  lemma {:induction false} TipFixesChain(r: Rules, g: Record, c: seq<Record>, d: seq<Record>, now: nat)
    requires Lawful(r) && IsGenesis(g) && Replays(r, g, c, now) && Replays(r, g, d, now)
    requires r.hash(Last(c).node.block) == r.hash(Last(d).node.block)
    ensures Nodes(c) == Nodes(d)
    ensures forall h :: 0 <= h < |c| ==> h < |d| && c[h].coins == d[h].coins
  {
    ReplaysPath(r, g, c, now);
    ReplaysPath(r, g, d, now);
    assert SameHash(r, Last(c).node.block, Last(d).node.block);
    assert Last(Nodes(c)) == Last(c).node && Last(Nodes(d)) == Last(d).node;
    PathUnique(r, g.node, Nodes(c), Nodes(d));
    assert |Nodes(c)| == |Nodes(d)|;
    forall h | 0 <= h < |c| ensures h < |d| && c[h].coins == d[h].coins {
      CoinsByHeight(r, g, c, now, h);
      CoinsByHeight(r, g, d, now, h);
    }
  }

  // ---------- where the coins come from ----------

  /** What the report counts as minted by one block: outputs less fees, in 64-bit arithmetic. */
  function Minted(x: Record): nat {
    (Sum(x.node.block.outs) % U64 - Sum(Fees(x.txs)) % U64) % U64
  }

  function FeesOf(x: Record): nat { Sum(Fees(x.txs)) % U64 }

  function MintedIn(c: seq<Record>, from: nat, until: nat): nat
    requires from <= until <= |c|
  {
    if from == until then 0 else MintedIn(c, from, until - 1) + Minted(c[until - 1])
  }

  function FeesIn(c: seq<Record>, from: nat, until: nat): nat
    requires from <= until <= |c|
  {
    if from == until then 0 else FeesIn(c, from, until - 1) + FeesOf(c[until - 1])
  }

  /** First height behind the range that a report from `start` over `count` blocks covers. */
  function ReportEnd(c: seq<Record>, start: nat, count: nat): (until: nat)
    ensures start < |c| ==> start < until <= |c|
  {
    var last := if count == 0 then |c| else start + count - 1;
    Min(last + 1, |c|)
  }

  /** The emission report over a range of heights. */
  method CoinbaseSum(c: seq<Record>, start: nat, count: nat) returns (emission: nat, fees: nat)
    ensures |c| <= start ==> emission == fees == 0
    ensures start < |c| ==> emission == MintedIn(c, start, ReportEnd(c, start, count))
    ensures start < |c| ==> fees == FeesIn(c, start, ReportEnd(c, start, count))
  {
    emission, fees := 0, 0;
    var last := if count == 0 then |c| else start + count - 1;
    var h := start;
    while h < |c| && h <= last
      invariant start <= h
      invariant start < |c| ==> h <= ReportEnd(c, start, count)
      invariant start < |c| ==> emission == MintedIn(c, start, h) && fees == FeesIn(c, start, h)
      invariant |c| <= start ==> emission == fees == 0
    {
      var coinbase := Sum(c[h].node.block.outs) % U64;
      var fee := Sum(Fees(c[h].txs)) % U64;
      emission := emission + (coinbase - fee) % U64;
      fees := fees + fee;
      h := h + 1;
    }
  }

  lemma {:induction false} ModBack(a: nat, f: nat, o: nat)
    requires a < U64 && (a + f) % U64 == o % U64
    ensures (o % U64 - f % U64) % U64 == a
  {
    var x, y := (a + f) / U64, f / U64;
    assert a + f == x * U64 + (a + f) % U64;
    assert f == y * U64 + f % U64;
    var d := o % U64 - f % U64;
    assert d == a + (y - x) * U64;
    ModUnique(d, y - x, a);
  }

  lemma {:induction false} ModUnique(d: int, q: int, a: nat)
    requires d == a + q * U64 && a < U64
    ensures d % U64 == a
  {
    assert d == (d / U64) * U64 + d % U64;
    var t := q - d / U64;
    assert a - d % U64 == -t * U64;
    assert t == 0;
  }

  lemma {:induction false} Balanced(r: Rules, g: Record, c: seq<Record>, now: nat, h: nat)
    requires Replays(r, g, c, now) && 1 <= h < |c|
    ensures (Emission.Reward(c[h - 1].coins) + Sum(Fees(c[h].txs))) % U64 == Sum(c[h].node.block.outs) % U64
  {
    assert FitsAt(r, c, h, now);
    assert Last(c[..h]) == c[h - 1];
  }

  /** Each block mints exactly the reward, even where reward and fees together wrap around. */
  lemma {:induction false} MintedIsReward(r: Rules, g: Record, c: seq<Record>, now: nat, h: nat)
    requires Replays(r, g, c, now) && IsGenesis(g) && 1 <= h < |c|
    ensures Minted(c[h]) == Emission.CoinsAt(h) - Emission.CoinsAt(h - 1)
  {
    Balanced(r, g, c, now, h);
    CoinsByHeight(r, g, c, now, h - 1);
    Emission.CoinsBound(h);
    ModBack(Emission.Reward(c[h - 1].coins), Sum(Fees(c[h].txs)), Sum(c[h].node.block.outs));
  }

  /** The report over any range equals the difference of the coin counters at its ends. */
  lemma {:induction false} Conservation(r: Rules, g: Record, c: seq<Record>, now: nat, from: nat, until: nat)
    requires Replays(r, g, c, now) && IsGenesis(g) && 1 <= from <= until <= |c|
    ensures MintedIn(c, from, until) == c[until - 1].coins - c[from - 1].coins
    decreases until
  {
    if from < until {
      Conservation(r, g, c, now, from, until - 1);
      MintedIsReward(r, g, c, now, until - 1);
      CoinsByHeight(r, g, c, now, until - 1);
      CoinsByHeight(r, g, c, now, until - 2);
    }
  }
}
