/**
 The difficulty rule itself, in the 64-bit, 128-bit and 256-bit arithmetic of the node: when it
 throws, how far it can move, and how it depends on the height it is given.
 */
module Lwma {
  import opened Ledger
  import opened Windows
  import opened Chain

  const TARGET: nat := 300
  const N: nat := 144
  const LONGEST: nat := 6 * TARGET
  const MIN_WEIGHT: nat := N * N * TARGET / 20
  const SCALE: nat := N * (N + 1) * TARGET * 99
  const U128: nat := 0x1_0000_0000_0000_0000 * 0x1_0000_0000_0000_0000
  const BOOTSTRAP: nat := N + 3
  const TRUNCATED_UNTIL: nat := 279
  const FIRST_WORK: nat := 0x10_0000

  /** Running state of the weighted sum of solve times. */
  datatype Acc = Acc(index: nat, sum: nat, last: nat)

  function Collect(a: Acc, t: nat): Acc {
    var past := t <= a.last;
    var diff := if past then 1 else Min(t - a.last, LONGEST);
    Acc(a.index + 1, a.sum + a.index * diff, if past then (a.last + 1) % U64 else t)
  }

  function CollectAll(a: Acc, stamps: seq<nat>): Acc
    decreases |stamps|
  {
    if stamps == [] then a else CollectAll(Collect(a, stamps[0]), stamps[1..])
  }

  function SolveWeight(stamps: seq<nat>): nat
    requires stamps != []
  {
    Max(CollectAll(Acc(1, 0, (stamps[0] - TARGET) % U64), stamps[1..]).sum, MIN_WEIGHT)
  }

  /** Average work of a block in the window. */
  function Average(works: seq<nat>): nat
    requires |works| == WINDOW
  {
    ((works[WINDOW - 1] - works[0]) % U128) / N
  }

  function Div(n: nat, d: nat): (q: nat)
    requires 0 < d
    ensures d * q <= n < d * q + d
  {
    n / d
  }

  /** The quotient of scaled work and weighted solve time; below height 279 the former is cut to 64 bits. */
  function Quotient(average: nat, weight: nat, height: nat): nat
    requires 0 < weight
  {
    Div(Scaled(average, height), 200 * weight)
  }

  /** The rule; None where it throws. */
  function Next(stamps: seq<nat>, works: seq<nat>, height: nat): Option<nat> {
    if |stamps| != |works| then None
    else if height == 0 then Some(1)
    else if height < BOOTSTRAP then Some(FIRST_WORK)
    else if |stamps| != WINDOW then None
    else
      var q := Quotient(Average(works), SolveWeight(stamps), height);
      if q == 0 || U128 <= q then None else Some(q)
  }

  // ---------- the weighted sum ----------

  /** i + (i + 1) + ... over n terms. */
  ghost function Ramp(i: nat, n: nat): nat
    decreases n
  {
    if n == 0 then 0 else i + Ramp(i + 1, n - 1)
  }

  lemma {:induction false} RampClosed(i: nat, n: nat)
    ensures 2 * Ramp(i, n) == n * (2 * i + n - 1)
    decreases n
  {
    if n != 0 { RampClosed(i + 1, n - 1); }
  }

  lemma {:induction false} MulMono(a: nat, b: nat, c: nat)
    requires a <= b
    ensures a * c <= b * c && c * a <= c * b
  {
  }

  lemma {:induction false} CollectOne(a: Acc, t: nat)
    ensures a.sum <= Collect(a, t).sum <= a.sum + LONGEST * a.index
  {
    var diff := if t <= a.last then 1 else Min(t - a.last, LONGEST);
    MulMono(diff, LONGEST, a.index);
  }

  lemma {:induction false} CollectBounds(a: Acc, stamps: seq<nat>)
    ensures a.sum <= CollectAll(a, stamps).sum <= a.sum + LONGEST * Ramp(a.index, |stamps|)
    decreases |stamps|
  {
    if stamps != [] {
      var b := Collect(a, stamps[0]);
      CollectOne(a, stamps[0]);
      assert b.index == a.index + 1;
      CollectBounds(b, stamps[1..]);
    }
  }

  lemma {:induction false} RampWindow(n: nat)
    requires n == N
    ensures Ramp(1, n) == 10_440
  {
    RampClosed(1, n);
  }

  lemma {:induction false} SumBound(a: Acc, stamps: seq<nat>)
    requires a.index == 1 && a.sum == 0 && |stamps| == N
    ensures CollectAll(a, stamps).sum <= 18_792_000
  {
    CollectBounds(a, stamps);
    RampWindow(|stamps|);
  }

  /** The weighted solve time stays between a twentieth of the expected one and its cap. */
  lemma {:induction false} WeightBounds(stamps: seq<nat>)
    requires |stamps| == WINDOW
    ensures 311_040 <= SolveWeight(stamps) <= 18_792_000
  {
    SumBound(Acc(1, 0, (stamps[0] - TARGET) % U64), stamps[1..]);
  }

  /** Dividing by something between two bounds. */
  lemma {:induction false} QuotientBetween(up: nat, w: nat, low: nat, high: nat)
    requires 0 < low <= w <= high
    ensures low * Div(up, w) <= up < high * (Div(up, w) + 1)
  {
    var q := Div(up, w);
    MulMono(low, w, q);
    MulMono(w, high, q + 1);
    assert w * q + w == w * (q + 1);
  }

  /** The average work, scaled; below height 279 it is cut to 64 bits. */
  function Scaled(average: nat, height: nat): nat {
    if height < TRUNCATED_UNTIL then (average * SCALE) % U64 else average * SCALE
  }

  /**
   On a full window the rule throws exactly when the scaled work is smaller than the weighted solve
   time, so that the quotient is zero, or so large that the quotient leaves 128 bits.
   */
  lemma {:induction false} NextNoneIff(stamps: seq<nat>, works: seq<nat>, height: nat)
    requires |stamps| == |works| == WINDOW && BOOTSTRAP <= height
    ensures var up, down := Scaled(Average(works), height), 200 * SolveWeight(stamps);
            Next(stamps, works, height).None? <==> up < down || U128 * down <= up
  {
    var up, down := Scaled(Average(works), height), 200 * SolveWeight(stamps);
    WeightBounds(stamps);
    QuotientSmall(up, down);
    QuotientLarge(up, down, U128);
  }

  lemma {:induction false} QuotientSmall(up: nat, down: nat)
    requires 0 < down
    ensures Div(up, down) == 0 <==> up < down
  {
    if 1 <= Div(up, down) { MulMono(1, Div(up, down), down); }
  }

  lemma {:induction false} QuotientLarge(up: nat, down: nat, n: nat)
    requires 0 < down
    ensures n <= Div(up, down) <==> n * down <= up
  {
    var q := Div(up, down);
    if n <= q { MulMono(n, q, down); } else { MulMono(q + 1, n, down); }
  }

  /**
   From height 279 on the rule is defined whenever the average work lies between 7 and 2^124, and
   moves it by at most a factor of ten up and of about seven down.
   */
  lemma {:induction false} NextBounds(stamps: seq<nat>, works: seq<nat>, height: nat)
    requires |stamps| == |works| == WINDOW && TRUNCATED_UNTIL <= height
    requires 7 <= Average(works) < U128 / 16
    ensures var a, d := Average(works), Next(stamps, works, height);
            && d.Some? && 1 <= d.value
            && d.value <= 10 * a
            && a <= 7 * (d.value + 1)
  {
    var a, w := Average(works), SolveWeight(stamps);
    WeightBounds(stamps);
    assert SCALE == 620_136_000;
    QuotientBetween(a * SCALE, 200 * w, 62_208_000, 3_758_400_000);
    var q := Div(a * SCALE, 200 * w);
    assert Quotient(a, w, height) == q;
    assert 62_208_000 * q <= 620_136_000 * a < 3_758_400_000 * (q + 1);
  }

  // ---------- blocks at equal distances ----------

  /** Each block comes `gap` after the one before. */
  ghost predicate EvenFrom(last: nat, stamps: seq<nat>, gap: nat)
    decreases |stamps|
  {
    stamps == [] || (stamps[0] == last + gap && EvenFrom(stamps[0], stamps[1..], gap))
  }

  lemma {:induction false} EvenIs(last: nat, stamps: seq<nat>, gap: nat)
    requires forall i :: 0 <= i < |stamps| ==> stamps[i] == last + gap * (i + 1)
    ensures EvenFrom(last, stamps, gap)
    decreases |stamps|
  {
    if stamps != [] {
      assert stamps[0] == last + gap * 1;
      forall i | 0 <= i < |stamps[1..]| ensures stamps[1..][i] == stamps[0] + gap * (i + 1) {
        assert stamps[i + 1] == last + gap * (i + 2);
        assert gap * (i + 2) == gap + gap * (i + 1);
      }
      EvenIs(stamps[0], stamps[1..], gap);
    }
  }

  lemma {:induction false} EvenSum(a: Acc, stamps: seq<nat>, gap: nat)
    requires 1 <= gap <= LONGEST && EvenFrom(a.last, stamps, gap)
    ensures var b := CollectAll(a, stamps);
            && b.sum == a.sum + gap * Ramp(a.index, |stamps|) && b.index == a.index + |stamps|
            && b.last == if stamps == [] then a.last else stamps[|stamps| - 1]
    decreases |stamps|
  {
    if stamps != [] {
      var b := Collect(a, stamps[0]);
      assert b == Acc(a.index + 1, a.sum + a.index * gap, stamps[0]);
      EvenSum(b, stamps[1..], gap);
      MulSplit(gap, a.index, Ramp(a.index + 1, |stamps| - 1));
    } else {
      assert gap * 0 == 0;
    }
  }

  lemma {:induction false} MulSplit(c: nat, a: nat, b: nat)
    ensures c * (a + b) == a * c + c * b
  {
  }

  /** The weighted sum over a window of blocks at equal distances; the first counts 300 more. */
  lemma {:induction false} EvenWindow(stamps: seq<nat>, gap: nat)
    requires 2 <= |stamps| <= WINDOW && TARGET <= stamps[0] < U64 && 1 <= gap <= LONGEST
    requires EvenFrom(stamps[0], stamps[1..], gap)
    ensures CollectAll(Acc(1, 0, (stamps[0] - TARGET) % U64), stamps[1..]).sum
         == Min(gap + TARGET, LONGEST) + gap * Ramp(2, |stamps| - 2)
  {
    var a, rest := Acc(1, 0, stamps[0] - TARGET), stamps[1..];
    assert (stamps[0] - TARGET) % U64 == stamps[0] - TARGET;
    var b := Collect(a, rest[0]);
    assert b == Acc(2, Min(gap + TARGET, LONGEST), stamps[1]);
    assert CollectAll(a, rest) == CollectAll(b, rest[1..]);
    EvenSum(b, rest[1..], gap);
  }

  /** Half an hour for each block: the weighted solve time is at its cap. */
  lemma {:induction false} SlowWeight(stamps: seq<nat>)
    requires |stamps| == WINDOW && TARGET <= stamps[0] < U64 && EvenFrom(stamps[0], stamps[1..], LONGEST)
    ensures SolveWeight(stamps) == 18_792_000
  {
    EvenWindow(stamps, LONGEST);
    RampClosed(2, 143);
  }

  /** With slow blocks only, the rule asks for less than a sixth of the average, and throws below seven. */
  lemma {:induction false} SlowNext(stamps: seq<nat>, works: seq<nat>, height: nat)
    requires |stamps| == |works| == WINDOW && BOOTSTRAP <= height
    requires Average(works) < U128 && Scaled(Average(works), height) == Average(works) * SCALE
    requires SolveWeight(stamps) == 18_792_000
    ensures var a, d := Average(works), Next(stamps, works, height);
            && (d.None? <==> a <= 6)
            && (d.Some? ==> 6 * d.value <= a)
  {
    var a := Average(works);
    NextNoneIff(stamps, works, height);
    assert SCALE == 620_136_000;
    var q := Div(a * SCALE, 3_758_400_000);
  }

  /** A window on which the rule throws: slow blocks of work one. */
  lemma {:induction false} DryWindow(height: nat)
    requires BOOTSTRAP <= height
    ensures exists stamps, works :: |stamps| == |works| == WINDOW && Next(stamps, works, height).None?
  {
    var stamps := seq(WINDOW, i requires 0 <= i < WINDOW => TARGET + LONGEST * i);
    var works := seq(WINDOW, i requires 0 <= i < WINDOW => i);
    EvenIs(TARGET, stamps[1..], LONGEST);
    SlowWeight(stamps);
    assert Average(works) == 1;
    SlowNext(stamps, works, height);
  }

  /** A block every 300 seconds, as the rule aims at. */
  lemma {:induction false} OnTimeWeight(stamps: seq<nat>)
    requires |stamps| == WINDOW && TARGET <= stamps[0] < U64 && EvenFrom(stamps[0], stamps[1..], TARGET)
    ensures SolveWeight(stamps) == 3_132_300
  {
    EvenWindow(stamps, TARGET);
    RampClosed(2, 143);
  }

  /** Even then the rule asks for less than the average, and throws at an average of one. */
  lemma {:induction false} OnTimeNext(stamps: seq<nat>, works: seq<nat>, height: nat)
    requires |stamps| == |works| == WINDOW && BOOTSTRAP <= height
    requires Average(works) < U128 && Scaled(Average(works), height) == Average(works) * SCALE
    requires SolveWeight(stamps) == 3_132_300
    ensures var a, d := Average(works), Next(stamps, works, height);
            && (d.None? <==> a <= 1)
            && (d.Some? ==> 1 <= d.value < a)
  {
    var a := Average(works);
    NextNoneIff(stamps, works, height);
    assert SCALE == 620_136_000;
    var q := Div(a * SCALE, 626_460_000);
  }

  /** A last block one second after the one before it is enough for the rule not to throw. */
  lemma {:induction false} QuickNext(stamps: seq<nat>, works: seq<nat>, height: nat)
    requires |stamps| == |works| == WINDOW && BOOTSTRAP <= height
    requires Average(works) == 1 && SolveWeight(stamps) == 3_089_244
    ensures Next(stamps, works, height) == Some(1)
  {
    assert SCALE == 620_136_000;
    assert Div(SCALE, 617_848_800) == 1;
  }

  /** Up to twenty seconds for each block: the weighted solve time is at its floor. */
  lemma {:induction false} FastWeight(stamps: seq<nat>, gap: nat)
    requires |stamps| == WINDOW && TARGET <= stamps[0] < U64 && 1 <= gap <= 20 && EvenFrom(stamps[0], stamps[1..], gap)
    ensures SolveWeight(stamps) == 311_040
  {
    EvenWindow(stamps, gap);
    RampClosed(2, 143);
    MulMono(gap, 20, Ramp(2, 143));
  }

  lemma {:induction false} CollectLast(a: Acc, stamps: seq<nat>, t: nat)
    ensures CollectAll(a, stamps + [t]) == Collect(CollectAll(a, stamps), t)
    decreases |stamps|
  {
    if stamps == [] {
      assert stamps + [t] == [t];
      assert CollectAll(Collect(a, t), [t][1..]) == Collect(a, t);
    } else {
      assert (stamps + [t])[1..] == stamps[1..] + [t];
      CollectLast(Collect(a, stamps[0]), stamps[1..], t);
    }
  }

  lemma {:induction false} RampShort(n: nat)
    requires n == 142
    ensures Ramp(2, n) == 10_295
  {
    RampClosed(2, n);
  }

  lemma {:induction false} EvenFront(a: Acc, first: nat, rest: seq<nat>, gap: nat)
    requires |rest| == WINDOW - 2 && 1 <= gap <= LONGEST && TARGET <= first && a == Acc(1, 0, first - TARGET) && EvenFrom(first, rest, gap)
    ensures CollectAll(a, rest) == Acc(WINDOW - 1, Min(gap + TARGET, LONGEST) + gap * 10_295, rest[|rest| - 1])
  {
    var b := Collect(a, rest[0]);
    assert b == Acc(2, Min(gap + TARGET, LONGEST), rest[0]);
    assert CollectAll(a, rest) == CollectAll(b, rest[1..]);
    RampShort(|rest| - 1);
    EvenSum(b, rest[1..], gap);
  }

  /** Blocks at equal distances, but for the last. */
  lemma {:induction false} LateWeight(stamps: seq<nat>, gap: nat, late: nat)
    requires |stamps| == WINDOW && TARGET <= stamps[0] < U64 && EvenFrom(stamps[0], stamps[1..WINDOW - 1], gap)
    requires stamps[WINDOW - 1] == stamps[WINDOW - 2] + late && 1 <= gap <= LONGEST && 1 <= late <= LONGEST
    ensures SolveWeight(stamps) == Max(Min(gap + TARGET, LONGEST) + gap * 10_295 + 144 * late, MIN_WEIGHT)
  {
    var a, rest := Acc(1, 0, stamps[0] - TARGET), stamps[1..WINDOW - 1];
    assert (stamps[0] - TARGET) % U64 == stamps[0] - TARGET;
    EvenFront(a, stamps[0], rest, gap);
    CollectLast(a, rest, stamps[WINDOW - 1]);
    assert stamps[1..] == rest + [stamps[WINDOW - 1]];
  }

  /** Then the rule asks for less than seven times the first difficulty. */
  lemma {:induction false} LateNext(stamps: seq<nat>, works: seq<nat>, height: nat)
    requires |stamps| == |works| == WINDOW && BOOTSTRAP <= height && SolveWeight(stamps) == 465_420
    requires works[WINDOW - 1] == works[0] + FIRST_WORK * N
    ensures Next(stamps, works, height) == Some(6_985_730)
  {
    assert Average(works) == FIRST_WORK;
    assert SCALE == 620_136_000;
    var up := FIRST_WORK * SCALE;
    assert up % U64 == up;
    assert Div(up, 93_084_000) == 6_985_730;
  }

  /** With blocks of the first difficulty at that pace, the rule asks for ten times that. */
  lemma {:induction false} FastNext(stamps: seq<nat>, works: seq<nat>, height: nat)
    requires |stamps| == |works| == WINDOW && BOOTSTRAP <= height && SolveWeight(stamps) == 311_040
    requires works[WINDOW - 1] == works[0] + FIRST_WORK * N
    ensures Next(stamps, works, height) == Some(10_452_992)
  {
    assert Average(works) == FIRST_WORK;
    assert SCALE == 620_136_000;
    var up := FIRST_WORK * SCALE;
    assert up % U64 == up;
    assert Div(up, 62_208_000) == 10_452_992;
  }

  // ---------- the height ----------

  /** Ranges of heights on which the rule is one and the same function of the lists. */
  function Band(height: nat): nat {
    if height == 0 then 0 else if height < BOOTSTRAP then 1 else if height < TRUNCATED_UNTIL then 2 else 3
  }

  ghost predicate Agree(h: nat, k: nat, stamps: seq<nat>, works: seq<nat>) {
    Next(stamps, works, h) == Next(stamps, works, k)
  }

  /** Two windows on which the rule tells all bands apart. */
  lemma {:induction false} BandsShow(h: nat, k: nat)
    requires Band(h) != Band(k)
    ensures exists stamps, works :: !Agree(h, k, stamps, works)
  {
    if Band(h) < 2 || Band(k) < 2 {
      assert !Agree(h, k, [], []);
    } else {
      var stamps := seq(WINDOW, i => 0);
      var works := seq(WINDOW, i requires 0 <= i < WINDOW => i * U64);
      var w := SolveWeight(stamps);
      WeightBounds(stamps);
      assert works[WINDOW - 1] - works[0] == N * U64;
      assert Average(works) == U64;
      var up := U64 * SCALE;
      assert up % U64 == 0;
      QuotientBetween(up, 200 * w, 62_208_000, 3_758_400_000);
      QuotientBetween(0, 200 * w, 62_208_000, 3_758_400_000);
      assert !Agree(h, k, stamps, works);
    }
  }

  /** Asking the rule with one height or another gives the same answer on all lists exactly within a band. */
  lemma {:induction false} HeightMattersByBand(h: nat, k: nat)
    ensures (forall stamps, works :: Agree(h, k, stamps, works)) <==> Band(h) == Band(k)
  {
    if Band(h) != Band(k) { BandsShow(h, k); }
  }

  /** The rule on a chain. */
  function Ahead(c: seq<Node>, height: nat): Option<nat> {
    Next(Stamps(Window(c)), Works(Window(c)), height)
  }

  /**
   A chain of at most 145 blocks makes the rule throw as soon as it is told of a main chain of 147
   or more; told of its own length it gets the constant difficulty of the start.
   */
  lemma {:induction false} ShortBranchThrows(c: seq<Node>, length: nat)
    requires c != []
    ensures |Window(c)| != WINDOW <==> |c| <= 145
    ensures |c| <= 145 && BOOTSTRAP <= length ==> Ahead(c, length).None?
    ensures |c| < BOOTSTRAP ==> Ahead(c, |c|) == Some(FIRST_WORK)
  {
  }

  /** The rules of the node, with the parts that are not modelled as parameters. */
  function NodeRules(hash: Block -> Hash, pow: (Block, nat) -> bool, coinbase: Block -> bool,
                     inputs: (seq<Record>, Tx) -> bool, sound: Tx -> bool, median: seq<nat> -> nat): Rules
  {
    Rules(hash, Next, Ahead, pow, coinbase, inputs, sound, median)
  }

  /** The rules use this difficulty rule. */
  ghost predicate Uses(r: Rules) {
    forall c, h {:trigger AnswersFor(r, c, h)} :: AnswersFor(r, c, h)
  }

  ghost predicate AnswersFor(r: Rules, c: seq<Node>, h: nat) { r.ahead(c, h) == Ahead(c, h) }

  ghost predicate NoCollision(hash: Block -> Hash) {
    forall a, b {:trigger hash(a), hash(b)} :: hash(a) == hash(b) ==> a == b
  }

  /** The node's rules are lawful. */
  lemma {:induction false} NodeRulesLawful(hash: Block -> Hash, pow: (Block, nat) -> bool, coinbase: Block -> bool,
                         inputs: (seq<Record>, Tx) -> bool, sound: Tx -> bool, median: seq<nat> -> nat)
    requires NoCollision(hash)
    ensures Lawful(NodeRules(hash, pow, coinbase, inputs, sound, median))
    ensures Uses(NodeRules(hash, pow, coinbase, inputs, sound, median))
  {
    var r := NodeRules(hash, pow, coinbase, inputs, sound, median);
    forall a, b | SameHash(r, a, b) ensures a == b { }
    forall c, h ensures AheadIsNext(r, c, h) { }
    forall c, h ensures AnswersFor(r, c, h) { }
  }

  /** Within a band the height makes no difference, for any chain. */
  lemma {:induction false} SameBandAgrees(r: Rules, c: seq<Node>, h: nat, k: nat)
    requires Uses(r) && Band(h) == Band(k)
    ensures SameAhead(r, c, h, k)
  {
    HeightMattersByBand(h, k);
    assert Agree(h, k, Stamps(Window(c)), Works(Window(c)));
    assert AnswersFor(r, c, h) && AnswersFor(r, c, k);
  }
}
