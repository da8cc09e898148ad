/** The emission curve: each block mints 1 / 2^19 of what is left below the cap. */
module Emission {
  import opened Ledger

  const COIN: nat := 100_000_000_000
  const SUPPLY: nat := COIN * 18_400_000
  const SPEED: nat := 524_288  // 2^19
  /** Where the counter comes to rest. */
  const LAST: nat := SUPPLY - (SPEED - 1)

  /** `remaining >> 19`. */
  function Reward(coins: nat): nat {
    (if SUPPLY <= coins then 0 else SUPPLY - coins) / SPEED
  }

  /** The coin counter stored with the block of height `h`. */
  function CoinsAt(h: nat): nat {
    if h == 0 then Reward(0) else CoinsAt(h - 1) + Reward(CoinsAt(h - 1))
  }

  lemma {:induction false} StepStaysBelow(coins: nat)
    requires coins <= LAST
    ensures coins + Reward(coins) <= LAST
    ensures Reward(coins) == 0 <==> coins == LAST
    ensures Reward(coins + Reward(coins)) <= Reward(coins)
  {
    var left := SUPPLY - coins;
    var q := left / SPEED;
    assert left == SPEED * q + left % SPEED;
    if q == 0 {
      assert left == SPEED - 1;
    } else {
      assert left - q >= (SPEED - 1) * q >= SPEED - 1;
    }
  }

  /** The counter never passes `LAST`, so it fits 64 bits and never overtakes the cap. */
  lemma {:induction false} CoinsBound(h: nat)
    ensures CoinsAt(h) <= LAST < SUPPLY < U64
  {
    if h == 0 { StepStaysBelow(0); } else { CoinsBound(h - 1); StepStaysBelow(CoinsAt(h - 1)); }
  }

  /** Rewards never grow, and the counter rises exactly until it reaches `LAST`. */
  lemma {:induction false} RewardsFall(h: nat, k: nat)
    requires h <= k
    ensures CoinsAt(h) <= CoinsAt(k)
    ensures Reward(CoinsAt(k)) <= Reward(CoinsAt(h))
    ensures CoinsAt(h) < CoinsAt(k) <==> h < k && CoinsAt(h) < LAST
    decreases k - h
  {
    CoinsBound(h);
    if h < k {
      RewardsFall(h, k - 1);
      CoinsBound(k - 1);
      StepStaysBelow(CoinsAt(k - 1));
    }
  }

  lemma {:induction false} Climb(h: nat) returns (top: nat)
    requires forall k :: 0 <= k < h ==> CoinsAt(k) < LAST
    ensures CoinsAt(top) == LAST
    ensures forall k :: 0 <= k < top ==> CoinsAt(k) < LAST
    decreases LAST - CoinsAt(h)
  {
    CoinsBound(h);
    if CoinsAt(h) == LAST {
      top := h;
    } else {
      RewardsFall(h, h + 1);
      CoinsBound(h + 1);
      top := Climb(h + 1);
    }
  }

  /** There is a height from which on, and only from which on, the counter is exactly 2^19 - 1 below the cap. */
  lemma {:induction false} EmissionEnds() returns (top: nat)
    ensures forall k: nat :: CoinsAt(k) == LAST <==> top <= k
    ensures forall k: nat :: Reward(CoinsAt(k)) == 0 <==> top <= k
  {
    top := Climb(0);
    forall k: nat
      ensures CoinsAt(k) == LAST <==> top <= k
      ensures Reward(CoinsAt(k)) == 0 <==> top <= k
    {
      CoinsBound(k);
      StepStaysBelow(CoinsAt(k));
      if top <= k { RewardsFall(top, k); }
    }
  }
}
