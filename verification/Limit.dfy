/** The base limit `maximum_dron_in_base_count`: how it starts, doubles and halves.

    C truncates integer division toward zero, so halving is written out for negative
    limits; a negative limit is the initial value when one drone is configured. */
module Limit {
  import opened Counting

  /** The initial limit for `n` starting drones. */
  function StartLimit(n: int): int
    requires n >= 1
  {
    n / 2 - 1
  }

  /** The limit after a processed increase, clamped below `2 * n`. */
  function Doubled(limit: int, n: int): int {
    if limit * 2 >= n * 2 then n * 2 - 1 else limit * 2
  }

  /** The limit after a processed decrease: C's `limit / 2`. */
  function Halved(limit: int): int {
    if limit >= 0 then limit / 2 else -((-limit) / 2)
  }

  function Pow2(k: nat): (r: nat)
    ensures r >= 1
  {
    if k == 0 then 1 else 2 * Pow2(k - 1)
  }

  /** Number of binary digits of a positive limit, that is floor(log2 limit) + 1; 0 otherwise. */
  function Bits(limit: int): nat
    decreases if limit > 0 then limit else 0
  {
    if limit <= 0 then 0 else 1 + Bits(limit / 2)
  }

  /** `Bits` is floor(log2) + 1, stated by powers of two. */
  lemma {:induction false} BitsIsLog2(limit: int)
    requires limit > 0
    ensures Bits(limit) >= 1
    ensures Pow2(Bits(limit) - 1) <= limit < Pow2(Bits(limit))
    decreases limit
  {
    var half := limit / 2;
    assert 2 * half <= limit <= 2 * half + 1;
    assert Bits(limit) == 1 + Bits(half);
    if half > 0 {
      BitsIsLog2(half);
      var k := Bits(half);
      hide Bits;
      assert Pow2(k) == 2 * Pow2(k - 1) && Pow2(k + 1) == 2 * Pow2(k);
    } else {
      assert Bits(half) == 0 && Pow2(0) == 1 && Pow2(1) == 2 * Pow2(0);
    }
  }

  lemma {:induction false} BitsMonotone(a: int, b: int)
    requires a <= b
    ensures Bits(a) <= Bits(b)
    decreases if b > 0 then b else 0
  {
    if a > 0 {
      BitsMonotone(a / 2, b / 2);
    }
  }

  /** Halving is division by two truncated toward zero: these bounds have one solution. */
  lemma HalvedTruncates(limit: int)
    ensures var half := Halved(limit);
            && (limit >= 0 ==> 2 * half <= limit <= 2 * half + 1)
            && (limit <= 0 ==> 2 * half - 1 <= limit <= 2 * half)
  {
  }

  /** A decrease of a positive limit drops exactly one bit. */
  lemma HalvedBits(limit: int)
    requires limit > 0
    ensures Bits(Halved(limit)) == Bits(limit) - 1
  {
  }

  /** An increase adds at most one bit, clamp included. */
  lemma DoubledBits(limit: int, n: int)
    requires n >= 1
    ensures Bits(Doubled(limit, n)) <= Bits(limit) + 1
  {
    if limit > 0 {
      assert limit * 2 / 2 == limit;
      assert Bits(limit * 2) == 1 + Bits(limit);
      BitsMonotone(Doubled(limit, n), limit * 2);
    }
  }

  /** The limit after `k` decreases and nothing else. */
  function HalvedTimes(limit: int, k: nat): int {
    if k == 0 then limit else Halved(HalvedTimes(limit, k - 1))
  }

  /** The limit after `k` increases and nothing else. */
  function DoubledTimes(limit: int, n: int, k: nat): int {
    if k == 0 then limit else Doubled(DoubledTimes(limit, n, k - 1), n)
  }

  /** From a positive limit, decreases alone reach zero on exactly the Bits(limit)-th one. */
  lemma {:induction false} HalvedTimesReachesZero(limit: int, k: nat)
    requires limit > 0
    ensures HalvedTimes(limit, k) >= 0
    ensures HalvedTimes(limit, k) <= 0 <==> k >= Bits(limit)
    ensures k < Bits(limit) ==> Bits(HalvedTimes(limit, k)) == Bits(limit) - k
  {
    if k == 0 {
      BitsIsLog2(limit);
    } else {
      HalvedTimesReachesZero(limit, k - 1);
      var before := HalvedTimes(limit, k - 1);
      if before > 0 {
        HalvedBits(before);
        if Halved(before) > 0 { BitsIsLog2(Halved(before)); }
      }
    }
  }

  lemma {:induction false} DoubledTimesFromPositive(limit: int, n: int, k: nat)
    requires 0 < limit <= 2 * n - 1
    ensures DoubledTimes(limit, n, k) == if limit * Pow2(k) >= 2 * n then 2 * n - 1 else limit * Pow2(k)
  {
    if k > 0 {
      DoubledTimesFromPositive(limit, n, k - 1);
      var x := limit * Pow2(k - 1);
      assert limit * Pow2(k) == 2 * x by { assert Pow2(k) == 2 * Pow2(k - 1); }
      hide Pow2;
    }
  }

  lemma {:induction false} DoubledTimesNonPositive(limit: int, n: int, k: nat)
    requires limit <= 0 && n >= 1
    ensures DoubledTimes(limit, n, k) <= 0
  {
    if k > 0 { DoubledTimesNonPositive(limit, n, k - 1); }
  }

  lemma {:induction false} Pow2Exceeds(k: nat)
    ensures Pow2(k) > k
  {
    if k > 0 { Pow2Exceeds(k - 1); }
  }

  /** The documentation says an increase raises the limit "up to 2N". The code never gets past
      2N - 1, and its own ceiling is reachable by increases exactly when four or more drones are
      configured: with one, two or three the limit starts at or below zero and stays there. */
  lemma CeilingReachableIff(n: int)
    requires n >= 1
    ensures (exists k: nat :: DoubledTimes(StartLimit(n), n, k) == 2 * n - 1) <==> n >= 4
  {
    var limit := StartLimit(n);
    if n >= 4 {
      Pow2Exceeds(2 * n);
      assert limit * Pow2(2 * n) >= 1 * Pow2(2 * n) by { Scaled(1, limit, Pow2(2 * n)); }
      DoubledTimesFromPositive(limit, n, 2 * n);
      assert DoubledTimes(limit, n, 2 * n) == 2 * n - 1;
    } else {
      forall k: nat ensures DoubledTimes(limit, n, k) != 2 * n - 1 {
        DoubledTimesNonPositive(limit, n, k);
      }
    }
  }

  lemma {:induction false} PowMonotone(a: nat, b: nat)
    requires a <= b
    ensures Pow2(a) <= Pow2(b)
    decreases b
  {
    if a < b { PowMonotone(a, b - 1); }
  }

  lemma DoubledBound(limit: int, n: int, k: nat)
    requires n >= 1 && limit + Pow2(k) >= 0
    ensures Doubled(limit, n) + Pow2(k + 1) >= 0
  {
  }

  lemma HalvedBound(limit: int, k: nat)
    requires limit + Pow2(k) >= 0
    ensures Halved(limit) + Pow2(k) >= 0
  {
  }

  lemma PowThirty()
    ensures Pow2(30) == 0x4000_0000
  {
    assert Pow2(5) == 32;
    PowAdd(5, 5);
    PowAdd(10, 10);
    PowAdd(20, 10);
  }

  lemma {:induction false} PowAdd(a: nat, b: nat)
    ensures Pow2(a + b) == Pow2(a) * Pow2(b)
  {
    if b > 0 {
      PowAdd(a, b - 1);
      assert Pow2(a + b) == 2 * Pow2(a + b - 1);
    }
  }
}
