/** The retry delay of the deployment reconciler
    (operator/internal/reconciler/deployment_reconciler.go:110-132): the doubling loop over int64
    nanoseconds against its closed form. */
module Backoff {
  import opened Prelude

  const DEFAULT_BASE := 5_000_000_000
  const DEFAULT_MAX := 30_000_000_000

  /** `k` rounds of the loop: double, and stop at the cap. */
  function Doubled(delay: int, cap: int, k: nat): int
    decreases k
  {
    if k == 0 then delay
    else
      var d := Wrap64(delay * 2);
      if d >= cap then cap else Doubled(d, cap, k - 1)
  }

  /** The delay after `n` failures in a row; zero settings stand for the defaults. */
  function Delay(base: int, cap: int, n: nat): int {
    Doubled(if base == 0 then DEFAULT_BASE else base, if cap == 0 then DEFAULT_MAX else cap, if n == 0 then 0 else n - 1)
  }

  function Pow2(k: nat): nat { if k == 0 then 1 else 2 * Pow2(k - 1) }

  function Min(a: int, b: int): int { if a < b then a else b }

  /** What the delay is meant to be after k + 1 failures. */
  function Ideal(base: int, cap: int, k: nat): int { Min(base * Pow2(k), cap) }

  lemma {:induction false} Pow2Grows(j: nat, k: nat)
    requires j <= k
    ensures 1 <= Pow2(j) <= Pow2(k)
    decreases k
  {
    if j < k {
      Pow2Grows(j, k - 1);
    } else if k > 0 {
      Pow2Grows(k - 1, k - 1);
    }
  }

  lemma Grows(base: int, j: nat, k: nat)
    requires base > 0 && j <= k
    ensures base * Pow2(j) <= base * Pow2(k)
  {
    Pow2Grows(j, k);
    assert base * (Pow2(k) - Pow2(j)) >= 0;
  }

  lemma TwiceIs(base: int, k: nat)
    ensures base * Pow2(k) * 2 == base * Pow2(k + 1)
  {
  }

  /** Every doubling that the loop gets to fits an int64. */
  ghost predicate Fits(base: int, cap: int) {
    forall k: nat :: (k == 0 || base * Pow2(k) < cap) ==> base * Pow2(k + 1) < TWO_63
  }

  lemma {:induction false} FromRound(base: int, cap: int, j: nat, k: nat)
    requires 0 < base <= cap && Fits(base, cap) && (j == 0 || base * Pow2(j) < cap)
    ensures Doubled(base * Pow2(j), cap, k) == Ideal(base, cap, j + k)
    decreases k
  {
    if k == 0 {
    } else {
      TwiceIs(base, j);
      Grows(base, 0, j + 1);
      Grows(base, j + 1, j + k);
      if base * Pow2(j + 1) < cap {
        FromRound(base, cap, j + 1, k - 1);
      }
    }
  }

  /** As long as the cap is not reached, the rounds just double. */
  lemma {:induction false} RoundsDouble(base: int, cap: int, j: nat, k: nat)
    requires 0 < base && cap < TWO_63 && forall i: nat :: 1 <= i <= j ==> base * Pow2(i) < cap
    ensures Doubled(base, cap, j + k) == Doubled(base * Pow2(j), cap, k)
    decreases j
  {
    if j > 0 {
      RoundsDouble(base, cap, j - 1, k + 1);
      TwiceIs(base, j - 1);
      Grows(base, 0, j);
      assert Wrap64(base * Pow2(j)) == base * Pow2(j);
    }
  }

  /** A doubling that overflows makes the delay negative. */
  lemma OverflowIsNegative(base: int, cap: int, k: nat)
    requires 0 < base < TWO_63 && 0 < cap < TWO_63
    requires (k == 0 || base * Pow2(k) < cap) && base * Pow2(k + 1) >= TWO_63
    ensures Doubled(base, cap, k + 1) < 0
  {
    forall i: nat | 1 <= i <= k ensures base * Pow2(i) < cap { Grows(base, i, k); }
    RoundsDouble(base, cap, k, 1);
    TwiceIs(base, k);
    var d := base * Pow2(k);
    assert TWO_63 <= 2 * d < TWO_64;
    assert Wrap64(2 * d) == 2 * d - TWO_64 by { ModShift(2 * d + TWO_63 - TWO_64, 1); }
    assert Doubled(d, cap, 1) == Doubled(Wrap64(d * 2), cap, 0);
  }

  /** For positive settings the loop yields min(base * 2^(n-1), cap) after every number of failures
      if and only if base <= cap and no doubling that the loop gets to overflows. */
  lemma ClosedFormExactly(base: int, cap: int)
    requires 0 < base < TWO_63 && 0 < cap < TWO_63
    ensures (forall n: nat :: n >= 1 ==> Delay(base, cap, n) == Ideal(base, cap, n - 1)) <==> base <= cap && Fits(base, cap)
  {
    if base <= cap && Fits(base, cap) {
      forall n: nat | n >= 1 ensures Delay(base, cap, n) == Ideal(base, cap, n - 1) {
        FromRound(base, cap, 0, n - 1);
      }
    } else if base > cap {
      assert Delay(base, cap, 1) != Ideal(base, cap, 0);
    } else {
      var k: nat :| (k == 0 || base * Pow2(k) < cap) && base * Pow2(k + 1) >= TWO_63;
      OverflowIsNegative(base, cap, k);
      Grows(base, 0, k + 1);
      assert Delay(base, cap, k + 2) != Ideal(base, cap, k + 1);
    }
  }

  /** A cap of at most 2^62 and a base below both it and 2^62 are enough. */
  lemma {:induction false} ModestSettingsFit(base: int, cap: int)
    requires 0 < base <= cap <= TWO_63 / 2 && base < TWO_63 / 2
    ensures Fits(base, cap)
  {
    forall k: nat | k == 0 || base * Pow2(k) < cap ensures base * Pow2(k + 1) < TWO_63 {
      TwiceIs(base, k);
    }
  }

  /** The bound on the base is needed: with both settings at 2^62 the second delay is negative. */
  lemma BoundaryOverflows()
    ensures Delay(TWO_63 / 2, TWO_63 / 2, 2) == -TWO_63
  {
    var half := TWO_63 / 2;
    assert Wrap64(half * 2) == -TWO_63;
    assert Doubled(half, half, 1) == Doubled(-TWO_63, half, 0);
  }

  /** Without settings the delays are 5, 10 and 20 seconds, and 30 from then on. */
  lemma DefaultDelays(n: nat)
    requires n >= 1
    ensures Delay(0, 0, n) == if n == 1 then 5_000_000_000 else if n == 2 then 10_000_000_000 else if n == 3 then 20_000_000_000 else 30_000_000_000
  {
    assert Doubled(20_000_000_000, DEFAULT_MAX, 0) == 20_000_000_000;
    if n >= 2 { assert Doubled(DEFAULT_BASE, DEFAULT_MAX, n - 1) == Doubled(10_000_000_000, DEFAULT_MAX, n - 2); }
    if n >= 3 { assert Doubled(10_000_000_000, DEFAULT_MAX, n - 2) == Doubled(20_000_000_000, DEFAULT_MAX, n - 3); }
  }

  /** Where the closed form holds, more failures never shorten the delay, and it stays within
      [base, cap]. */
  lemma DelayGrows(base: int, cap: int, m: nat, n: nat)
    requires 0 < base <= cap && Fits(base, cap) && 1 <= m <= n
    ensures base <= Delay(base, cap, m) <= Delay(base, cap, n) <= cap
  {
    FromRound(base, cap, 0, m - 1);
    FromRound(base, cap, 0, n - 1);
    Grows(base, m - 1, n - 1);
    Grows(base, 0, m - 1);
  }

  /** Consecutive failures at the end of a history of outcomes (true: success). */
  function Streak(history: seq<bool>): nat {
    if history == [] || history[|history| - 1] then 0 else Streak(history[..|history| - 1]) + 1
  }

  lemma StreakExtends(history: seq<bool>, ok: bool)
    ensures Streak(history + [ok]) == if ok then 0 else Streak(history) + 1
  {
  }
}
