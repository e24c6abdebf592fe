/**
  Capped exponential backoff (core/src/orchestrator/resilience.rs), in nanoseconds: the 32-bit shift that
  saturates past 31, the saturating product of a duration, and the cap.
 */
module Backoff {
  import opened Wrappers

  const SECOND: nat := 1_000_000_000
  const CAP: nat := 60 * SECOND
  const U32_MAX: nat := 0xFFFF_FFFF
  /** The longest `Duration`: 64 bits of seconds and 999 999 999 nanoseconds. */
  const DURATION_MAX: nat := 0xFFFF_FFFF_FFFF_FFFF * SECOND + 999_999_999

  type Duration = d: nat | d <= DURATION_MAX

  function Min(a: nat, b: nat): nat {
    if a <= b then a else b
  }

  function Pow2(n: nat): (r: nat)
    ensures r >= 1
  {
    if n == 0 then 1 else 2 * Pow2(n - 1)
  }

  /** `1u32 << n`, or nothing when the shift is not smaller than the width. */
  function CheckedShl(n: nat): Option<nat> {
    if n < 32 then Some(Pow2(n)) else None
  }

  function SaturatingMul(d: Duration, m: nat): Duration {
    Min(d * m, DURATION_MAX)
  }

  function Multiplier(idx: nat): nat {
    if CheckedShl(idx).Some? then CheckedShl(idx).value else U32_MAX
  }

  function BackoffFor(base: Duration, idx: nat): Duration {
    if base == 0 then 0 else Min(SaturatingMul(base, Multiplier(idx)), CAP)
  }

  // ----- the intended schedule -----

  function Ideal(base: Duration, idx: nat): nat {
    Min(base * Pow2(idx), CAP)
  }

  lemma {:induction false} Pow2Monotone(m: nat, n: nat)
    requires m <= n
    ensures Pow2(m) <= Pow2(n)
  {
    if m < n {
      Pow2Monotone(m, n - 1);
    }
  }

  lemma Pow2At32()
    ensures Pow2(31) == 0x8000_0000 && Pow2(32) == 0x1_0000_0000
  {
    assert Pow2(8) == 0x100;
    assert Pow2(16) == 0x1_0000;
    assert Pow2(24) == 0x100_0000;
    assert Pow2(31) == 0x8000_0000;
  }

  lemma MultiplierMonotone(i: nat, j: nat)
    requires i <= j
    ensures 1 <= Multiplier(i) <= Multiplier(j) <= U32_MAX
  {
    Pow2At32();
    Pow2Monotone(i, if i < 31 then 31 else i);
    Pow2Monotone(j, if j < 31 then 31 else j);
    Pow2Monotone(i, j);
  }

  lemma TimesMonotone(d: nat, m: nat, n: nat)
    requires m <= n
    ensures d * m <= d * n
  {
  }

  /** A later retry never waits less. */
  lemma BackoffIsMonotone(base: Duration, i: nat, j: nat)
    requires i <= j
    ensures BackoffFor(base, i) <= BackoffFor(base, j) <= CAP
  {
    MultiplierMonotone(i, j);
    TimesMonotone(base, Multiplier(i), Multiplier(j));
  }

  lemma BackoffIsIdealBelow32(base: Duration, idx: nat)
    requires idx < 32
    ensures BackoffFor(base, idx) == Ideal(base, idx)
  {
  }

  lemma PastTheShift(base: Duration, idx: nat)
    requires idx >= 32
    ensures base >= 14 ==> BackoffFor(base, idx) == CAP == Ideal(base, idx)
  {
    if base >= 14 {
      Pow2At32();
      Pow2Monotone(32, idx);
      TimesMonotone(base, U32_MAX, Pow2(idx));
      assert 14 * U32_MAX <= base * U32_MAX;
    }
  }

  /** The code follows the intended schedule at every index exactly when the base is zero or at least 14 ns. */
  lemma BackoffIsIdealExactly(base: Duration)
    ensures (forall idx: nat :: BackoffFor(base, idx) == Ideal(base, idx)) <==> base == 0 || base >= 14
  {
    if base == 0 || base >= 14 {
      forall idx: nat ensures BackoffFor(base, idx) == Ideal(base, idx) {
        if idx < 32 {
          BackoffIsIdealBelow32(base, idx);
        } else {
          PastTheShift(base, idx);
        }
      }
    } else {
      Pow2At32();
      assert BackoffFor(base, 32) == base * U32_MAX;
      assert Ideal(base, 32) == base * 0x1_0000_0000;
    }
  }

  // ----- sleeping in one rung -----

  function TotalSleep(base: Duration, retries: nat): nat {
    if retries == 0 then 0 else TotalSleep(base, retries - 1) + BackoffFor(base, retries - 1)
  }

  lemma {:induction false} TotalSleepIsBounded(base: Duration, retries: nat, maxRetries: nat)
    requires retries <= maxRetries
    ensures TotalSleep(base, retries) <= CAP * maxRetries
  {
    if retries > 0 {
      TotalSleepIsBounded(base, retries - 1, maxRetries - 1);
      BackoffIsMonotone(base, retries - 1, retries - 1);
    }
  }
}
