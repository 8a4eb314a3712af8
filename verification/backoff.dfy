/** Exponential backoff with jitter, shared by the reconnect loop and the outbox dispatcher. */
module Backoff {
  import opened Entities

  const BACKOFF_BASE := 2000
  const BACKOFF_CAP := 300000
  const U64_MAX := 0xFFFF_FFFF_FFFF_FFFF
  const U32_MAX := 0xFFFF_FFFF

  function Pow2(n: nat): (r: int)
    ensures r >= 1
  {
    if n == 0 then 1 else 2 * Pow2(n - 1)
  }

  function SaturatingMul(a: int, b: int): int {
    Min(a * b, U64_MAX)
  }

  /** The un-jittered delay: the exponent is clamped at 16, the product saturates at 64 bits. */
  function BackoffBase(attempt: nat): int {
    Min(SaturatingMul(BACKOFF_BASE, Pow2(Min(attempt, 16))), BACKOFF_CAP)
  }

  /** The jittered delays `backoff_delay` may draw. */
  predicate Jittered(attempt: nat, delay: int) {
    var base := BackoffBase(attempt);
    base / 2 <= delay <= Max(base, base / 2 + 1)
  }

  lemma {:induction false} Pow2Monotone(m: nat, n: nat)
    requires m <= n
    ensures Pow2(m) <= Pow2(n)
  {
    if m < n {
      Pow2Monotone(m, n - 1);
    }
  }

  /** Neither the clamp nor the saturation is ever visible: the delay is the plain capped doubling. */
  lemma BackoffIsCappedDoubling(attempt: nat)
    ensures BackoffBase(attempt) == Min(300000, 2000 * Pow2(attempt))
    ensures 2000 * Pow2(Min(attempt, 16)) <= U64_MAX
    ensures 2000 <= BackoffBase(attempt) <= 300000
  {
    assert Pow2(8) == 256 by {
      assert Pow2(4) == 16;
    }
    assert Pow2(16) == 65536 by {
      assert Pow2(12) == 4096;
    }
    Pow2Monotone(Min(attempt, 16), 16);
    if attempt > 8 {
      Pow2Monotone(8, Min(attempt, 16));
      Pow2Monotone(8, attempt);
    }
  }

  /** The delay doubles from two seconds on, and is five minutes from the ninth attempt on. */
  lemma DelaysByAttempt(attempt: nat)
    ensures BackoffBase(0) == 2000 && BackoffBase(7) == 256000
    ensures attempt < 7 ==> BackoffBase(attempt + 1) == 2 * BackoffBase(attempt)
    ensures attempt >= 8 ==> BackoffBase(attempt) == 300000
  {
    BackoffIsCappedDoubling(attempt);
    BackoffIsCappedDoubling(attempt + 1);
    assert Pow2(7) == 128 by {
      assert Pow2(4) == 16;
    }
    assert Pow2(8) == 2 * Pow2(7);
    if attempt < 7 {
      Pow2Monotone(attempt + 1, 7);
    } else if attempt >= 8 {
      Pow2Monotone(8, attempt);
    }
    BackoffIsCappedDoubling(0);
    BackoffIsCappedDoubling(7);
  }

  /** A jittered delay lies between half the base and the base, and every whole number between may be drawn. */
  lemma JitterBounds(attempt: nat, delay: int)
    ensures Jittered(attempt, delay) <==> BackoffBase(attempt) / 2 <= delay <= BackoffBase(attempt)
    ensures 2000 <= BackoffBase(attempt) <= 300000
  {
    BackoffIsCappedDoubling(attempt);
  }
}
