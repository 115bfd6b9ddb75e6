/**
 * Exponential backoff of src/utils/backoff.ts: the delay `baseMs * 2^attempt`
 * for a zero-based attempt index, and the delay sleepWithBackoff waits for.
 */
module Backoff {

  /** 2^k */
  function Pow2(k: nat): (r: nat)
    ensures r >= 1
  {
    if k == 0 then 1 else 2 * Pow2(k - 1)
  }

  /** calculateBackoff(attempt, baseMs) */
  function CalculateBackoff(attempt: nat, baseMs: int): int {
    baseMs * Pow2(attempt)
  }

  /** Attempt 0 waits the base delay. */
  lemma BackoffAtZero(baseMs: int)
    ensures CalculateBackoff(0, baseMs) == baseMs
  {
  }

  /** Each further attempt doubles the delay. */
  lemma BackoffDoubles(attempt: nat, baseMs: int)
    ensures CalculateBackoff(attempt + 1, baseMs) == 2 * CalculateBackoff(attempt, baseMs)
  {
    assert Pow2(attempt + 1) == 2 * Pow2(attempt);
    assert baseMs * (2 * Pow2(attempt)) == 2 * (baseMs * Pow2(attempt));
  }

  /** For a non-negative base the delay never shrinks as the attempt grows. */
  lemma {:induction false} BackoffMonotone(i: nat, j: nat, baseMs: int)
    requires baseMs >= 0 && i <= j
    ensures CalculateBackoff(i, baseMs) <= CalculateBackoff(j, baseMs)
  {
    if i < j {
      BackoffMonotone(i, j - 1, baseMs);
      BackoffDoubles(j - 1, baseMs);
    }
  }

  /** The values the utility tests expect: base 500 gives 500, 1000, 2000, 4000; (1, 100) gives 200. */
  lemma BackoffTestVectors()
    ensures CalculateBackoff(0, 500) == 500
    ensures CalculateBackoff(1, 500) == 1000
    ensures CalculateBackoff(2, 500) == 2000
    ensures CalculateBackoff(3, 500) == 4000
    ensures CalculateBackoff(1, 100) == 200
  {
    assert Pow2(3) == 8;
  }

  /**
   * sleepWithBackoff(attempt, baseMs): the delay it hands to the timer
   * (the wait itself is not modelled).
   */
  method SleepWithBackoff(attempt: nat, baseMs: int) returns (delay: int)
    ensures delay == CalculateBackoff(attempt, baseMs)
    ensures attempt == 0 ==> delay == baseMs
    ensures baseMs >= 0 ==> delay >= baseMs
  {
    delay := CalculateBackoff(attempt, baseMs);
    if baseMs >= 0 {
      BackoffMonotone(0, attempt, baseMs);
    }
  }
}
