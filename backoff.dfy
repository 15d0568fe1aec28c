/** The delay rule used between two attempts on one provider
    (src/utils/ExponentialBackoff.ts). Only the delay is modelled; the timer
    that waits for it is not. */
module Backoff {

  /** Multiplier applied to the power of two. */
  const BaseDelay: nat := 100

  /** The cap applied when the caller passes no `maxDelay`. */
  const DefaultMaxDelay: int := 10000

  /** 2 to the power `n`, on natural numbers. */
  function Pow2(n: nat): (r: nat)
    ensures r >= 1
  {
    if n == 0 then 1 else 2 * Pow2(n - 1)
  }

  /** The delay, in milliseconds, waited after the failed attempt number
      `attempt`: the uncapped value `BaseDelay * 2^attempt`, cut down to
      `maxDelay` when it is larger. */
  function Delay(attempt: nat, maxDelay: int): (d: int)
    ensures d <= maxDelay
    ensures d <= BaseDelay * Pow2(attempt)
    ensures d == maxDelay || d == BaseDelay * Pow2(attempt)
  {
    var uncapped := BaseDelay * Pow2(attempt);
    if uncapped <= maxDelay then uncapped else maxDelay
  }

  lemma {:induction false} Pow2Monotone(a: nat, b: nat)
    requires a <= b
    ensures Pow2(a) <= Pow2(b)
    decreases b - a
  {
    if a < b {
      Pow2Monotone(a, b - 1);
    }
  }

  /** For a fixed cap, a later attempt never waits less. */
  lemma DelayMonotone(a: nat, b: nat, maxDelay: int)
    requires a <= b
    ensures Delay(a, maxDelay) <= Delay(b, maxDelay)
  {
    Pow2Monotone(a, b);
  }

  /** While the next attempt's uncapped delay still fits under the cap, the
      delay doubles from one attempt to the next. */
  lemma DelayDoublesBelowCap(attempt: nat, maxDelay: int)
    requires BaseDelay * Pow2(attempt + 1) <= maxDelay
    ensures Delay(attempt + 1, maxDelay) == 2 * Delay(attempt, maxDelay)
  {
  }

  /** Once an attempt's delay has reached the cap, every later attempt waits
      exactly the cap. */
  lemma CapIsSticky(a: nat, b: nat, maxDelay: int)
    requires a <= b
    requires Delay(a, maxDelay) == maxDelay
    ensures Delay(b, maxDelay) == maxDelay
  {
    DelayMonotone(a, b, maxDelay);
  }

  /** The delays with the default cap of 10000 ms. */
  lemma DefaultDelays()
    ensures Delay(1, DefaultMaxDelay) == 200
    ensures Delay(2, DefaultMaxDelay) == 400
    ensures Delay(3, DefaultMaxDelay) == 800
    ensures Delay(5, DefaultMaxDelay) == 3200
    ensures Delay(6, DefaultMaxDelay) == 6400
    ensures Delay(7, DefaultMaxDelay) == DefaultMaxDelay
  {
    assert Pow2(7) == 128;
  }

  /** From attempt 7 on, the default cap is always what is waited. */
  lemma DefaultCapFromSeven(attempt: nat)
    requires attempt >= 7
    ensures Delay(attempt, DefaultMaxDelay) == DefaultMaxDelay
  {
    DefaultDelays();
    CapIsSticky(7, attempt, DefaultMaxDelay);
  }
}
