/** The start-up failure backoff (recordStartupFailLocked). */
module Backoff {

  const SECOND: nat := 1_000_000_000
  const MAX_STARTUP_BACKOFF: nat := 300 * SECOND
  const FAIL_BACKOFF: nat := 30 * SECOND

  function Pow2(n: nat): nat { if n == 0 then 1 else 2 * Pow2(n - 1) }

  function Min(a: nat, b: nat): nat { if a < b then a else b }

  /** The wait after the n-th failure in a row: doubling from base, capped. */
  function Delay(base: nat, n: nat): nat
    requires n >= 2
  {
    Min(MAX_STARTUP_BACKOFF, base * Pow2(n - 2))
  }

  lemma {:induction false} Pow2Monotone(a: nat, b: nat)
    requires a <= b
    ensures 1 <= Pow2(a) <= Pow2(b)
    decreases b
  {
    if a < b {
      Pow2Monotone(a, b - 1);
    } else if a > 0 {
      Pow2Monotone(a - 1, b - 1);
    }
  }

  lemma ScaleMonotone(base: nat, a: nat, b: nat)
    requires a <= b
    ensures base * a <= base * b
  {
    assert base * (b - a) >= 0;
  }

  /** More failures never shorten the wait. */
  lemma DelayMonotone(base: nat, m: nat, n: nat)
    requires 2 <= m <= n
    ensures Delay(base, m) <= Delay(base, n) <= MAX_STARTUP_BACKOFF
  {
    Pow2Monotone(m - 2, n - 2);
    ScaleMonotone(base, Pow2(m - 2), Pow2(n - 2));
  }

  /** The doubling loop.  peak is the largest value the variable ever held: below
      twice the cap whenever the base is, so a 64-bit duration cannot overflow. */
  method ComputeDelay(base: nat, n: nat) returns (backoff: nat, ghost peak: nat)
    requires n >= 2
    ensures backoff == Delay(base, n)
    ensures peak <= if base <= 2 * MAX_STARTUP_BACKOFF then 2 * MAX_STARTUP_BACKOFF else base
  {
    backoff, peak := base, base;
    var i := 1;
    while i < n - 1 && backoff < MAX_STARTUP_BACKOFF
      invariant 1 <= i <= n - 1
      invariant backoff == base * Pow2(i - 1)
      invariant backoff <= peak
      invariant peak <= if base <= 2 * MAX_STARTUP_BACKOFF then 2 * MAX_STARTUP_BACKOFF else base
    {
      assert base * (2 * Pow2(i - 1)) == 2 * (base * Pow2(i - 1));
      backoff := backoff * 2;
      peak := if peak < backoff then backoff else peak;
      i := i + 1;
    }
    if i < n - 1 {
      Pow2Monotone(i - 1, n - 2);
      ScaleMonotone(base, Pow2(i - 1), Pow2(n - 2));
    }
    if backoff > MAX_STARTUP_BACKOFF {
      backoff := MAX_STARTUP_BACKOFF;
    }
  }
}
