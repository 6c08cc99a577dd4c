/** The relay's and the sender's full-jitter backoff, and what a whole retry series waits. */
module Backoff {
  function Pow2(n: nat): (p: nat)
    ensures p >= 1
  {
    if n == 0 then 1 else 2 * Pow2(n - 1)
  }

  function Min(a: nat, b: nat): nat { if a < b then a else b }

  /** Math.floor(random * limit). */
  function Jitter(limit: nat, random: real): int {
    (random * limit as real).Floor
  }

  /** The random share of min(cap, base * 2^(attempts-1)), random drawn from [0, 1). */
  function Delay(base: nat, cap: nat, attempts: nat, random: real): int
    requires attempts >= 1
  {
    Jitter(Min(cap, base * Pow2(attempts - 1)), random)
  }

  predicate Random(r: real) { 0.0 <= r < 1.0 }

  lemma {:induction false} JitterIsBelow(limit: nat, random: real)
    requires limit >= 1 && Random(random)
    ensures 0 <= Jitter(limit, random) < limit
  {
    Scaled(random, limit as real);
    FloorIsBelow(random * limit as real, limit);
  }

  lemma {:induction false} FloorIsBelow(x: real, limit: nat)
    requires 0.0 <= x < limit as real
    ensures 0 <= x.Floor < limit
  {
    assert x.Floor as real <= x;
  }

  lemma {:induction false} Scaled(r: real, x: real)
    requires Random(r) && x > 0.0
    ensures 0.0 <= r * x < x
  {
    assert (1.0 - r) * x > 0.0;
    assert r * x + (1.0 - r) * x == x;
  }

  lemma {:induction false} ProductIsPositive(a: nat, b: nat)
    requires a >= 1 && b >= 1
    ensures a * b >= 1
  {
  }

  lemma {:induction false} DelayIsBelow(base: nat, cap: nat, attempts: nat, random: real)
    requires base >= 1 && cap >= 1 && attempts >= 1 && Random(random)
    ensures 0 <= Delay(base, cap, attempts, random) < Min(cap, base * Pow2(attempts - 1))
  {
    ProductIsPositive(base, Pow2(attempts - 1));
    JitterIsBelow(Min(cap, base * Pow2(attempts - 1)), random);
  }

  /** Full jitter: every delay below the bound is some draw's. */
  lemma {:induction false} EveryDelayIsDrawn(base: nat, cap: nat, attempts: nat, delay: nat) returns (random: real)
    requires base >= 1 && cap >= 1 && attempts >= 1 && delay < Min(cap, base * Pow2(attempts - 1))
    ensures Random(random) && Delay(base, cap, attempts, random) == delay
  {
    var limit := Min(cap, base * Pow2(attempts - 1));
    random := delay as real / limit as real;
    assert random * limit as real == delay as real;
    ShareIsBelowOne(delay, limit);
  }

  lemma {:induction false} ShareIsBelowOne(part: nat, whole: nat)
    requires part < whole
    ensures 0.0 <= part as real / whole as real < 1.0
  {
    var share := part as real / whole as real;
    assert share * whole as real == part as real;
    assert share >= 1.0 ==> share * whole as real >= whole as real;
  }

  method DrawDelay(base: nat, cap: nat, attempts: nat) returns (delay: int)
    requires base >= 1 && cap >= 1 && attempts >= 1
    ensures 0 <= delay < Min(cap, base * Pow2(attempts - 1))
  {
    var random: real :| Random(random);
    DelayIsBelow(base, cap, attempts, random);
    delay := Delay(base, cap, attempts, random);
  }

  /** Everything a row waits for its first |randoms| retries. */
  function TotalDelay(base: nat, cap: nat, randoms: seq<real>): int {
    if randoms == [] then 0
    else TotalDelay(base, cap, randoms[..|randoms| - 1]) + Delay(base, cap, |randoms|, randoms[|randoms| - 1])
  }

  /**
   * A row that fails every time waits maxAttempts - 1 times before it is FAILED; the
   * sum stays below (max - 1) * cap and below base * (2^(max-1) - 1).
   */
  lemma {:induction false} RetrySeriesIsBounded(base: nat, cap: nat, maxAttempts: nat, randoms: seq<real>)
    requires base >= 1 && cap >= 1 && maxAttempts >= 2 && |randoms| == maxAttempts - 1
    requires forall i | 0 <= i < |randoms| :: Random(randoms[i])
    ensures 0 <= TotalDelay(base, cap, randoms)
    ensures TotalDelay(base, cap, randoms) < (maxAttempts - 1) * cap
    ensures TotalDelay(base, cap, randoms) < base * (Pow2(maxAttempts - 1) - 1)
    decreases maxAttempts
  {
    var last := |randoms| - 1;
    DelayIsBelow(base, cap, |randoms|, randoms[last]);
    OneMoreRetry(base, cap, last);
    if maxAttempts == 2 {
      assert randoms[..last] == [];
    } else {
      RetrySeriesIsBounded(base, cap, maxAttempts - 1, randoms[..last]);
    }
  }

  lemma {:induction false} OneMoreRetry(base: nat, cap: nat, n: nat)
    ensures base * (Pow2(n + 1) - 1) == base * (Pow2(n) - 1) + base * Pow2(n)
    ensures (n + 1) * cap == n * cap + cap
    ensures n == 0 ==> base * (Pow2(n) - 1) == 0 && n * cap == 0
  {
    var p := Pow2(n);
    assert Pow2(n + 1) - 1 == (p - 1) + p;
    assert base * ((p - 1) + p) == base * (p - 1) + base * p;
  }
}
