/** Retry delays: exponential, capped, with up to half again of jitter. In nanoseconds. */
module Backoff {
  import opened Processing

  const BASE := 100_000_000
  const CAP := 30_000_000_000

  function Pow2(n: nat): (r: nat)
    ensures r >= 1
  {
    if n == 0 then 1 else 2 * Pow2(n - 1)
  }

  lemma {:induction false} Fraction(h: real, d: real)
    requires h > 0.0 && 0.0 <= d < 1.0
    ensures 0.0 <= h * d < h
  {
    assert h * d < h * 1.0 by {
      assert h * (1.0 - d) > 0.0;
    }
  }

  /** A random part of `h`. */
  function PartOf(h: real, draw: real): (r: real)
    requires h > 0.0 && 0.0 <= draw < 1.0
    ensures 0.0 <= r < h
  {
    Fraction(h, draw);
    h * draw
  }

  /** `draw` is rand.Float64(); the conversion to a Duration drops the fraction. */
  function Delay(attempt: nat, draw: real): int
    requires 0.0 <= draw < 1.0
  {
    var exponential := BASE as real * Pow2(attempt) as real;
    var delay := if exponential > CAP as real then CAP as real else exponential;
    (delay + PartOf(delay * 0.5, draw)).Floor
  }

  /** The delay without jitter: the lesser of 100ms doubled n times and 30s. */
  function Nominal(n: nat): int {
    if BASE * Pow2(n) > CAP then CAP else BASE * Pow2(n)
  }

  lemma FloorBetween(a: int, b: int, y: real)
    requires a as real <= y < b as real
    ensures a <= y.Floor < b
  {
  }

  lemma {:induction false} JitterFloor(x: int, jitter: real)
    requires x % 2 == 0 && 0.0 <= jitter < x as real * 0.5
    ensures x <= (x as real + jitter).Floor < x + x / 2
  {
    var half := x / 2;
    assert x == 2 * half;
    assert (x + half) as real == x as real + x as real * 0.5;
    FloorBetween(x, x + half, x as real + jitter);
  }

  /** Whatever the draw, the delay lies between the nominal delay and 1.5 times it. */
  lemma {:induction false} DelayBounds(n: nat, draw: real)
    requires 0.0 <= draw < 1.0
    ensures Nominal(n) <= Delay(n, draw) < Nominal(n) + Nominal(n) / 2
    ensures Delay(n, draw) < 45_000_000_000
  {
    var x := Nominal(n);
    assert x > 0 && x % 2 == 0;
    JitterFloor(x, PartOf(x as real * 0.5, draw));
  }

  /** The nominal delay starts at 100ms and doubles up to 30s. */
  lemma {:induction false} NominalDoubles(n: nat)
    ensures Nominal(0) == 100_000_000
    ensures Nominal(n + 1) == if 2 * Nominal(n) < 30_000_000_000 then 2 * Nominal(n) else 30_000_000_000
  {
    assert Pow2(n + 1) == 2 * Pow2(n) && Pow2(0) == 1;
  }

  /** The draw adds that share of half the nominal delay; fractions of a nanosecond are dropped. */
  lemma {:induction false} DelayIsJittered(n: nat, draw: real)
    requires 0.0 <= draw < 1.0
    ensures Delay(n, draw) == (Nominal(n) as real + Nominal(n) as real * 0.5 * draw).Floor
  {
    var x := Nominal(n) as real;
    assert PartOf(x * 0.5, draw) == x * 0.5 * draw;
  }

  lemma {:induction false} Pow2Grows(m: nat, n: nat)
    requires m <= n
    ensures Pow2(m) <= Pow2(n)
    decreases n - m
  {
    if m < n {
      Pow2Grows(m + 1, n);
    }
  }

  /** Attempt `n` never waits as long as attempt `m`. */
  ghost predicate AlwaysShorter(n: nat, m: nat) {
    forall d, e :: 0.0 <= d < 1.0 && 0.0 <= e < 1.0 ==> Delay(n, d) < Delay(m, e)
  }

  /** Every retry waits longer than the one before, whatever the draws, up to attempt 8 and no further. */
  lemma {:induction false} StrictlyIncreasingIffBelowCap(n: nat)
    ensures AlwaysShorter(n, n + 1) <==> n < 8
  {
    assert Pow2(4) == 16 && Pow2(8) == 16 * 16 by {
      assert Pow2(6) == 64;
    }
    if n < 8 {
      Pow2Grows(n + 1, 8);
      var m := n + 1;
      forall d, e | 0.0 <= d < 1.0 && 0.0 <= e < 1.0 ensures Delay(n, d) < Delay(m, e) {
        DelayBounds(n, d);
        DelayBounds(m, e);
      }
    } else {
      Pow2Grows(8, n);
      assert Delay(n + 1, 0.0) == CAP;
      assert Delay(n, 0.5) >= CAP;
    }
  }

  /** The time slept for the given arguments of backoff and draws. */
  function Total(attempts: seq<nat>, draws: seq<real>): int
    requires |attempts| == |draws| && forall k :: 0 <= k < |draws| ==> 0.0 <= draws[k] < 1.0
  {
    if attempts == [] then 0
    else Total(attempts[..|attempts| - 1], draws[..|draws| - 1]) + Delay(attempts[|attempts| - 1], draws[|draws| - 1])
  }

  lemma {:induction false} TotalBound(n: nat, draws: seq<real>)
    requires |draws| == |UpTo(n)| && forall k :: 0 <= k < |draws| ==> 0.0 <= draws[k] < 1.0
    ensures |UpTo(n)| == n
    ensures Total(UpTo(n), draws) <= 150_000_000 * (Pow2(n) - 1)
    ensures n > 0 ==> Total(UpTo(n), draws) < 150_000_000 * (Pow2(n) - 1)
    ensures Total(UpTo(n), draws) <= 45_000_000_000 * n
    decreases n
  {
    if n > 0 {
      assert UpTo(n)[..|UpTo(n)| - 1] == UpTo(n - 1);
      TotalBound(n - 1, draws[..|draws| - 1]);
      DelayBounds(n - 1, draws[|draws| - 1]);
    }
  }

  /**
   * A worker that meets no rejection and no hold sleeps, over all its retries, less than
   * 150ms * (2^MaxRetries - 1) and at most 45s per retry.
   */
  lemma {:induction false} RoundSleepsBounded(max: nat, trace: seq<Effect>, draws: seq<real>)
    requires Follow(max, trace).Some? && Plain(trace)
    requires |draws| == |Backoffs(trace)| && forall k :: 0 <= k < |draws| ==> 0.0 <= draws[k] < 1.0
    ensures |Backoffs(trace)| <= max
    ensures Total(Backoffs(trace), draws) <= 45_000_000_000 * max
    ensures max > 0 ==> Total(Backoffs(trace), draws) < 150_000_000 * (Pow2(max) - 1)
  {
    BackoffsCountUp(max, trace);
    var n: nat :| n <= max && Backoffs(trace) == UpTo(n);
    TotalBound(n, draws);
    Pow2Grows(n, max);
    if max > 0 {
      Pow2Grows(1, max);
    }
  }
}
