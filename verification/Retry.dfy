/** The resetting exponential back-off of the `retry` package, in whole milliseconds. */
module Retry {
  import opened Powers

  datatype Retryer = Retryer(geometricRatio: real, initialDelay: int, maxDelay: int, maxAttempts: int)

  /** Go's conversion of a float to an integer: towards zero. */
  function Truncate(x: real): int {
    if x < 0.0 then -((-x).Floor) else x.Floor
  }

  function NextSleepTime(r: Retryer, attempt: nat): int {
    Truncate(r.initialDelay as real * Pow(r.geometricRatio, attempt))
  }

  /** A sleep is the delay cut to whole milliseconds, towards zero. */
  lemma SleepIsCut(r: Retryer, attempt: nat)
    ensures var exact, sleep := r.initialDelay as real * Pow(r.geometricRatio, attempt), NextSleepTime(r, attempt);
            && (exact >= 0.0 ==> 0 <= sleep && sleep as real <= exact < sleep as real + 1.0)
            && (exact <= 0.0 ==> sleep <= 0 && sleep as real - 1.0 < exact <= sleep as real)
  {
  }

  function Pow2(n: nat): (p: nat)
    ensures p > 0
  {
    if n == 0 then 1 else 2 * Pow2(n - 1)
  }

  /** How many of the delays `delay`, `2 * delay`, `4 * delay`, ... are at most `max`. */
  function Fitting(delay: int, max: int): nat
    requires delay >= 1
    decreases max - delay
  {
    if delay > max then 0 else 1 + Fitting(2 * delay, max)
  }

  /** The number of sleeps after which the back-off starts over. */
  function Period(r: Retryer): (p: nat)
    requires r.initialDelay >= 1
    ensures p >= 1
  {
    var k := Fitting(r.initialDelay, r.maxDelay);
    if k == 0 then 1 else k
  }

  lemma {:induction false} PowTwo(n: nat)
    ensures Pow(2.0, n) == Pow2(n) as real
  {
    if n > 0 {
      PowTwo(n - 1);
    }
  }

  lemma DoublingSleep(r: Retryer, attempt: nat)
    requires r.geometricRatio == 2.0 && r.initialDelay >= 0
    ensures NextSleepTime(r, attempt) == r.initialDelay * Pow2(attempt)
  {
    PowTwo(attempt);
    assert r.initialDelay as real * Pow2(attempt) as real == (r.initialDelay * Pow2(attempt)) as real;
  }

  /** A doubled delay stays within the limit exactly as long as its exponent is below the count. */
  lemma {:induction false} FittingExponents(delay: int, max: int, attempt: nat)
    requires delay >= 1
    ensures delay * Pow2(attempt) <= max <==> attempt < Fitting(delay, max)
    decreases attempt
  {
    if attempt > 0 {
      FittingExponents(2 * delay, max, attempt - 1);
      assert delay * Pow2(attempt) == (2 * delay) * Pow2(attempt - 1);
      Pow2Grows(delay, attempt);
    }
  }

  lemma Pow2Grows(delay: int, n: nat)
    requires delay >= 1
    ensures delay <= delay * Pow2(n)
  {
  }

  /** The attempt counter before the sleep numbered `i`. */
  function Counter(i: nat, p: nat): nat
    requires p >= 1
  {
    if i == 0 then 0 else (i - 1) % p + 1
  }

  lemma CounterWraps(i: nat, p: nat)
    requires p >= 1
    ensures Counter(i, p) == if i > 0 && i % p == 0 then p else i % p
    ensures Counter(i + 1, p) == i % p + 1
  {
    if i > 0 {
      var q, m := (i - 1) / p, (i - 1) % p;
      assert i == q * p + (m + 1);
      if m + 1 < p {
        DivModUnique(i, p, q, m + 1);
      } else {
        assert i == (q + 1) * p;
        DivModUnique(i, p, q + 1, 0);
      }
    }
  }

  lemma DivModUnique(x: nat, p: nat, q: nat, m: nat)
    requires p >= 1 && x == q * p + m && m < p
    ensures x % p == m
  {
    var k := q - x / p;
    assert k * p == x % p - m;
    Multiple(k, p);
  }

  lemma Multiple(k: int, p: nat)
    ensures k >= 1 ==> k * p >= p
    ensures k <= -1 ==> k * p + p <= 0
  {
  }

  /**
   `Call`. `succeeds(k)` tells whether the k-th invocation of the operation succeeds. A negative `maxAttempts` means
   no limit; the call then returns only if some invocation succeeds.
   */
  method Call(r: Retryer, succeeds: nat -> bool) returns (ok: bool, calls: nat, sleeps: seq<int>)
    requires r.maxAttempts >= 0 || exists k: nat :: succeeds(k)
    // exactly min(first success, maxAttempts + 1) invocations, or up to the first success without a limit
    ensures 1 <= calls && (r.maxAttempts >= 0 ==> calls <= r.maxAttempts + 1)
    ensures forall k :: 0 <= k < calls - 1 ==> !succeeds(k)
    ensures ok == succeeds(calls - 1)
    ensures ok || calls == r.maxAttempts + 1
    // one sleep between consecutive invocations, none above the limit unless the first delay is
    ensures |sleeps| == calls - 1
    ensures forall i :: 0 <= i < |sleeps| ==> sleeps[i] <= r.maxDelay || sleeps[i] == NextSleepTime(r, 0)
    // for doubling delays, the closed form
    ensures r.geometricRatio == 2.0 && r.initialDelay >= 1 ==>
              forall i :: 0 <= i < |sleeps| ==> sleeps[i] == r.initialDelay * Pow2(i % Period(r))
  {
    var attempt, failedAttemptsSoFar := 0, 0;
    calls, sleeps := 0, [];
    ghost var doubling := r.geometricRatio == 2.0 && r.initialDelay >= 1;
    ghost var last: nat :| r.maxAttempts < 0 ==> succeeds(last);
    while true
      invariant 0 <= failedAttemptsSoFar && calls == failedAttemptsSoFar == |sleeps|
      invariant if r.maxAttempts >= 0 then failedAttemptsSoFar <= r.maxAttempts else failedAttemptsSoFar <= last
      invariant forall k :: 0 <= k < calls ==> !succeeds(k)
      invariant forall i :: 0 <= i < |sleeps| ==> sleeps[i] <= r.maxDelay || sleeps[i] == NextSleepTime(r, 0)
      invariant doubling ==> attempt == Counter(|sleeps|, Period(r))
      invariant doubling ==> forall i :: 0 <= i < |sleeps| ==> sleeps[i] == r.initialDelay * Pow2(i % Period(r))
      decreases (if r.maxAttempts >= 0 then r.maxAttempts else last) - failedAttemptsSoFar
    {
      ok := succeeds(calls);
      calls := calls + 1;
      if ok || failedAttemptsSoFar == r.maxAttempts {
        return;
      }
      if doubling {
        StepOfCall(r, |sleeps|);
      }
      var sleep := NextSleepTime(r, attempt);
      if sleep > r.maxDelay {
        attempt := 0;
        sleep := NextSleepTime(r, attempt);
      }
      sleeps := sleeps + [sleep];
      attempt := attempt + 1;
      failedAttemptsSoFar := failedAttemptsSoFar + 1;
    }
  }

  /** The reset happens exactly at the multiples of the period. */
  lemma StepOfCall(r: Retryer, i: nat)
    requires r.geometricRatio == 2.0 && r.initialDelay >= 1
    ensures var p, a := Period(r), Counter(i, Period(r));
            var a' := if NextSleepTime(r, a) > r.maxDelay then 0 else a;
            && a' == i % p
            && NextSleepTime(r, a') == r.initialDelay * Pow2(i % p)
            && Counter(i + 1, p) == a' + 1
  {
    var p, a := Period(r), Counter(i, Period(r));
    CounterWraps(i, p);
    DoublingSleep(r, a);
    DoublingSleep(r, i % p);
    FittingExponents(r.initialDelay, r.maxDelay, a);
    assert 0 <= i % p < p;
  }
}
