/**
 The retransmission timer, after section 2 of RFC 6298, in real arithmetic and milliseconds.
 */
module Estimator {
  import opened Powers

  const CLOCK_GRANULARITY := 10.0
  const MAX_TIMEOUT := 1000.0

  function Abs(x: real): (r: real)
    ensures r >= 0.0 && (r == x || r == -x)
  {
    if x < 0.0 then -x else x
  }

  function Max(x: real, y: real): real {
    if x > y then x else y
  }

  function Min(x: real, y: real): real {
    if x < y then x else y
  }

  datatype Timer = Timer(srtt: real, rttvar: real, timeout: real)

  /** SRTT 100 ms, RTTVAR 0, timeout 200 ms. */
  const INITIAL := Timer(100.0, 0.0, 200.0)

  function Timeout(srtt: real, rttvar: real): real {
    Min(MAX_TIMEOUT, srtt + Max(CLOCK_GRANULARITY, 4.0 * rttvar))
  }

  /** One round-trip sample. RTTVAR is updated before SRTT, from the old SRTT. */
  function Sample(t: Timer, r: real): Timer {
    var rttvar := 0.75 * t.rttvar + 0.25 * Abs(t.srtt - r);
    var srtt := 0.875 * t.srtt + 0.125 * r;
    Timer(srtt, rttvar, Timeout(srtt, rttvar))
  }

  function Samples(t: Timer, rs: seq<real>): Timer
    decreases |rs|
  {
    if rs == [] then t else Samples(Sample(t, rs[0]), rs[1..])
  }

  ghost predicate Within(rs: seq<real>, lo: real, hi: real) {
    forall i :: 0 <= i < |rs| ==> lo <= rs[i] <= hi
  }

  /** Samples inside an interval keep the average inside it, the variation below its width and the timeout bounded. */
  lemma {:induction false} Bounded(t: Timer, rs: seq<real>, lo: real, hi: real)
    requires lo <= t.srtt <= hi && 0.0 <= t.rttvar <= hi - lo && Within(rs, lo, hi)
    ensures var u := Samples(t, rs);
            && lo <= u.srtt <= hi
            && 0.0 <= u.rttvar <= hi - lo
            && (rs != [] ==> Min(MAX_TIMEOUT, lo + CLOCK_GRANULARITY) <= u.timeout)
            && (rs != [] ==> u.timeout <= Min(MAX_TIMEOUT, hi + Max(CLOCK_GRANULARITY, 4.0 * (hi - lo))))
    decreases |rs|
  {
    if rs != [] {
      Bounded(Sample(t, rs[0]), rs[1..], lo, hi);
      if |rs| == 1 {
        assert Samples(t, rs) == Sample(t, rs[0]);
      }
    }
  }

  function Repeat(t: Timer, r: real, n: nat): Timer {
    if n == 0 then t else Sample(Repeat(t, r, n - 1), r)
  }

  /** `x` times the n-th power of seven eighths. */
  function Decay8(x: real, n: nat): real {
    if n == 0 then x else 0.875 * Decay8(x, n - 1)
  }

  /** `x` times the n-th power of three quarters. */
  function Decay4(x: real, n: nat): real {
    if n == 0 then x else 0.75 * Decay4(x, n - 1)
  }

  lemma {:induction false} DecayAbs(x: real, n: nat)
    ensures Abs(Decay8(x, n)) == Decay8(Abs(x), n)
  {
    if n > 0 {
      DecayAbs(x, n - 1);
    }
  }

  /**
   Under a constant round trip the average converges geometrically,
   and the variation follows the difference of the two geometric decays.
   */
  lemma {:induction false} Convergence(t: Timer, r: real, n: nat)
    ensures Repeat(t, r, n).srtt - r == Decay8(t.srtt - r, n)
    ensures Repeat(t, r, n).rttvar ==
            Decay4(t.rttvar, n) + 2.0 * (Decay8(Abs(t.srtt - r), n) - Decay4(Abs(t.srtt - r), n))
  {
    if n > 0 {
      Convergence(t, r, n - 1);
      DecayAbs(t.srtt - r, n - 1);
    }
  }

  /** The decays are powers, so the closed forms are (7/8)^n and (3/4)^n times the initial deviations. */
  lemma {:induction false} DecayIsPower(x: real, n: nat)
    ensures Decay8(x, n) == x * Pow(0.875, n)
    ensures Decay4(x, n) == x * Pow(0.75, n)
  {
    if n > 0 {
      DecayIsPower(x, n - 1);
      Associative(0.875, x, Pow(0.875, n - 1));
      Associative(0.75, x, Pow(0.75, n - 1));
    }
  }

  lemma Associative(c: real, x: real, p: real)
    ensures c * (x * p) == x * (c * p)
  {
  }

  /** The same samples fed one by one or counted. */
  lemma {:induction false} RepeatIsSamples(t: Timer, r: real, n: nat)
    ensures Repeat(t, r, n) == Samples(t, seq(n, _ => r))
    decreases n
  {
    if n > 0 {
      RepeatShift(t, r, n - 1);
      RepeatIsSamples(Sample(t, r), r, n - 1);
      assert seq(n, _ => r)[1..] == seq(n - 1, _ => r);
    }
  }

  lemma {:induction false} RepeatShift(t: Timer, r: real, n: nat)
    ensures Repeat(t, r, n + 1) == Repeat(Sample(t, r), r, n)
  {
    if n > 0 {
      RepeatShift(t, r, n - 1);
    }
  }

  /** The timeout in numbers: the average plus four variations or ten milliseconds, at most a second. */
  lemma TimeoutValue(srtt: real, rttvar: real)
    ensures Timeout(srtt, rttvar) ==
            var margin := if 4.0 * rttvar < 10.0 then 10.0 else 4.0 * rttvar;
            if srtt + margin > 1000.0 then 1000.0 else srtt + margin
  {
  }

  /** The timeout after n equal samples, written out. */
  lemma TimeoutAfter(t: Timer, r: real, n: nat)
    requires n > 0
    ensures var deviation := Abs(t.srtt - r);
            var srtt := r + Decay8(t.srtt - r, n);
            var rttvar := Decay4(t.rttvar, n) + 2.0 * (Decay8(deviation, n) - Decay4(deviation, n));
            var margin := if 4.0 * rttvar < 10.0 then 10.0 else 4.0 * rttvar;
            Repeat(t, r, n).timeout == if srtt + margin > 1000.0 then 1000.0 else srtt + margin
  {
    Convergence(t, r, n);
    TimeoutValue(Repeat(t, r, n).srtt, Repeat(t, r, n).rttvar);
  }
}
