/** Agent version numbers and the features they gate. */
module Version {
  import opened Wrappers

  const TERMINATE_FLAG_AFTER := "2.3.722.0"
  const MULTIPLEXING_AFTER := "3.0.196.0"
  const KEEP_ALIVE_DISABLED_AFTER := "3.1.1511.0"

  // ---------- strings.Split and strconv.Atoi ----------

  /** The parts of `s` between dots; at least one. */
  function Split(s: string): (parts: seq<string>)
    ensures |parts| >= 1
  {
    if s == "" then [""]
    else
      var rest := Split(s[1..]);
      if s[0] == '.' then [""] + rest else [[s[0]] + rest[0]] + rest[1..]
  }

  predicate IsDigit(c: char) { '0' <= c <= '9' }

  function Digits(s: string): Option<nat> {
    if s == "" then Some(0)
    else if !IsDigit(s[|s| - 1]) then None
    else
      match Digits(s[..|s| - 1])
      case None => None
      case Some(n) => Some(10 * n + (s[|s| - 1] as int - '0' as int))
  }

  /** An optional sign and at least one digit, within 64 bits. */
  function Atoi(s: string): Option<int> {
    var signed := s != "" && (s[0] == '-' || s[0] == '+');
    var digits := if signed then s[1..] else s;
    if digits == "" then None
    else
      match Digits(digits)
      case None => None
      case Some(n) =>
        var magnitude: int := n;
        var v := if signed && s[0] == '-' then -magnitude else magnitude;
        if -0x8000_0000_0000_0000 <= v <= 0x7fff_ffff_ffff_ffff then Some(v) else None
  }

  // ---------- versionutil.go ----------

  type Number = n: seq<string> | |n| >= 1 witness [""]

  function NewVersion(s: string): Result<Number> {
    if s == "" then Err(Invalid) else Ok(Split(s))
  }

  /** The comparison of the components from the i-th on. A component is read only when all before it are equal. */
  function CompareFrom(a: seq<string>, b: seq<string>, i: nat): Result<int>
    requires |a| == |b| && i <= |a|
    decreases |a| - i
  {
    if i == |a| then Ok(0)
    else if Atoi(a[i]).None? || Atoi(b[i]).None? then Err(NotNumeric)
    else if Atoi(a[i]).value > Atoi(b[i]).value then Ok(1)
    else if Atoi(a[i]).value < Atoi(b[i]).value then Ok(-1)
    else CompareFrom(a, b, i + 1)
  }

  function Comparison(a: Number, b: Number): Result<int> {
    if |a| != |b| then Err(LengthMismatch) else CompareFrom(a, b, 0)
  }

  method Compare(a: Number, b: Number) returns (r: Result<int>)
    ensures r == Comparison(a, b)
  {
    if |a| != |b| {
      return Err(LengthMismatch);
    }
    for i := 0 to |a|
      invariant CompareFrom(a, b, 0) == CompareFrom(a, b, i)
    {
      var mine := Atoi(a[i]);
      if mine.None? {
        return Err(NotNumeric);
      }
      var other := Atoi(b[i]);
      if other.None? {
        return Err(NotNumeric);
      }
      if mine.value > other.value {
        return Ok(1);
      } else if mine.value < other.value {
        return Ok(-1);
      }
    }
    return Ok(0);
  }

  // ---------- versionvalidator.go ----------

  function NewerThan(agentVersion: string, supportedVersion: string): Result<bool> {
    var supported :- NewVersion(supportedVersion);
    var agent :- NewVersion(agentVersion);
    var order :- Comparison(agent, supported);
    Ok(order == 1)
  }

  function SupportsTcpMultiplexing(agentVersion: string): Result<bool> {
    NewerThan(agentVersion, MULTIPLEXING_AFTER)
  }

  function SupportsDisableSmuxKeepAlive(agentVersion: string): Result<bool> {
    NewerThan(agentVersion, KEEP_ALIVE_DISABLED_AFTER)
  }

  function SupportsTerminateSessionFlag(agentVersion: string): Result<bool> {
    NewerThan(agentVersion, TERMINATE_FLAG_AFTER)
  }

  // ---------- The order ----------

  predicate Numeric(a: seq<string>) {
    forall i :: 0 <= i < |a| ==> Atoi(a[i]).Some?
  }

  /** The numbers a version stands for. */
  function Components(a: seq<string>): (c: seq<int>)
    requires Numeric(a)
    ensures |c| == |a| && forall i :: 0 <= i < |a| ==> c[i] == Atoi(a[i]).value
  {
    seq(|a|, i requires 0 <= i < |a| => Atoi(a[i]).value)
  }

  /** Comparison is by the first differing component, which is therefore found. */
  lemma {:induction false} CompareIsLexicographic(a: seq<string>, b: seq<string>, i: nat)
    requires |a| == |b| && i <= |a| && Numeric(a) && Numeric(b)
    ensures CompareFrom(a, b, i).Ok? && CompareFrom(a, b, i).value in {-1, 0, 1}
    ensures CompareFrom(a, b, i).value == 0 <==> Components(a)[i..] == Components(b)[i..]
    ensures CompareFrom(b, a, i) == Ok(-CompareFrom(a, b, i).value)
    decreases |a| - i
  {
    if i < |a| {
      CompareIsLexicographic(a, b, i + 1);
      SameFrom(Components(a), Components(b), i);
    }
  }

  lemma SameFrom(xs: seq<int>, ys: seq<int>, i: nat)
    requires i < |xs| == |ys|
    ensures xs[i..] == ys[i..] <==> xs[i] == ys[i] && xs[i + 1..] == ys[i + 1..]
  {
    assert xs[i..] == [xs[i]] + xs[i + 1..];
    assert ys[i..] == [ys[i]] + ys[i + 1..];
    if xs[i..] == ys[i..] {
      assert xs[i + 1..] == xs[i..][1..] && xs[i] == xs[i..][0];
    }
  }

  /** On numeric versions of equal length, `compare` is a total order of the numbers they stand for. */
  lemma CompareIsTotalOrder(a: Number, b: Number, c: Number)
    requires |a| == |b| == |c| && Numeric(a) && Numeric(b) && Numeric(c)
    ensures Comparison(a, b).Ok? && Comparison(a, b).value in {-1, 0, 1}
    ensures Comparison(a, b) == Ok(0) <==> Components(a) == Components(b)
    ensures Comparison(a, b) == Ok(1) <==> Comparison(b, a) == Ok(-1)
    ensures Comparison(a, b) == Ok(1) && Comparison(b, c) == Ok(1) ==> Comparison(a, c) == Ok(1)
  {
    CompareIsLexicographic(a, b, 0);
    CompareIsLexicographic(b, a, 0);
    assert Components(a)[0..] == Components(a) && Components(b)[0..] == Components(b);
    if Comparison(a, b) == Ok(1) && Comparison(b, c) == Ok(1) {
      GreaterTransitive(a, b, c, 0);
    }
  }

  /** Being newer is transitive even where the agent's later components are not numbers. */
  lemma {:induction false} GreaterTransitive(a: seq<string>, b: seq<string>, c: seq<string>, i: nat)
    requires |a| == |b| == |c| && i <= |a|
    requires CompareFrom(a, b, i) == Ok(1) && CompareFrom(b, c, i) == Ok(1)
    ensures CompareFrom(a, c, i) == Ok(1)
    decreases |a| - i
  {
    if i < |a| && Atoi(a[i]) == Atoi(b[i]) == Atoi(c[i]) {
      GreaterTransitive(a, b, c, i + 1);
    }
  }

  lemma {:induction false} SplitNoDot(s: string)
    requires '.' !in s
    ensures Split(s) == [s]
  {
    if s != "" {
      SplitNoDot(s[1..]);
      assert s == [s[0]] + s[1..];
    }
  }

  lemma {:induction false} SplitAtDot(s: string, t: string)
    requires '.' !in s
    ensures Split(s + "." + t) == [s] + Split(t)
  {
    var whole := s + "." + t;
    if s == "" {
      assert whole[1..] == t;
    } else {
      SplitAtDot(s[1..], t);
      assert whole[1..] == s[1..] + "." + t;
      assert s == [s[0]] + s[1..];
    }
  }

  lemma SplitFour(a: string, b: string, c: string, d: string)
    requires '.' !in a && '.' !in b && '.' !in c && '.' !in d
    ensures Split(a + "." + (b + "." + (c + "." + d))) == [a, b, c, d]
  {
    SplitNoDot(d);
    var cd := c + "." + d;
    SplitAtDot(c, d);
    var bcd := b + "." + cd;
    SplitAtDot(b, cd);
    SplitAtDot(a, bcd);
  }

  lemma TerminateThreshold()
    ensures Split(TERMINATE_FLAG_AFTER) == ["2", "3", "722", "0"]
  {
    SplitFour("2", "3", "722", "0");
    assert TERMINATE_FLAG_AFTER == "2" + "." + ("3" + "." + ("722" + "." + "0"));
  }

  lemma MultiplexingThreshold()
    ensures Split(MULTIPLEXING_AFTER) == ["3", "0", "196", "0"]
  {
    SplitFour("3", "0", "196", "0");
    assert MULTIPLEXING_AFTER == "3" + "." + ("0" + "." + ("196" + "." + "0"));
  }

  lemma KeepAliveThreshold()
    ensures Split(KEEP_ALIVE_DISABLED_AFTER) == ["3", "1", "1511", "0"]
  {
    SplitFour("3", "1", "1511", "0");
    assert KEEP_ALIVE_DISABLED_AFTER == "3" + "." + ("1" + "." + ("1511" + "." + "0"));
  }

  lemma OneDigit(c: char)
    requires IsDigit(c)
    ensures Atoi([c]) == Some(c as int - '0' as int)
  {
    assert Digits([c][..0]) == Some(0);
  }

  lemma ThresholdsOrdered()
    ensures Comparison(Split(KEEP_ALIVE_DISABLED_AFTER), Split(MULTIPLEXING_AFTER)) == Ok(1)
    ensures Comparison(Split(MULTIPLEXING_AFTER), Split(TERMINATE_FLAG_AFTER)) == Ok(1)
  {
    TerminateThreshold();
    MultiplexingThreshold();
    KeepAliveThreshold();
    OneDigit('0');
    OneDigit('1');
    OneDigit('2');
    OneDigit('3');
    assert CompareFrom(["3", "1", "1511", "0"], ["3", "0", "196", "0"], 1) == Ok(1);
  }

  /**
   For every agent string, disabling keep-alive implies multiplexing, which implies the terminate flag:
   a session that multiplexes may send the flag without asking.
   */
  lemma FeaturesNest(agentVersion: string)
    ensures SupportsDisableSmuxKeepAlive(agentVersion) == Ok(true) ==> SupportsTcpMultiplexing(agentVersion) == Ok(true)
    ensures SupportsTcpMultiplexing(agentVersion) == Ok(true) ==> SupportsTerminateSessionFlag(agentVersion) == Ok(true)
  {
    ThresholdsOrdered();
    var agent := Split(agentVersion);
    var terminate, mux := Split(TERMINATE_FLAG_AFTER), Split(MULTIPLEXING_AFTER);
    var keep := Split(KEEP_ALIVE_DISABLED_AFTER);
    if SupportsDisableSmuxKeepAlive(agentVersion) == Ok(true) {
      GreaterTransitive(agent, keep, mux, 0);
    }
    if SupportsTcpMultiplexing(agentVersion) == Ok(true) {
      GreaterTransitive(agent, mux, terminate, 0);
    }
  }

  /** An agent whose version is a threshold itself, or has another number of components, lacks the feature. */
  lemma ThresholdExcluded(agentVersion: string, supportedVersion: string)
    requires Numeric(Split(supportedVersion))
    ensures agentVersion == supportedVersion ==> NewerThan(agentVersion, supportedVersion) != Ok(true)
    ensures |Split(agentVersion)| != |Split(supportedVersion)| ==> NewerThan(agentVersion, supportedVersion) != Ok(true)
  {
    CompareIsLexicographic(Split(supportedVersion), Split(supportedVersion), 0);
  }

  // ---------- When a gate opens ----------

  /** A number in decimal, as a version spells its components. */
  function Decimal(n: nat): (s: string)
    ensures s != "" && forall i :: 0 <= i < |s| ==> IsDigit(s[i])
  {
    var last := [('0' as int + n % 10) as char];
    if n < 10 then last else Decimal(n / 10) + last
  }

  lemma {:induction false} DigitsOfDecimal(n: nat)
    ensures Digits(Decimal(n)) == Some(n)
  {
    var s := Decimal(n);
    var c := ('0' as int + n % 10) as char;
    if n < 10 {
      assert s[..|s| - 1] == "" && Digits("") == Some(0);
    } else {
      DigitsOfDecimal(n / 10);
      assert s[..|s| - 1] == Decimal(n / 10) && s[|s| - 1] == c;
    }
  }

  /** Numbers that fit 64 bits. */
  type Component = n: nat | n <= 0x7fff_ffff_ffff_ffff

  /** Reading a decimal gives the number back, with either sign. */
  lemma AtoiOfDecimal(n: Component)
    ensures Atoi(Decimal(n)) == Some(n)
    ensures Atoi("+" + Decimal(n)) == Some(n)
    ensures Atoi("-" + Decimal(n)) == Some(0 - n as int)
  {
    DigitsOfDecimal(n);
    assert IsDigit(Decimal(n)[0]);
    var plus, minus := "+" + Decimal(n), "-" + Decimal(n);
    assert plus[1..] == Decimal(n) && minus[1..] == Decimal(n);
  }

  /** Larger numbers are no numbers to the program. */
  lemma AtoiOutOfRange(n: nat)
    ensures Atoi(Decimal(n)).Some? <==> n <= 0x7fff_ffff_ffff_ffff
  {
    DigitsOfDecimal(n);
    assert IsDigit(Decimal(n)[0]);
  }

  /** The first component that differs, if all up to it are numbers, decides; `a` is newer exactly when it is larger. */
  ghost predicate NewerAt(a: seq<string>, b: seq<string>, i: nat)
    requires |a| == |b|
  {
    && i < |a|
    && (forall j :: 0 <= j < i ==> Atoi(a[j]).Some? && Atoi(a[j]) == Atoi(b[j]))
    && Atoi(a[i]).Some? && Atoi(b[i]).Some? && Atoi(a[i]).value > Atoi(b[i]).value
  }

  lemma {:induction false} NewerFrom(a: seq<string>, b: seq<string>, i: nat)
    requires |a| == |b| && i <= |a| && forall j :: 0 <= j < i ==> Atoi(a[j]).Some? && Atoi(a[j]) == Atoi(b[j])
    ensures CompareFrom(a, b, i) == Ok(1) <==> exists k :: i <= k < |a| && NewerAt(a, b, k)
    decreases |a| - i
  {
    if i < |a| {
      if Atoi(a[i]).Some? && Atoi(a[i]) == Atoi(b[i]) {
        NewerFrom(a, b, i + 1);
      } else if CompareFrom(a, b, i) == Ok(1) {
        assert NewerAt(a, b, i);
      }
    }
  }

  /** All components are numbers, and the same. */
  ghost predicate SameNumbers(a: seq<string>, b: seq<string>)
    requires |a| == |b|
  {
    forall j :: 0 <= j < |a| ==> Atoi(a[j]).Some? && Atoi(a[j]) == Atoi(b[j])
  }

  lemma {:induction false} NotNewerFrom(a: seq<string>, b: seq<string>, i: nat)
    requires |a| == |b| && i <= |a| && forall j :: 0 <= j < i ==> Atoi(a[j]).Some? && Atoi(a[j]) == Atoi(b[j])
    ensures CompareFrom(a, b, i).Err? || CompareFrom(a, b, i).value in {-1, 0, 1}
    ensures CompareFrom(a, b, i) == Ok(-1) <==> exists k :: i <= k < |a| && NewerAt(b, a, k)
    ensures CompareFrom(a, b, i) == Ok(0) <==> SameNumbers(a, b)
    decreases |a| - i
  {
    if i < |a| {
      if Atoi(a[i]).Some? && Atoi(a[i]) == Atoi(b[i]) {
        NotNewerFrom(a, b, i + 1);
      } else if CompareFrom(a, b, i) == Ok(-1) {
        assert NewerAt(b, a, i);
      }
    }
  }

  /**
   A gate opens exactly when some component is larger and all before it are equal numbers. It answers that the feature
   is missing exactly when one is smaller instead or all are equal, and in all other cases it is an error: no version,
   another number of components, or a component that is no number before one decides.
   */
  lemma GateOpens(agentVersion: string, supportedVersion: string)
    ensures var a, b := Split(agentVersion), Split(supportedVersion);
            var comparable := agentVersion != "" && supportedVersion != "" && |a| == |b|;
            var answer := NewerThan(agentVersion, supportedVersion);
            && (answer == Ok(true) <==> comparable && exists k :: 0 <= k < |a| && NewerAt(a, b, k))
            && (answer == Ok(false) <==>
                comparable && (SameNumbers(a, b) || exists k :: 0 <= k < |a| && NewerAt(b, a, k)))
  {
    var a, b := Split(agentVersion), Split(supportedVersion);
    if |a| == |b| {
      NewerFrom(a, b, 0);
      NotNewerFrom(a, b, 0);
    }
  }

  /** An agent without a version is an error of its own kind. */
  lemma EmptyIsInvalid(supportedVersion: string)
    ensures NewerThan("", supportedVersion) == Err(Invalid)
    ensures NewerThan(supportedVersion, "") == Err(Invalid)
  {
  }

  /** The components of a version, in decimal. */
  function Spelled(ns: seq<Component>): (parts: seq<string>)
    ensures |parts| == |ns| && forall i :: 0 <= i < |ns| ==> parts[i] == Decimal(ns[i])
  {
    seq(|ns|, i requires 0 <= i < |ns| => Decimal(ns[i]))
  }

  /** The first number that differs is larger. */
  predicate Larger(ns: seq<Component>, ms: seq<Component>)
    requires |ns| == |ms|
  {
    ns != [] && (ns[0] > ms[0] || (ns[0] == ms[0] && Larger(ns[1..], ms[1..])))
  }

  lemma {:induction false} SpelledNewer(ns: seq<Component>, ms: seq<Component>, i: nat)
    requires |ns| == |ms| && i <= |ns|
    ensures CompareFrom(Spelled(ns), Spelled(ms), i) == Ok(1) <==> Larger(ns[i..], ms[i..])
    decreases |ns| - i
  {
    if i < |ns| {
      SpelledNewer(ns, ms, i + 1);
      AtoiOfDecimal(ns[i]);
      AtoiOfDecimal(ms[i]);
      assert ns[i..][1..] == ns[i + 1..] && ms[i..][1..] == ms[i + 1..];
    }
  }

  /** A version of four numbers. */
  function Dotted(ns: seq<Component>): string
    requires |ns| == 4
  {
    Decimal(ns[0]) + "." + (Decimal(ns[1]) + "." + (Decimal(ns[2]) + "." + Decimal(ns[3])))
  }

  /** Of two versions of four numbers, the newer is the one with the first larger number. */
  lemma DottedNewer(ns: seq<Component>, ms: seq<Component>)
    requires |ns| == |ms| == 4
    ensures NewerThan(Dotted(ns), Dotted(ms)) == Ok(true) <==> Larger(ns, ms)
  {
    SplitDotted(ns);
    SplitDotted(ms);
    SpelledNewer(ns, ms, 0);
    assert ns[0..] == ns && ms[0..] == ms;
  }

  lemma SplitDotted(ns: seq<Component>)
    requires |ns| == 4
    ensures Split(Dotted(ns)) == Spelled(ns) && Dotted(ns) != ""
  {
    SplitFour(Decimal(ns[0]), Decimal(ns[1]), Decimal(ns[2]), Decimal(ns[3]));
  }

  lemma TwoDigits(n: nat)
    requires 10 <= n
    ensures Decimal(n) == Decimal(n / 10) + [('0' as int + n % 10) as char]
  {
  }

  lemma LongerDecimals()
    ensures Decimal(722) == "722" && Decimal(196) == "196" && Decimal(1511) == "1511"
  {
    TwoDigits(72);
    TwoDigits(722);
    TwoDigits(19);
    TwoDigits(196);
    TwoDigits(15);
    TwoDigits(151);
    TwoDigits(1511);
  }

  lemma ThresholdsDotted()
    ensures TERMINATE_FLAG_AFTER == Dotted([2, 3, 722, 0])
    ensures MULTIPLEXING_AFTER == Dotted([3, 0, 196, 0])
    ensures KEEP_ALIVE_DISABLED_AFTER == Dotted([3, 1, 1511, 0])
  {
    LongerDecimals();
  }

  /** For every agent version of four numbers, each feature is there exactly above its threshold. */
  lemma FeatureThresholds(ns: seq<Component>)
    requires |ns| == 4
    ensures SupportsTerminateSessionFlag(Dotted(ns)) == Ok(true) <==> Larger(ns, [2, 3, 722, 0])
    ensures SupportsTcpMultiplexing(Dotted(ns)) == Ok(true) <==> Larger(ns, [3, 0, 196, 0])
    ensures SupportsDisableSmuxKeepAlive(Dotted(ns)) == Ok(true) <==> Larger(ns, [3, 1, 1511, 0])
  {
    ThresholdsDotted();
    DottedNewer(ns, [2, 3, 722, 0]);
    DottedNewer(ns, [3, 0, 196, 0]);
    DottedNewer(ns, [3, 1, 1511, 0]);
  }
}
