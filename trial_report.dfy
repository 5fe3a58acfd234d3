/** The line `Handles.stats()` prints at trial teardown,
    `<<<Passed: s. Failed: f. Total: s+f>>>`, with Java's decimal rendering of
    the counters, and a reader for it that recovers the three numbers. */
module TrialReport {

  datatype Option<T> = None | Some(value: T)

  /** The three numbers a report carries. */
  datatype Tally = Tally(passed: nat, failed: nat, total: nat)

  predicate IsDigit(c: char)
  {
    '0' <= c <= '9'
  }

  predicate AllDigits(s: string)
  {
    forall i :: 0 <= i < |s| ==> IsDigit(s[i])
  }

  function DigitChar(d: nat): (c: char)
    requires d < 10
    ensures IsDigit(c) && c as int - '0' as int == d
  {
    ('0' as int + d) as char
  }

  /** `Long.toString(n)` for a counter, which is never negative: the shortest
      decimal numeral, so it starts with '0' only when it is "0". */
  function DecimalString(n: nat): (s: string)
    ensures |s| >= 1 && AllDigits(s)
    ensures s[0] == '0' <==> n == 0
    decreases n
  {
    if n < 10 then [DigitChar(n)] else DecimalString(n / 10) + [DigitChar(n % 10)]
  }

  /** The number a string of decimal digits denotes. */
  function DecimalValue(s: string): nat
    requires AllDigits(s)
    decreases |s|
  {
    if s == [] then 0
    else 10 * DecimalValue(s[..|s| - 1]) + (s[|s| - 1] as int - '0' as int)
  }

  lemma {:induction false} DecimalRoundTrip(n: nat)
    ensures DecimalValue(DecimalString(n)) == n
    decreases n
  {
    var s := DecimalString(n);
    if n >= 10 {
      assert s[..|s| - 1] == DecimalString(n / 10);
      DecimalRoundTrip(n / 10);
    }
  }

  const PassedLabel: string := "<<<Passed: "
  const FailedLabel: string := ". Failed: "
  const TotalLabel: string := ". Total: "
  const Closing: string := ">>>"

  /** The teardown line for counters `success` and `fail`. */
  function Stats(success: nat, fail: nat): (line: string)
    ensures |PassedLabel| < |line| && line[..|PassedLabel|] == PassedLabel
    ensures line[|line| - |Closing|..] == Closing
  {
    PassedLabel + (DecimalString(success) + (FailedLabel + (DecimalString(fail)
      + (TotalLabel + (DecimalString(success + fail) + Closing)))))
  }

  /** The length of the run of digits that `t` starts with. */
  function DigitRun(t: string): (n: nat)
    ensures n <= |t|
    ensures AllDigits(t[..n])
    ensures n < |t| ==> !IsDigit(t[n])
    decreases |t|
  {
    if t == [] || !IsDigit(t[0]) then 0 else 1 + DigitRun(t[1..])
  }

  /** Reads `tag` followed by a non-empty decimal numeral off the front of
      `t`; gives the number and what follows it. */
  function ReadField(tag: string, t: string): Option<(nat, string)>
  {
    if |tag| <= |t| && t[..|tag|] == tag then
      var rest := t[|tag|..];
      var n := DigitRun(rest);
      if n == 0 then None else Some((DecimalValue(rest[..n]), rest[n..]))
    else
      None
  }

  /** Reads a teardown line back into its three numbers. */
  function ParseStats(line: string): Option<Tally>
  {
    match ReadField(PassedLabel, line)
    case None => None
    case Some((passed, r1)) =>
      match ReadField(FailedLabel, r1)
      case None => None
      case Some((failed, r2)) =>
        match ReadField(TotalLabel, r2)
        case None => None
        case Some((total, r3)) =>
          if r3 == Closing then Some(Tally(passed, failed, total)) else None
  }

  lemma {:induction false} DigitRunOfNumeral(d: string, rest: string)
    requires AllDigits(d)
    requires rest == [] || !IsDigit(rest[0])
    ensures DigitRun(d + rest) == |d|
    decreases |d|
  {
    if d == [] {
      assert d + rest == rest;
    } else {
      assert (d + rest)[1..] == d[1..] + rest;
      DigitRunOfNumeral(d[1..], rest);
    }
  }

  lemma ReadFieldOfNumeral(tag: string, n: nat, rest: string)
    requires rest == [] || !IsDigit(rest[0])
    ensures ReadField(tag, tag + (DecimalString(n) + rest)) == Some((n, rest))
  {
    var d := DecimalString(n);
    var t := tag + (d + rest);
    assert t[..|tag|] == tag;
    assert t[|tag|..] == d + rest;
    DigitRunOfNumeral(d, rest);
    assert (d + rest)[..|d|] == d;
    assert (d + rest)[|d|..] == rest;
    DecimalRoundTrip(n);
  }

  /** The report determines the counters: reading it back gives `success`,
      `fail` and their sum as the total. */
  lemma StatsRoundTrip(success: nat, fail: nat)
    ensures ParseStats(Stats(success, fail)) == Some(Tally(success, fail, success + fail))
  {
    var r3 := Closing;
    var r2 := TotalLabel + (DecimalString(success + fail) + r3);
    var r1 := FailedLabel + (DecimalString(fail) + r2);
    assert r1[0] == '.' && r2[0] == '.' && r3[0] == '>';
    assert Stats(success, fail) == PassedLabel + (DecimalString(success) + r1);
    ReadFieldOfNumeral(PassedLabel, success, r1);
    ReadFieldOfNumeral(FailedLabel, fail, r2);
    ReadFieldOfNumeral(TotalLabel, success + fail, r3);
  }

  /** Two different pairs of counters never print the same line. */
  lemma StatsInjective(s1: nat, f1: nat, s2: nat, f2: nat)
    requires Stats(s1, f1) == Stats(s2, f2)
    ensures s1 == s2 && f1 == f2
  {
    StatsRoundTrip(s1, f1);
    StatsRoundTrip(s2, f2);
  }

  /** The worked example: 7 successes and 3 failures. */
  lemma StatsExample()
    ensures Stats(7, 3) == "<<<Passed: 7. Failed: 3. Total: 10>>>"
  {
    assert DecimalString(10) == "10";
  }
}
