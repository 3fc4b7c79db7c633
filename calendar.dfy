/** Decimal digits, the proleptic Gregorian calendar of Python's `datetime`,
    and the string slicing both timestamp parsers share. */
module Calendar {
  import opened Common

  predicate IsDigit(c: char) { '0' <= c <= '9' }

  predicate AllDigits(s: string) { forall i :: 0 <= i < |s| ==> IsDigit(s[i]) }

  function DigitValue(c: char): (n: nat)
    requires IsDigit(c)
    ensures n < 10
  {
    (c - '0') as nat
  }

  function DigitChar(n: nat): (c: char)
    requires n < 10
    ensures IsDigit(c) && DigitValue(c) == n
  {
    ('0' as int + n) as char
  }

  /** The number a string of decimal digits denotes (`int(s)`). */
  function NatValue(s: string): nat
    requires AllDigits(s)
  {
    if s == [] then 0 else NatValue(s[..|s| - 1]) * 10 + DigitValue(s[|s| - 1])
  }

  /** `str(n)`: decimal digits without leading zeros. */
  function DecimalString(n: nat): (s: string)
    ensures AllDigits(s) && s != []
  {
    if n < 10 then [DigitChar(n)] else DecimalString(n / 10) + [DigitChar(n % 10)]
  }

  /** `%02d`: exactly two digits, zero-padded. */
  function Pad2(n: nat): (s: string)
    requires n < 100
    ensures |s| == 2 && AllDigits(s)
  {
    [DigitChar(n / 10), DigitChar(n % 10)]
  }

  lemma {:induction false} DecimalStringRoundTrip(n: nat)
    ensures NatValue(DecimalString(n)) == n
  {
    if n >= 10 {
      DecimalStringRoundTrip(n / 10);
      var s := DecimalString(n);
      assert s[..|s| - 1] == DecimalString(n / 10);
    }
  }

  lemma {:induction false} NatValueOfLeadingNonZero(s: string)
    requires AllDigits(s) && s != [] && s[0] != '0'
    ensures NatValue(s) > 0
  {
    if |s| > 1 {
      NatValueOfLeadingNonZero(s[..|s| - 1]);
    }
  }

  /** A digit string without a leading zero is what `str` prints for its value. */
  lemma {:induction false} DecimalStringOfDigits(s: string)
    requires AllDigits(s) && s != [] && (s[0] != '0' || |s| == 1)
    ensures DecimalString(NatValue(s)) == s
  {
    if |s| > 1 {
      var p := s[..|s| - 1];
      NatValueOfLeadingNonZero(p);
      DecimalStringOfDigits(p);
      var n := NatValue(s);
      assert n / 10 == NatValue(p) && n % 10 == DigitValue(s[|s| - 1]);
      assert DigitChar(n % 10) == s[|s| - 1];
      assert s == p + [s[|s| - 1]];
    }
  }

  lemma Pad2OfDigits(s: string)
    requires |s| == 2 && AllDigits(s)
    ensures NatValue(s) < 100 && Pad2(NatValue(s)) == s
  {
    var p := s[..1];
    assert p[..0] == [] && p[0] == s[0];
    assert NatValue(p) == DigitValue(s[0]);
    assert NatValue(s) == NatValue(p) * 10 + DigitValue(s[1]);
  }

  predicate IsLeapYear(y: int) {
    y % 4 == 0 && (y % 100 != 0 || y % 400 == 0)
  }

  function DaysInMonth(y: int, m: int): (days: int)
    requires 1 <= m <= 12
    ensures 28 <= days <= 31
  {
    if m == 2 then (if IsLeapYear(y) then 29 else 28)
    else if m == 4 || m == 6 || m == 9 || m == 11 then 30
    else 31
  }

  /** The dates Python's `datetime` constructor accepts. */
  predicate ValidDate(y: int, m: int, d: int) {
    1 <= y <= 9999 && 1 <= m <= 12 && 1 <= d <= DaysInMonth(y, m)
  }

  datatype DateTime = DateTime(year: int, month: int, day: int, hour: int, minute: int, second: int)

  predicate ValidDateTime(t: DateTime) {
    ValidDate(t.year, t.month, t.day)
    && 0 <= t.hour <= 23 && 0 <= t.minute <= 59 && 0 <= t.second <= 59
  }

  /** Splits `s` at the first character in `seps`, dropping that character;
      None when no character of `seps` occurs. */
  function Cut(s: string, seps: set<char>): (r: Option<(string, string)>)
    ensures r.Some? ==> |r.value.0| + 1 + |r.value.1| == |s|
  {
    if s == [] then None
    else if s[0] in seps then Some(([], s[1..]))
    else match Cut(s[1..], seps)
      case None => None
      case Some(p) => Some(([s[0]] + p.0, p.1))
  }

  /** Cut finds the first separator: the part before it holds none. */
  lemma {:induction false} CutSplits(s: string, seps: set<char>)
    requires Cut(s, seps).Some?
    ensures var (a, b) := Cut(s, seps).value;
      s == a + [s[|a|]] + b && s[|a|] in seps && forall i :: 0 <= i < |a| ==> a[i] !in seps
  {
    if s[0] !in seps {
      CutSplits(s[1..], seps);
    }
  }

  /** Cut recovers the two parts around a separator that the first part avoids. */
  lemma {:induction false} CutOfJoin(a: string, c: char, b: string, seps: set<char>)
    requires c in seps && forall i :: 0 <= i < |a| ==> a[i] !in seps
    ensures Cut(a + [c] + b, seps) == Some((a, b))
  {
    if a != [] {
      CutOfJoin(a[1..], c, b, seps);
      assert (a + [c] + b)[1..] == a[1..] + [c] + b;
      assert [a[0]] + a[1..] == a;
    } else {
      assert (a + [c] + b)[1..] == b;
    }
  }

  /** The index of the first character in `seps`, or |s| when there is none. */
  function FirstIndex(s: string, seps: set<char>): (i: nat)
    ensures i <= |s| && (i < |s| ==> s[i] in seps)
    ensures forall j :: 0 <= j < i ==> s[j] !in seps
  {
    if s == [] then 0 else if s[0] in seps then 0 else 1 + FirstIndex(s[1..], seps)
  }
}
