/**
 * Calendar dates and Python's `datetime.strptime(s, '%Y-%m-%d')`.
 *
 * CPython turns the format into the regular expression
 * `(\d\d\d\d)-(1[0-2]|0[1-9]|[1-9])-(3[01]|[12]\d|0[1-9]|[1-9]| [1-9])`,
 * matches it at the start of the string, raises ValueError if characters
 * remain, and raises ValueError again if the fields are not a calendar date
 * (year 0, 30 February).  ParseIsoDate returns `None` exactly where that
 * raises ValueError.
 */
module Dates {
  import opened Wrappers
  import opened Text

  datatype Date = Date(year: int, month: int, day: int)

  /** A point in time: the calendar day and the second within it. */
  datatype Moment = Moment(day: Date, second: nat)

  predicate IsLeap(y: int) {
    y % 4 == 0 && (y % 100 != 0 || y % 400 == 0)
  }

  function DaysInMonth(y: int, m: int): int {
    if m == 2 then (if IsLeap(y) then 29 else 28)
    else if m == 4 || m == 6 || m == 9 || m == 11 then 30
    else 31
  }

  /** The dates Python's `datetime.date` accepts (MINYEAR 1, MAXYEAR 9999). */
  predicate ValidDate(d: Date) {
    && 1 <= d.year <= 9999
    && 1 <= d.month <= 12
    && 1 <= d.day <= DaysInMonth(d.year, d.month)
  }

  /** `a < b` on dates. */
  predicate Before(a: Date, b: Date) {
    || a.year < b.year
    || (a.year == b.year && a.month < b.month)
    || (a.year == b.year && a.month == b.month && a.day < b.day)
  }

  function Digit(c: char): int
    requires IsAsciiDigit(c)
  {
    c as int - '0' as int
  }

  predicate IsNonZeroDigit(c: char) { '1' <= c <= '9' }

  /**
   * The `%m` group and the `-` after it, at the start of `r`: the month and
   * how many characters the month takes.
   */
  function MonthToken(r: string): Option<(int, nat)> {
    if |r| >= 3 && r[0] == '1' && '0' <= r[1] <= '2' && r[2] == '-' then Some((10 + Digit(r[1]), 2))
    else if |r| >= 3 && r[0] == '0' && IsNonZeroDigit(r[1]) && r[2] == '-' then Some((Digit(r[1]), 2))
    else if |r| >= 2 && IsNonZeroDigit(r[0]) && r[1] == '-' then Some((Digit(r[0]), 1))
    else None
  }

  /**
   * The `%d` group, which must end the string: the regular expression takes
   * the first alternative that matches, and anything left over is an error.
   */
  function DayToken(r: string): Option<int> {
    if |r| >= 2 && r[0] == '3' && (r[1] == '0' || r[1] == '1') then
      (if |r| == 2 then Some(30 + Digit(r[1])) else None)
    else if |r| >= 2 && (r[0] == '1' || r[0] == '2') && IsAsciiDigit(r[1]) then
      (if |r| == 2 then Some(10 * Digit(r[0]) + Digit(r[1])) else None)
    else if |r| >= 2 && r[0] == '0' && IsNonZeroDigit(r[1]) then
      (if |r| == 2 then Some(Digit(r[1])) else None)
    else if |r| >= 1 && IsNonZeroDigit(r[0]) then
      (if |r| == 1 then Some(Digit(r[0])) else None)
    else if |r| >= 2 && r[0] == ' ' && IsNonZeroDigit(r[1]) then
      (if |r| == 2 then Some(Digit(r[1])) else None)
    else None
  }

  /** `datetime.strptime(s, '%Y-%m-%d').date()`; `None` where it raises ValueError. */
  function ParseIsoDate(s: string): (r: Option<Date>)
    ensures r.Some? ==> ValidDate(r.value)
    ensures r.Some? ==> 8 <= |s| <= 10
  {
    if |s| < 5 || !IsAsciiDigit(s[0]) || !IsAsciiDigit(s[1]) || !IsAsciiDigit(s[2])
       || !IsAsciiDigit(s[3]) || s[4] != '-'
    then None
    else
      var year := 1000 * Digit(s[0]) + 100 * Digit(s[1]) + 10 * Digit(s[2]) + Digit(s[3]);
      match MonthToken(s[5..])
      case None => None
      case Some((month, len)) =>
        match DayToken(s[5 + len + 1..])
        case None => None
        case Some(day) =>
          var d := Date(year, month, day);
          if ValidDate(d) then Some(d) else None
  }

  function DigitChar(k: int): char
    requires 0 <= k <= 9
  {
    ('0' as int + k) as char
  }

  /** Zero-padded decimal digits of `n`, `width` of them. */
  function Padded(n: nat, width: nat): (r: string)
    ensures |r| == width
    ensures forall i :: 0 <= i < width ==> IsAsciiDigit(r[i])
  {
    if width == 0 then "" else Padded(n / 10, width - 1) + [DigitChar(n % 10)]
  }

  /** The canonical `YYYY-MM-DD` text of a date. */
  function FormatIsoDate(d: Date): string
    requires ValidDate(d)
  {
    Padded(d.year, 4) + "-" + Padded(d.month, 2) + "-" + Padded(d.day, 2)
  }

  lemma PaddedTwo(n: nat)
    requires n < 100
    ensures Padded(n, 2) == [DigitChar(n / 10), DigitChar(n % 10)]
  {
  }

  lemma PaddedFour(n: nat)
    requires n < 10000
    ensures var p := Padded(n, 4);
      1000 * Digit(p[0]) + 100 * Digit(p[1]) + 10 * Digit(p[2]) + Digit(p[3]) == n
  {
    var p3 := Padded(n / 10 / 10 / 10, 1);
    assert p3 == [DigitChar(n / 10 / 10 / 10 % 10)];
    var p2 := Padded(n / 10 / 10, 2);
    assert p2 == p3 + [DigitChar(n / 10 / 10 % 10)];
    var p1 := Padded(n / 10, 3);
    assert p1 == p2 + [DigitChar(n / 10 % 10)];
    assert Padded(n, 4) == p1 + [DigitChar(n % 10)];
  }

  /** Every canonical text parses back to its date: the format `%Y-%m-%d` is accepted as written. */
  lemma FormatParseRoundTrip(d: Date)
    requires ValidDate(d)
    ensures ParseIsoDate(FormatIsoDate(d)) == Some(d)
  {
    var s := FormatIsoDate(d);
    PaddedFour(d.year);
    PaddedTwo(d.month);
    PaddedTwo(d.day);
    var y := Padded(d.year, 4);
    assert s[..4] == y && s[4] == '-';
    var rest := s[5..];
    assert rest == Padded(d.month, 2) + "-" + Padded(d.day, 2);
    assert MonthToken(rest) == Some((d.month, 2));
    assert s[5 + 2 + 1..] == Padded(d.day, 2);
    assert DayToken(Padded(d.day, 2)) == Some(d.day);
  }
}
