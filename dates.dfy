// Calendar dates and timestamps as Python's `datetime.date` and Django's
// aware datetimes see them: proleptic Gregorian dates with years 1..9999.

module Dates {
  import opened Common
  import opened Text

  datatype Date = Date(year: int, month: int, day: int)

  /** Seconds since the epoch; the aware datetimes of the database. */
  type Timestamp = int

  /** A datetime split into its local calendar date and the second within that day. */
  datatype DateTime = DateTime(date: Date, second: int)

  predicate IsLeap(y: int)
  {
    (y % 4 == 0 && y % 100 != 0) || y % 400 == 0
  }

  /** `calendar.monthrange(y, m)[1]`. */
  function DaysInMonth(y: int, m: int): (n: int)
    requires 1 <= m <= 12
    ensures 28 <= n <= 31
    ensures m == 2 ==> (n == 29 <==> IsLeap(y))
  {
    if m == 2 then (if IsLeap(y) then 29 else 28)
    else if m == 4 || m == 6 || m == 9 || m == 11 then 30
    else 31
  }

  /** The dates `datetime.date` can represent. */
  predicate ValidDate(d: Date)
  {
    1 <= d.year <= 9999 && 1 <= d.month <= 12 && 1 <= d.day <= DaysInMonth(d.year, d.month)
  }

  /** Chronological order: `a < b`. */
  predicate Before(a: Date, b: Date)
  {
    a.year < b.year
    || (a.year == b.year && a.month < b.month)
    || (a.year == b.year && a.month == b.month && a.day < b.day)
  }

  predicate NotAfter(a: Date, b: Date)
  {
    a == b || Before(a, b)
  }

  lemma BeforeIsStrictOrder(a: Date, b: Date, c: Date)
    ensures !Before(a, a)
    ensures Before(a, b) && Before(b, c) ==> Before(a, c)
    ensures a != b ==> Before(a, b) || Before(b, a)
  {
  }

  predicate DateTimeBefore(a: DateTime, b: DateTime)
  {
    Before(a.date, b.date) || (a.date == b.date && a.second < b.second)
  }

  predicate DateTimeNotAfter(a: DateTime, b: DateTime)
  {
    a == b || DateTimeBefore(a, b)
  }

  /** `d + timedelta(days=1)`. */
  function NextDay(d: Date): (r: Date)
    requires ValidDate(d)
    ensures Before(d, r)
    ensures d.year < 9999 || d.month < 12 || d.day < 31 ==> ValidDate(r)
  {
    if d.day < DaysInMonth(d.year, d.month) then Date(d.year, d.month, d.day + 1)
    else if d.month < 12 then Date(d.year, d.month + 1, 1)
    else Date(d.year + 1, 1, 1)
  }

  /** A date is a calendar day of the month it names only up to the month's length. */
  lemma NoDayBetweenNextDay(d: Date, x: Date)
    requires ValidDate(d) && ValidDate(x)
    ensures !(Before(d, x) && Before(x, NextDay(d)))
  {
  }

  /** The days in the years before `y`: `date(y, 1, 1).toordinal() - 1`. */
  function DaysBeforeYear(y: int): int
    requires y >= 1
  {
    365 * (y - 1) + (y - 1) / 4 - (y - 1) / 100 + (y - 1) / 400
  }

  /** The days in the months of `y` before `m`. */
  function DaysBeforeMonth(y: int, m: int): (n: int)
    requires 1 <= m <= 12
    ensures 28 * (m - 1) <= n <= 31 * (m - 1)
  {
    if m == 1 then 0 else DaysBeforeMonth(y, m - 1) + DaysInMonth(y, m - 1)
  }

  /** `d.toordinal()`: day 1 is 0001-01-01; subtracting two dates subtracts their ordinals. */
  function Ordinal(d: Date): int
    requires ValidDate(d)
  {
    DaysBeforeYear(d.year) + DaysBeforeMonth(d.year, d.month) + d.day
  }

  /** The months of a year add up to 366 days in a leap year and 365 otherwise. */
  lemma MonthsOfYear(y: int)
    ensures DaysBeforeMonth(y, 12) + DaysInMonth(y, 12) == if IsLeap(y) then 366 else 365
  {
    assert DaysBeforeMonth(y, 3) == 31 + DaysInMonth(y, 2);
    assert DaysBeforeMonth(y, 4) == DaysBeforeMonth(y, 3) + 31;
    assert DaysBeforeMonth(y, 5) == DaysBeforeMonth(y, 4) + 30;
    assert DaysBeforeMonth(y, 6) == DaysBeforeMonth(y, 5) + 31;
    assert DaysBeforeMonth(y, 7) == DaysBeforeMonth(y, 6) + 30;
    assert DaysBeforeMonth(y, 8) == DaysBeforeMonth(y, 7) + 31;
    assert DaysBeforeMonth(y, 9) == DaysBeforeMonth(y, 8) + 31;
    assert DaysBeforeMonth(y, 10) == DaysBeforeMonth(y, 9) + 30;
    assert DaysBeforeMonth(y, 11) == DaysBeforeMonth(y, 10) + 31;
    assert DaysBeforeMonth(y, 12) == DaysBeforeMonth(y, 11) + 30;
  }

  /** Going from `y - 1` to `y`, `y / 4` grows by one exactly when 4 divides `y`; likewise for 100 and 400. */
  lemma DivSteps(y: int)
    requires y >= 1
    ensures y / 4 - (y - 1) / 4 == if y % 4 == 0 then 1 else 0
    ensures y / 100 - (y - 1) / 100 == if y % 100 == 0 then 1 else 0
    ensures y / 400 - (y - 1) / 400 == if y % 400 == 0 then 1 else 0
  {
  }

  /** Every multiple of 400 is a multiple of 100, and every multiple of 100 a multiple of 4. */
  lemma Multiples(y: int)
    ensures y % 400 == 0 ==> y % 100 == 0
    ensures y % 100 == 0 ==> y % 4 == 0
  {
    if y % 400 == 0 {
      assert y == 400 * (y / 400);
      assert y == 100 * (4 * (y / 400));
    }
    if y % 100 == 0 {
      assert y == 100 * (y / 100);
      assert y == 4 * (25 * (y / 100));
    }
  }

  /** A year has 366 days when it is a leap year and 365 otherwise. */
  lemma YearLength(y: int)
    requires y >= 1
    ensures DaysBeforeYear(y + 1) == DaysBeforeYear(y) + if IsLeap(y) then 366 else 365
  {
    DivSteps(y);
    Multiples(y);
    var a, b, c := y / 4 - (y - 1) / 4, y / 100 - (y - 1) / 100, y / 400 - (y - 1) / 400;
    assert DaysBeforeYear(y + 1) - DaysBeforeYear(y) == 365 + a - b + c;
  }

  /** The ordinal of the next day is one more: `(NextDay(d) - d).days == 1`. */
  lemma NextDayOrdinal(d: Date)
    requires ValidDate(d) && ValidDate(NextDay(d))
    ensures Ordinal(NextDay(d)) == Ordinal(d) + 1
  {
    if d.day == DaysInMonth(d.year, d.month) && d.month == 12 {
      YearLength(d.year);
      MonthsOfYear(d.year);
    }
  }

  /**
   * Django's `parse_date` followed by `datetime.date(...)`. The pattern ends
   * in `$`, which also matches before one final newline.
   */
  function ParseIsoDate(s: string): (r: Option<Date>)
    ensures r.Some? ==> ValidDate(r.value)
  {
    if s != [] && s[|s| - 1] == '\n' then ParseDateDigits(s[..|s| - 1]) else ParseDateDigits(s)
  }

  /** The digits of the pattern, "YYYY-M[M]-D[D]", naming a valid date. */
  function ParseDateDigits(s: string): (r: Option<Date>)
    ensures r.Some? ==> ValidDate(r.value)
  {
    var parts := Split(s, '-');
    if |parts| != 3 then None
    else if !(|parts[0]| == 4 && AllDigits(parts[0])) then None
    else if !(1 <= |parts[1]| <= 2 && AllDigits(parts[1])) then None
    else if !(1 <= |parts[2]| <= 2 && AllDigits(parts[2])) then None
    else
      var d := Date(DigitsValue(parts[0]), DigitsValue(parts[1]), DigitsValue(parts[2]));
      if ValidDate(d) then Some(d) else None
  }

  /** `d.isoformat()`: "YYYY-MM-DD". */
  function IsoFormat(d: Date): string
    requires ValidDate(d)
  {
    Pad4(d.year) + "-" + Pad2(d.month) + "-" + Pad2(d.day)
  }

  function Pad4(n: nat): (s: string)
    requires n <= 9999
    ensures |s| == 4 && AllDigits(s)
    ensures DigitsValue(s) == n
  {
    NatToStringLength(n);
    DigitsOfNatToString(n);
    var t := NatToString(n);
    var s := if n < 10 then "000" + t else if n < 100 then "00" + t else if n < 1000 then "0" + t else t;
    LeadingZeros(s, 4 - |t|);
    assert s[4 - |t|..] == t;
    s
  }

  lemma {:induction false} NatToStringLength(n: nat)
    ensures n < 10 ==> |NatToString(n)| == 1
    ensures 10 <= n < 100 ==> |NatToString(n)| == 2
    ensures 100 <= n < 1000 ==> |NatToString(n)| == 3
    ensures 1000 <= n < 10000 ==> |NatToString(n)| == 4
  {
    if n >= 10 {
      NatToStringLength(n / 10);
    }
  }

  /** Leading zeros do not change the value of a digit run. */
  lemma {:induction false} LeadingZeros(s: string, k: nat)
    requires AllDigits(s) && k <= |s|
    requires forall i :: 0 <= i < k ==> s[i] == '0'
    ensures DigitsValue(s) == DigitsValue(s[k..])
    decreases |s|
  {
    if k < |s| {
      LeadingZeros(s[..|s| - 1], k);
      assert s[..|s| - 1][k..] == s[k..][..|s| - k - 1];
    } else {
      AllZeros(s);
    }
  }

  lemma {:induction false} AllZeros(s: string)
    requires forall i :: 0 <= i < |s| ==> s[i] == '0'
    ensures AllDigits(s) && DigitsValue(s) == 0
  {
    if s != [] {
      AllZeros(s[..|s| - 1]);
    }
  }

  lemma {:induction false} DigitsOfPad2Length(n: nat)
    requires n <= 99
    ensures |Pad2(n)| == 2
  {
    NatToStringLength(n);
  }

  /** Formatting a date and parsing it back gives the same date. */
  lemma {:induction false} ParseIsoFormat(d: Date)
    requires ValidDate(d)
    ensures ParseIsoDate(IsoFormat(d)) == Some(d)
  {
    IsoFormatDigits(d);
    var t := IsoFormat(d);
    assert IsDigit(t[|t| - 1]);
  }

  /** A formatted date with one newline after it is still read as that date. */
  lemma TrailingNewlineAccepted(d: Date)
    requires ValidDate(d)
    ensures ParseIsoDate(IsoFormat(d) + "\n") == Some(d)
  {
    IsoFormatDigits(d);
    var t := IsoFormat(d);
    assert (t + "\n")[..|t + "\n"| - 1] == t;
  }

  /** The digits of a formatted date parse back, and the text ends in a digit. */
  lemma {:induction false} IsoFormatDigits(d: Date)
    requires ValidDate(d)
    ensures ParseDateDigits(IsoFormat(d)) == Some(d)
    ensures IsoFormat(d) != [] && IsDigit(IsoFormat(d)[|IsoFormat(d)| - 1])
  {
    var y, m, dd := Pad4(d.year), Pad2(d.month), Pad2(d.day);
    DigitsOfPad2Length(d.month);
    DigitsOfPad2Length(d.day);
    DigitsOfPad2(d.month);
    DigitsOfPad2(d.day);
    NoSeparatorInDigits(y, '-');
    NoSeparatorInDigits(m, '-');
    NoSeparatorInDigits(dd, '-');
    SplitConcat(y + "-" + m, dd, '-');
    SplitConcat(y, m, '-');
    assert IsoFormat(d) == (y + "-" + m) + "-" + dd;
    SplitNoSeparator(y, '-');
    SplitNoSeparator(m, '-');
    SplitNoSeparator(dd, '-');
    assert Split(IsoFormat(d), '-') == [y, m, dd];
    assert IsoFormat(d)[|IsoFormat(d)| - 1] == dd[1];
  }

  lemma NoSeparatorInDigits(s: string, c: char)
    requires AllDigits(s) && !IsDigit(c)
    ensures c !in s
  {
  }
}
