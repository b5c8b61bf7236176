// The month handling of the employee financials view: the `month` query
// parameter, the first and last day of that month, and the compensation
// in force during it. The money arithmetic of the view is not modelled.

module EmployeeFinancials {
  import opened Common
  import opened Text
  import opened Dates
  import opened ContactModels

  /**
   * `parse_month`: "YYYY-MM", tolerating surrounding whitespace and trailing
   * slashes. The text is split at its first "-", both halves must read as
   * integers and the month must be 1..12.
   */
  function ParseMonth(raw: string): (r: Option<(int, int)>)
    ensures r.Some? ==> 1 <= r.value.1 <= 12
    ensures '-' !in StripRightChar(Strip(raw), '/') ==> r.None?
  {
    if raw == [] then None
    else
      match SplitOnce(StripRightChar(Strip(raw), '/'), '-')
        case None => None
        case Some((a, b)) =>
          match (ParseInt(a), ParseInt(b))
            case (Some(y), Some(m)) => if 1 <= m <= 12 then Some((y, m)) else None
            case _ => None
  }

  /** The canonical text of a month, as the view's error message shows it ("2025-10"). */
  function MonthText(y: nat, m: nat): string
    requires y <= 9999
  {
    Pad4(y) + "-" + Pad2(m)
  }

  /** The text of a month, with or without a trailing slash, splits at its "-" into the two numbers. */
  lemma MonthTextPieces(y: nat, m: nat)
    requires y <= 9999
    ensures var s := MonthText(y, m);
      && StripRightChar(Strip(s), '/') == s
      && StripRightChar(Strip(s + "/"), '/') == s
      && SplitOnce(s, '-') == Some((Pad4(y), Pad2(m)))
      && ParseInt(Pad4(y)) == Some(y as int) && ParseInt(Pad2(m)) == Some(m as int)
  {
    var a, b := Pad4(y), Pad2(m);
    var s := MonthText(y, m);
    NoSeparatorInDigits(a, '-');
    assert s == a + ['-'] + b;
    SplitOnceAt(a, b, '-');
    ParseDigits(a);
    ParsePad2(m);
    assert IsDigit(s[0]) && IsDigit(s[|s| - 1]);
    StripFixed(s);
    StripRightCharAdded(s, '/');
    assert (s + "/")[0] == s[0];
    StripFixed(s + "/");
  }

  /** A month written as "YYYY-MM", with or without a trailing slash, reads back as itself. */
  lemma ParseMonthText(y: nat, m: nat)
    requires y <= 9999 && 1 <= m <= 12
    ensures ParseMonth(MonthText(y, m)) == Some((y as int, m as int))
    ensures ParseMonth(MonthText(y, m) + "/") == Some((y as int, m as int))
  {
    ParseMonthPlain(y, m);
    ParseMonthSlashed(y, m);
  }

  lemma ParseMonthPlain(y: nat, m: nat)
    requires y <= 9999 && 1 <= m <= 12
    ensures ParseMonth(MonthText(y, m)) == Some((y as int, m as int))
  {
    MonthTextPieces(y, m);
    MonthTextParses(MonthText(y, m), Pad4(y), Pad2(m), y, m);
  }

  lemma ParseMonthSlashed(y: nat, m: nat)
    requires y <= 9999 && 1 <= m <= 12
    ensures ParseMonth(MonthText(y, m) + "/") == Some((y as int, m as int))
  {
    MonthTextPieces(y, m);
    ParseMonthPlain(y, m);
    ParseMonthSlashOf(MonthText(y, m), (y as int, m as int));
  }

  lemma ParseMonthSlashOf(s: string, v: (int, int))
    requires s != [] && ParseMonth(s) == Some(v)
    requires StripRightChar(Strip(s), '/') == s && StripRightChar(Strip(s + "/"), '/') == s
    ensures ParseMonth(s + "/") == Some(v)
  {
    ParseMonthSameCore(s + "/", s);
  }

  /** Two texts that differ only in surrounding whitespace and trailing slashes read as the same month. */
  lemma ParseMonthSameCore(raw: string, raw': string)
    requires raw != [] && raw' != []
    requires StripRightChar(Strip(raw), '/') == StripRightChar(Strip(raw'), '/')
    ensures ParseMonth(raw) == ParseMonth(raw')
  {
  }

  lemma MonthTextParses(raw: string, a: string, b: string, y: int, m: int)
    requires raw != [] && SplitOnce(StripRightChar(Strip(raw), '/'), '-') == Some((a, b))
    requires ParseInt(a) == Some(y) && ParseInt(b) == Some(m) && 1 <= m <= 12
    ensures ParseMonth(raw) == Some((y, m))
  {
    ParseMonthOfPieces(raw, a, b);
  }

  /** A month number outside 1..12 is refused even when both halves are numbers. */
  lemma ParseMonthRejectsMonth13()
    ensures ParseMonth(MonthText(2025, 13)) == None
  {
    MonthTextPieces(2025, 13);
    ParseMonthOfPieces(MonthText(2025, 13), Pad4(2025), Pad2(13));
  }

  /** Once the text splits at its "-", the month is what the two halves read as. */
  lemma ParseMonthOfPieces(raw: string, a: string, b: string)
    requires raw != [] && SplitOnce(StripRightChar(Strip(raw), '/'), '-') == Some((a, b))
    ensures ParseMonth(raw) ==
      if ParseInt(a).Some? && ParseInt(b).Some? && 1 <= ParseInt(b).value <= 12
      then Some((ParseInt(a).value, ParseInt(b).value)) else None
  {
  }

  /** Empty text, and text without a "-", is not a month. */
  lemma ParseMonthRejects()
    ensures ParseMonth("") == None
    ensures ParseMonth("202510") == None
  {
    NoSeparatorInDigits("202510", '-');
    StripFixed("202510");
    StripRightCharAdded("202510", '/');
  }

  /** `get_month_range`: the first and the last day of the month. */
  function MonthRange(y: int, m: int): (r: (Date, Date))
    requires 1 <= y <= 9999 && 1 <= m <= 12
    ensures ValidDate(r.0) && ValidDate(r.1) && NotAfter(r.0, r.1)
    ensures forall d :: ValidDate(d) && d.year == y && d.month == m ==> NotAfter(r.0, d) && NotAfter(d, r.1)
    ensures forall d :: ValidDate(d) && NotAfter(r.0, d) && NotAfter(d, r.1) ==> d.year == y && d.month == m
  {
    (Date(y, m, 1), Date(y, m, DaysInMonth(y, m)))
  }

  /** The day after the month's last day starts another month. */
  lemma MonthRangeEndsMonth(y: int, m: int)
    requires 1 <= y <= 9999 && 1 <= m <= 12
    ensures NextDay(MonthRange(y, m).1).day == 1
    ensures NextDay(MonthRange(y, m).1).month != m
  {
  }

  /** February has 29 days exactly in Gregorian leap years. */
  lemma FebruaryRange(y: int)
    requires 1 <= y <= 9999
    ensures MonthRange(y, 2).1.day == (if IsLeap(y) then 29 else 28)
  {
  }

  /** How the view answers the `month` parameter. */
  datatype MonthAnswer =
    | BadRequest
    | ServerError                   // an exception escapes the view
    | Month(start: Date, end: Date)

  const BadMonthMessage := "Parámetro 'month' inválido. Usa YYYY-MM (p.ej. 2025-10)."

  /**
   * The view as written: an unparsable value is a 400, but a parsed year
   * outside 1..9999 reaches `date(y, m, 1)`, which raises.
   */
  function MonthParamAsWritten(raw: string): MonthAnswer
  {
    match ParseMonth(raw)
      case None => BadRequest
      case Some((y, m)) => if 1 <= y <= 9999 then Month(MonthRange(y, m).0, MonthRange(y, m).1) else ServerError
  }

  /** "0000-01" parses, and then the view fails with an exception instead of a 400. */
  lemma YearZeroEscapesAsWritten()
    ensures MonthParamAsWritten(MonthText(0, 1)) == ServerError
  {
    ParseMonthText(0, 1);
  }

  /** The intended answer: every value that does not name a representable month is a 400. */
  function MonthParam(raw: string): (r: MonthAnswer)
    ensures r != ServerError
    ensures r.Month? <==> ParseMonth(raw).Some? && 1 <= ParseMonth(raw).value.0 <= 9999
    ensures r.Month? ==> r.start.day == 1 && r.start.year == r.end.year && r.start.month == r.end.month
    ensures r.Month? ==> ValidDate(r.start) && ValidDate(r.end)
  {
    var p := ParseMonth(raw);
    if p.Some? && 1 <= p.value.0 <= 9999 then
      var range := MonthRange(p.value.0, p.value.1);
      Month(range.0, range.1)
    else BadRequest
  }

  /** The two agree on every value except a parsed year the calendar cannot hold. */
  lemma MonthParamAgrees(raw: string)
    ensures MonthParamAsWritten(raw) != ServerError ==> MonthParam(raw) == MonthParamAsWritten(raw)
    ensures MonthParamAsWritten(raw) == ServerError ==> MonthParam(raw) == BadRequest
  {
  }

  // --- The compensation in force --------------------------------------------------------

  /** `inicio <= end` and (`fin` is null or `fin >= start`): the period overlaps the month. */
  predicate InForce(c: Compensation, start: Date, end: Date)
  {
    NotAfter(c.inicio, end) && (c.fin.None? || NotAfter(start, c.fin.value))
  }

  /** The filter `contact=emp` together with being in force during the month. */
  predicate Applies(c: Compensation, emp: ContactId, start: Date, end: Date)
  {
    c.contact == emp && InForce(c, start, end)
  }

  /**
   * `.filter(contact=emp, ...).order_by('-inicio').first()`: among the
   * employee's compensations in force, one with the latest `inicio`; between
   * equal starts the earlier row is taken.
   */
  function CurrentCompensation(rows: seq<Compensation>, emp: ContactId, start: Date, end: Date): (r: Option<nat>)
    ensures r.None? <==> forall i :: 0 <= i < |rows| ==> !Applies(rows[i], emp, start, end)
    ensures r.Some? ==> r.value < |rows| && Applies(rows[r.value], emp, start, end)
    ensures r.Some? ==> forall i :: 0 <= i < |rows| && Applies(rows[i], emp, start, end) ==>
      NotAfter(rows[i].inicio, rows[r.value].inicio)
    ensures r.Some? ==> forall i :: 0 <= i < r.value && Applies(rows[i], emp, start, end) ==>
      Before(rows[i].inicio, rows[r.value].inicio)
  {
    if rows == [] then None
    else
      var rest := CurrentCompensation(rows[1..], emp, start, end);
      var here := Applies(rows[0], emp, start, end);
      assert forall i :: 1 <= i < |rows| ==> rows[i] == rows[1..][i - 1];
      if !here then (if rest.None? then None else Some(rest.value + 1))
      else if rest.Some? && Before(rows[0].inicio, rows[rest.value + 1].inicio) then Some(rest.value + 1)
      else Some(0)
  }

  /** An open-ended compensation that started by the month's end is in force for the month. */
  lemma OpenEndedInForce(c: Compensation, start: Date, end: Date)
    requires c.fin.None? && NotAfter(c.inicio, end)
    ensures InForce(c, start, end)
  {
  }

  /** A compensation that ended before the month began is never chosen. */
  lemma EndedNotChosen(rows: seq<Compensation>, emp: ContactId, start: Date, end: Date, i: nat)
    requires i < |rows| && rows[i].fin.Some? && Before(rows[i].fin.value, start)
    ensures CurrentCompensation(rows, emp, start, end) != Some(i)
  {
    BeforeIsStrictOrder(rows[i].fin.value, start, rows[i].fin.value);
  }
}
