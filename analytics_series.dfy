// The reporting folds of the analytics services that group by period: the
// yearly income/expenses summary and the sales, expenses and VAT time series.
// Each grouped ORM query is an input sequence of rows in the query's order.

module AnalyticsSeries {
  import opened Common
  import opened Text
  import opened Money
  import opened Dates

  // --- get_yearly_summary ---------------------------------------------------

  /** A row of a query grouped by `ExtractYear`: the year (null for a null date) and its `Sum`. */
  datatype YearAmount = YearAmount(year: Option<int>, amount: Option<Cents>)

  /** An `OrgFinancialYear` with its opening balances. */
  datatype FinancialYear = FinancialYear(year: int, openingIncome: Option<Cents>, openingExpenses: Option<Cents>)

  datatype YearSummary = YearSummary(year: int, income: Cents, expenses: Cents, profit: Cents)

  /** What the grouped rows of year `y` add up to; rows with a null year belong to no year. */
  function RowsFor(rows: seq<YearAmount>, y: int): int
  {
    if rows == [] then 0
    else RowsFor(rows[..|rows| - 1], y)
         + (if rows[|rows| - 1].year == Some(y) then OrZero(rows[|rows| - 1].amount) else 0)
  }

  function OpeningIncomeFor(fys: seq<FinancialYear>, y: int): int
  {
    if fys == [] then 0
    else OpeningIncomeFor(fys[..|fys| - 1], y)
         + (if fys[|fys| - 1].year == y then OrZero(fys[|fys| - 1].openingIncome) else 0)
  }

  function OpeningExpensesFor(fys: seq<FinancialYear>, y: int): int
  {
    if fys == [] then 0
    else OpeningExpensesFor(fys[..|fys| - 1], y)
         + (if fys[|fys| - 1].year == y then OrZero(fys[|fys| - 1].openingExpenses) else 0)
  }

  /** The non-null years of grouped rows. */
  function RowYears(rows: seq<YearAmount>): set<int>
  {
    set r | r in rows && r.year.Some? :: r.year.value
  }

  function FinancialYears(fys: seq<FinancialYear>): set<int>
  {
    set f | f in fys :: f.year
  }

  /** The years the summary lists: those of any invoice row, expense row or financial year. */
  function SummaryYears(income: seq<YearAmount>, expenses: seq<YearAmount>, fys: seq<FinancialYear>): set<int>
  {
    RowYears(income) + RowYears(expenses) + FinancialYears(fys)
  }

  /** The entry of year `y`: the opening balance plus the grouped sum, and their difference. */
  function YearEntry(income: seq<YearAmount>, expenses: seq<YearAmount>, fys: seq<FinancialYear>, y: int): YearSummary
  {
    var inc := RowsFor(income, y) + OpeningIncomeFor(fys, y);
    var exp := RowsFor(expenses, y) + OpeningExpensesFor(fys, y);
    YearSummary(y, inc, exp, inc - exp)
  }

  lemma {:induction false} RowsForAbsent(rows: seq<YearAmount>, y: int)
    requires y !in RowYears(rows)
    ensures RowsFor(rows, y) == 0
  {
    if rows != [] {
      var init := rows[..|rows| - 1];
      assert RowYears(init) <= RowYears(rows) by {
        forall x | x in RowYears(init) ensures x in RowYears(rows) {
          var r :| r in init && r.year.Some? && r.year.value == x;
          assert r in rows;
        }
      }
      assert rows[|rows| - 1] in rows;
      RowsForAbsent(init, y);
    }
  }

  lemma {:induction false} OpeningsAbsent(fys: seq<FinancialYear>, y: int)
    requires y !in FinancialYears(fys)
    ensures OpeningIncomeFor(fys, y) == 0 && OpeningExpensesFor(fys, y) == 0
  {
    if fys != [] {
      var init := fys[..|fys| - 1];
      assert FinancialYears(init) <= FinancialYears(fys) by {
        forall x | x in FinancialYears(init) ensures x in FinancialYears(fys) {
          var f :| f in init && f.year == x;
          assert f in fys;
        }
      }
      assert fys[|fys| - 1] in fys;
      OpeningsAbsent(init, y);
    }
  }

  /**
   * The query groups by year, so a year has at most one row; the year's
   * amount is then that row's sum, or nothing when it has no row.
   */
  lemma {:induction false} SingleRowOfYear(rows: seq<YearAmount>, k: nat, y: int)
    requires k < |rows| && rows[k].year == Some(y)
    requires forall j :: 0 <= j < |rows| && j != k ==> rows[j].year != Some(y)
    ensures RowsFor(rows, y) == OrZero(rows[k].amount)
  {
    var init := rows[..|rows| - 1];
    if k == |rows| - 1 {
      forall j | 0 <= j < |init| ensures init[j].year != Some(y) {
        assert init[j] == rows[j];
      }
      assert y !in RowYears(init);
      RowsForAbsent(init, y);
    } else {
      assert forall j :: 0 <= j < |init| && j != k ==> init[j].year != Some(y) by {
        forall j | 0 <= j < |init| && j != k ensures init[j].year != Some(y) {
          assert init[j] == rows[j];
        }
      }
      SingleRowOfYear(init, k, y);
    }
  }

  lemma RowYearsSnoc(rows: seq<YearAmount>, r: YearAmount)
    ensures RowYears(rows + [r]) == RowYears(rows) + (if r.year.Some? then {r.year.value} else {})
  {
    var a, b := RowYears(rows + [r]), RowYears(rows) + (if r.year.Some? then {r.year.value} else {});
    forall x | x in a ensures x in b {
      var q :| q in rows + [r] && q.year.Some? && q.year.value == x;
      if q != r {
        assert q in rows;
      }
    }
    forall x | x in b ensures x in a {
      if x in RowYears(rows) {
        var q :| q in rows && q.year.Some? && q.year.value == x;
        assert q in rows + [r];
      } else {
        assert r in rows + [r];
      }
    }
  }

  lemma FinancialYearsSnoc(fys: seq<FinancialYear>, f: FinancialYear)
    ensures FinancialYears(fys + [f]) == FinancialYears(fys) + {f.year}
  {
    var a, b := FinancialYears(fys + [f]), FinancialYears(fys) + {f.year};
    forall x | x in a ensures x in b {
      var q :| q in fys + [f] && q.year == x;
      if q != f {
        assert q in fys;
      }
    }
    forall x | x in b ensures x in a {
      if x in FinancialYears(fys) {
        var q :| q in fys && q.year == x;
        assert q in fys + [f];
      } else {
        assert f in fys + [f];
      }
    }
  }

  /** A year's entry before the profit pass. */
  function Unprofited(income: seq<YearAmount>, expenses: seq<YearAmount>, fys: seq<FinancialYear>, y: int): YearSummary
  {
    YearEntry(income, expenses, fys, y).(profit := 0)
  }

  /** The summary's `defaultdict`: its entries and its keys in insertion order. */
  datatype YearDict = YearDict(entries: map<int, YearSummary>, order: seq<int>)

  /** The dict after the rows seen so far: one entry per year seen, with its sums. */
  ghost predicate Merged(d: YearDict, income: seq<YearAmount>, expenses: seq<YearAmount>, fys: seq<FinancialYear>)
  {
    && d.entries.Keys == SummaryYears(income, expenses, fys)
    && Distinct(d.order) && (forall y :: y in d.order <==> y in d.entries)
    && forall y :: y in d.entries ==> d.entries[y] == Unprofited(income, expenses, fys, y)
  }

  /** `result[year]`: the stored entry, or the default one. */
  function EntryOf(d: YearDict, y: int): YearSummary
  {
    if y in d.entries then d.entries[y] else YearSummary(y, 0, 0, 0)
  }

  /** Storing an entry: a new key goes to the end of the insertion order. */
  function Store(d: YearDict, e: YearSummary): YearDict
  {
    YearDict(d.entries[e.year := e], if e.year in d.entries then d.order else d.order + [e.year])
  }

  /** A year not seen yet has nothing to add up. */
  lemma UnseenYear(income: seq<YearAmount>, expenses: seq<YearAmount>, fys: seq<FinancialYear>, y: int)
    requires y !in SummaryYears(income, expenses, fys)
    ensures Unprofited(income, expenses, fys, y) == YearSummary(y, 0, 0, 0)
  {
    RowsForAbsent(income, y);
    RowsForAbsent(expenses, y);
    OpeningsAbsent(fys, y);
  }

  /** The body of the invoice loop. */
  function AddIncome(d: YearDict, row: YearAmount): YearDict
  {
    if row.year.None? then d
    else
      var e := EntryOf(d, row.year.value);
      Store(d, e.(income := e.income + OrZero(row.amount)))
  }

  /** The body of the expense loop. */
  function AddExpense(d: YearDict, row: YearAmount): YearDict
  {
    if row.year.None? then d
    else
      var e := EntryOf(d, row.year.value);
      Store(d, e.(expenses := e.expenses + OrZero(row.amount)))
  }

  /** The body of the financial-year loop. */
  function AddOpening(d: YearDict, fy: FinancialYear): YearDict
  {
    var e := EntryOf(d, fy.year);
    Store(d, e.(income := e.income + OrZero(fy.openingIncome),
                expenses := e.expenses + OrZero(fy.openingExpenses)))
  }

  /** Storing under a key keeps the order's keys distinct and equal to the entries' keys. */
  lemma StoreKeepsOrder(d: YearDict, e: YearSummary)
    requires Distinct(d.order) && (forall y :: y in d.order <==> y in d.entries)
    ensures Distinct(Store(d, e).order)
    ensures forall y :: y in Store(d, e).order <==> y in Store(d, e).entries
  {
    if e.year !in d.entries {
      var o := d.order + [e.year];
      forall i, j | 0 <= i < j < |o| ensures o[i] != o[j] {
        if j == |o| - 1 {
          assert o[i] == d.order[i];
          assert d.order[i] in d.order;
        }
      }
    }
  }

  lemma RowsForSnoc(rows: seq<YearAmount>, r: YearAmount, y: int)
    ensures RowsFor(rows + [r], y) == RowsFor(rows, y) + (if r.year == Some(y) then OrZero(r.amount) else 0)
  {
    assert (rows + [r])[..|rows|] == rows;
  }

  lemma OpeningsSnoc(fys: seq<FinancialYear>, f: FinancialYear, y: int)
    ensures OpeningIncomeFor(fys + [f], y) == OpeningIncomeFor(fys, y) + (if f.year == y then OrZero(f.openingIncome) else 0)
    ensures OpeningExpensesFor(fys + [f], y) == OpeningExpensesFor(fys, y) + (if f.year == y then OrZero(f.openingExpenses) else 0)
  {
    assert (fys + [f])[..|fys|] == fys;
  }

  /** In a merged dict, `result[year]` is the year's entry so far, stored or not. */
  lemma EntryOfMerged(d: YearDict, income: seq<YearAmount>, expenses: seq<YearAmount>, fys: seq<FinancialYear>, y: int)
    requires Merged(d, income, expenses, fys)
    ensures EntryOf(d, y) == Unprofited(income, expenses, fys, y)
  {
    if y !in d.entries {
      UnseenYear(income, expenses, fys, y);
    }
  }

  lemma IncomeEntry(d: YearDict, income: seq<YearAmount>, expenses: seq<YearAmount>,
                    fys: seq<FinancialYear>, row: YearAmount, y: int)
    requires Merged(d, income, expenses, fys)
    requires y in AddIncome(d, row).entries
    ensures AddIncome(d, row).entries[y] == Unprofited(income + [row], expenses, fys, y)
  {
    RowsForSnoc(income, row, y);
    EntryOfMerged(d, income, expenses, fys, y);
  }

  lemma IncomeStep(d: YearDict, income: seq<YearAmount>, expenses: seq<YearAmount>,
                   fys: seq<FinancialYear>, row: YearAmount)
    requires Merged(d, income, expenses, fys)
    ensures Merged(AddIncome(d, row), income + [row], expenses, fys)
  {
    var n := AddIncome(d, row);
    RowYearsSnoc(income, row);
    if row.year.Some? {
      var e := EntryOf(d, row.year.value);
      StoreKeepsOrder(d, e.(income := e.income + OrZero(row.amount)));
    }
    forall y | y in n.entries ensures n.entries[y] == Unprofited(income + [row], expenses, fys, y) {
      IncomeEntry(d, income, expenses, fys, row, y);
    }
  }

  lemma ExpenseEntry(d: YearDict, income: seq<YearAmount>, expenses: seq<YearAmount>,
                     fys: seq<FinancialYear>, row: YearAmount, y: int)
    requires Merged(d, income, expenses, fys)
    requires y in AddExpense(d, row).entries
    ensures AddExpense(d, row).entries[y] == Unprofited(income, expenses + [row], fys, y)
  {
    RowsForSnoc(expenses, row, y);
    EntryOfMerged(d, income, expenses, fys, y);
  }

  lemma ExpenseStep(d: YearDict, income: seq<YearAmount>, expenses: seq<YearAmount>,
                    fys: seq<FinancialYear>, row: YearAmount)
    requires Merged(d, income, expenses, fys)
    ensures Merged(AddExpense(d, row), income, expenses + [row], fys)
  {
    var n := AddExpense(d, row);
    RowYearsSnoc(expenses, row);
    if row.year.Some? {
      var e := EntryOf(d, row.year.value);
      StoreKeepsOrder(d, e.(expenses := e.expenses + OrZero(row.amount)));
    }
    forall y | y in n.entries ensures n.entries[y] == Unprofited(income, expenses + [row], fys, y) {
      ExpenseEntry(d, income, expenses, fys, row, y);
    }
  }

  lemma OpeningEntry(d: YearDict, income: seq<YearAmount>, expenses: seq<YearAmount>,
                     fys: seq<FinancialYear>, fy: FinancialYear, y: int)
    requires Merged(d, income, expenses, fys)
    requires y in AddOpening(d, fy).entries
    ensures AddOpening(d, fy).entries[y] == Unprofited(income, expenses, fys + [fy], y)
  {
    OpeningsSnoc(fys, fy, y);
    EntryOfMerged(d, income, expenses, fys, y);
  }

  lemma OpeningStep(d: YearDict, income: seq<YearAmount>, expenses: seq<YearAmount>,
                    fys: seq<FinancialYear>, fy: FinancialYear)
    requires Merged(d, income, expenses, fys)
    ensures Merged(AddOpening(d, fy), income, expenses, fys + [fy])
  {
    var n := AddOpening(d, fy);
    FinancialYearsSnoc(fys, fy);
    var e := EntryOf(d, fy.year);
    StoreKeepsOrder(d, e.(income := e.income + OrZero(fy.openingIncome),
                          expenses := e.expenses + OrZero(fy.openingExpenses)));
    forall y | y in n.entries ensures n.entries[y] == Unprofited(income, expenses, fys + [fy], y) {
      OpeningEntry(d, income, expenses, fys, fy, y);
    }
  }

  lemma OpeningStepAt(d: YearDict, income: seq<YearAmount>, expenses: seq<YearAmount>, fys: seq<FinancialYear>, i: nat)
    requires i < |fys| && Merged(d, income, expenses, fys[..i])
    ensures Merged(AddOpening(d, fys[i]), income, expenses, fys[..i + 1])
  {
    OpeningStep(d, income, expenses, fys[..i], fys[i]);
    assert fys[..i + 1] == fys[..i] + [fys[i]];
  }

  predicate StrictlyAscending(s: seq<int>)
  {
    forall i, j :: 0 <= i < j < |s| ==> s[i] < s[j]
  }

  /** Insertion of a new year into an ascending list of years. */
  function InsertYear(x: int, s: seq<int>): (r: seq<int>)
    requires StrictlyAscending(s) && x !in s
    ensures StrictlyAscending(r)
    ensures forall z :: z in r <==> z == x || z in s
  {
    if s == [] then [x]
    else if x < s[0] then
      AscendingCons(x, s);
      [x] + s
    else
      AscendingTail(s);
      var rest := InsertYear(x, s[1..]);
      AscendingCons(s[0], rest);
      assert forall z :: z in s <==> z == s[0] || z in s[1..] by {
        assert s == [s[0]] + s[1..];
      }
      [s[0]] + rest
  }

  /** The tail of an ascending list is ascending and lies above its head. */
  lemma AscendingTail(s: seq<int>)
    requires StrictlyAscending(s) && s != []
    ensures StrictlyAscending(s[1..])
    ensures forall z :: z in s[1..] ==> s[0] < z
  {
    forall z | z in s[1..] ensures s[0] < z {
      var k :| 0 <= k < |s[1..]| && s[1..][k] == z;
      assert s[k + 1] == z;
    }
  }

  /** A head below every member of an ascending list keeps it ascending. */
  lemma AscendingCons(h: int, s: seq<int>)
    requires StrictlyAscending(s) && forall z :: z in s ==> h < z
    ensures StrictlyAscending([h] + s)
  {
    var r := [h] + s;
    forall i, j | 0 <= i < j < |r| ensures r[i] < r[j] {
      assert r[j] == s[j - 1];
      if i > 0 {
        assert r[i] == s[i - 1];
      } else {
        assert s[j - 1] in s;
      }
    }
  }

  /** `sorted(...)` of distinct years: strictly ascending, the same years. */
  function SortYears(s: seq<int>): (r: seq<int>)
    requires Distinct(s)
    ensures StrictlyAscending(r)
    ensures forall z :: z in r <==> z in s
  {
    if s == [] then []
    else
      var init := s[..|s| - 1];
      assert s == init + [s[|s| - 1]];
      assert s[|s| - 1] !in init by {
        forall k | 0 <= k < |init| ensures init[k] != s[|s| - 1] {
          assert init[k] == s[k];
        }
      }
      InsertYear(s[|s| - 1], SortYears(init))
  }

  /** The invoice loop of `get_yearly_summary`. */
  method AddIncomeRows(d0: YearDict, income: seq<YearAmount>) returns (d: YearDict)
    requires Merged(d0, [], [], [])
    ensures Merged(d, income, [], [])
  {
    d := d0;
    for i := 0 to |income|
      invariant Merged(d, income[..i], [], [])
    {
      IncomeStep(d, income[..i], [], [], income[i]);
      assert income[..i + 1] == income[..i] + [income[i]];
      d := AddIncome(d, income[i]);
    }
    assert income[..|income|] == income;
  }

  /** The expense loop of `get_yearly_summary`. */
  method AddExpenseRows(d0: YearDict, income: seq<YearAmount>, expenses: seq<YearAmount>) returns (d: YearDict)
    requires Merged(d0, income, [], [])
    ensures Merged(d, income, expenses, [])
  {
    d := d0;
    for i := 0 to |expenses|
      invariant Merged(d, income, expenses[..i], [])
    {
      ExpenseStep(d, income, expenses[..i], [], expenses[i]);
      assert expenses[..i + 1] == expenses[..i] + [expenses[i]];
      d := AddExpense(d, expenses[i]);
    }
    assert expenses[..|expenses|] == expenses;
  }

  /** The financial-year loop of `get_yearly_summary`. */
  method AddOpenings(d0: YearDict, income: seq<YearAmount>, expenses: seq<YearAmount>, fys: seq<FinancialYear>)
    returns (d: YearDict)
    requires Merged(d0, income, expenses, [])
    ensures Merged(d, income, expenses, fys)
  {
    d := d0;
    for i := 0 to |fys|
      invariant Merged(d, income, expenses, fys[..i])
    {
      OpeningStepAt(d, income, expenses, fys, i);
      d := AddOpening(d, fys[i]);
    }
    assert fys[..|fys|] == fys;
  }

  /**
   * `get_yearly_summary`: a `defaultdict` keyed by year, filled by three
   * loops (invoice rows, expense rows, financial years), a profit pass, and
   * the values listed by ascending year.
   */
  method YearlySummary(income: seq<YearAmount>, expenses: seq<YearAmount>, fys: seq<FinancialYear>)
    returns (items: seq<YearSummary>)
    ensures forall i, j :: 0 <= i < j < |items| ==> items[i].year < items[j].year
    ensures (set e | e in items :: e.year) == SummaryYears(income, expenses, fys)
    ensures forall i :: 0 <= i < |items| ==> items[i] == YearEntry(income, expenses, fys, items[i].year)
  {
    var result := YearDict(map[], []);
    result := AddIncomeRows(result, income);
    result := AddExpenseRows(result, income, expenses);
    result := AddOpenings(result, income, expenses, fys);
    result := WithProfit(result);
    items := ListByYear(result);
  }

  /** The profit pass: every entry's profit becomes its income minus its expenses. */
  function WithProfit(d: YearDict): (r: YearDict)
    ensures r.order == d.order && r.entries.Keys == d.entries.Keys
    ensures forall y :: y in r.entries ==> r.entries[y] == d.entries[y].(profit := d.entries[y].income - d.entries[y].expenses)
  {
    YearDict(map y | y in d.entries :: d.entries[y].(profit := d.entries[y].income - d.entries[y].expenses), d.order)
  }

  /** `sorted(result.values(), key=lambda x: x["year"])`. */
  method ListByYear(d: YearDict) returns (items: seq<YearSummary>)
    requires Distinct(d.order) && (forall y :: y in d.order <==> y in d.entries)
    requires forall y :: y in d.entries ==> d.entries[y].year == y
    ensures forall i, j :: 0 <= i < j < |items| ==> items[i].year < items[j].year
    ensures (set e | e in items :: e.year) == d.entries.Keys
    ensures forall i :: 0 <= i < |items| ==> items[i].year in d.entries && items[i] == d.entries[items[i].year]
  {
    var years := SortYears(d.order);
    assert forall k :: 0 <= k < |years| ==> years[k] in years;
    items := seq(|years|, k requires 0 <= k < |years| => d.entries[years[k]]);
    assert forall k :: 0 <= k < |items| ==> items[k].year == years[k];
    assert (set e | e in items :: e.year) == d.entries.Keys by {
      forall y | y in d.entries ensures y in (set e | e in items :: e.year) {
        assert y in years;
        var k :| 0 <= k < |years| && years[k] == y;
        assert items[k] in items;
      }
    }
  }

  // --- Time series ------------------------------------------------------------

  /** The three groupings of the time series. */
  datatype GroupBy = ByMonth | ByQuarter | ByYear
  {
    function Code(): string
    {
      match this
        case ByMonth => "month"
        case ByQuarter => "quarter"
        case ByYear => "year"
    }
  }

  /**
   * `group_by = (group_by or "month").lower()`, and anything but the three
   * codes falls back to "month".
   */
  function NormalizeGroupBy(g: Option<string>): (r: GroupBy)
    ensures g.Some? && Lower(g.value) == "year" ==> r == ByYear
    ensures g.Some? && Lower(g.value) == "quarter" ==> r == ByQuarter
    ensures r != ByMonth ==> g.Some? && Lower(g.value) == r.Code()
  {
    var s := if g.None? || g.value == "" then "month" else Lower(g.value);
    if s == "year" then ByYear else if s == "quarter" then ByQuarter else ByMonth
  }

  /** The grouping the response reports is accepted unchanged when passed back. */
  lemma NormalizeGroupByIdempotent(g: Option<string>)
    ensures NormalizeGroupBy(Some(NormalizeGroupBy(g).Code())) == NormalizeGroupBy(g)
  {
    var r := NormalizeGroupBy(g);
    match r
      case ByMonth => LowerWord("month", "month");
      case ByQuarter => LowerWord("quarter", "quarter");
      case ByYear => LowerWord("year", "year");
  }

  /** Upper-case spellings select the same grouping. */
  lemma NormalizeGroupByIgnoresCase()
    ensures NormalizeGroupBy(Some("YEAR")) == ByYear
    ensures NormalizeGroupBy(Some("Quarter")) == ByQuarter
    ensures NormalizeGroupBy(Some("week")) == ByMonth
    ensures NormalizeGroupBy(None) == ByMonth
  {
    LowerWord("YEAR", "year");
    LowerWord("Quarter", "quarter");
  }

  /** `f"{n:02d}"` for any integer: a sign, then at least two digits for non-negative values. */
  function Format02(n: int): string
  {
    if n < 0 then "-" + NatToString(-n) else Pad2(n)
  }

  function YearLabel(year: int): string
  {
    IntToString(year)
  }

  function QuarterLabel(year: int, quarter: int): string
  {
    IntToString(year) + "-Q" + IntToString(quarter)
  }

  function MonthLabel(year: int, month: int): string
  {
    IntToString(year) + "-" + Format02(month)
  }

  /** The label of a period: "YYYY", "YYYY-Qn" or "YYYY-MM". */
  function PeriodLabel(g: GroupBy, year: int, part: int): string
  {
    match g
      case ByYear => YearLabel(year)
      case ByQuarter => QuarterLabel(year, part)
      case ByMonth => MonthLabel(year, part)
  }

  /** A year label reads back as its year. */
  lemma YearLabelParses(year: int)
    ensures ParseInt(YearLabel(year)) == Some(year)
  {
    ParseIntToString(year);
  }

  /** A month label of a four-digit year is seven characters with the dash in the middle. */
  lemma MonthLabelShape(year: int, month: int)
    requires 1000 <= year <= 9999 && 1 <= month <= 12
    ensures |MonthLabel(year, month)| == 7 && MonthLabel(year, month)[4] == '-'
  {
    NatToStringLength(year);
    DigitsOfPad2Length(month);
  }

  /** Two months of non-negative years share a label only when they are the same month. */
  lemma {:induction false} MonthLabelInjective(y1: int, m1: int, y2: int, m2: int)
    requires y1 >= 0 && y2 >= 0 && 1 <= m1 <= 12 && 1 <= m2 <= 12
    requires MonthLabel(y1, m1) == MonthLabel(y2, m2)
    ensures y1 == y2 && m1 == m2
  {
    MonthLabelSplit(y1, m1);
    MonthLabelSplit(y2, m2);
    DigitsOfNatToString(y1);
    DigitsOfNatToString(y2);
    DigitsOfPad2(m1);
    DigitsOfPad2(m2);
  }

  lemma {:induction false} MonthLabelSplit(y: int, m: int)
    requires y >= 0 && 1 <= m <= 12
    ensures Split(MonthLabel(y, m), '-') == [NatToString(y), Pad2(m)]
  {
    var a, b := NatToString(y), Pad2(m);
    assert MonthLabel(y, m) == a + ['-'] + b;
    SplitConcat(a, b, '-');
    OnePiece(a, '-');
    OnePiece(b, '-');
  }

  /** Two quarters of non-negative years share a label only when they are the same quarter. */
  lemma {:induction false} QuarterLabelInjective(y1: int, q1: int, y2: int, q2: int)
    requires y1 >= 0 && y2 >= 0 && q1 >= 0 && q2 >= 0
    requires QuarterLabel(y1, q1) == QuarterLabel(y2, q2)
    ensures y1 == y2 && q1 == q2
  {
    QuarterLabelSplit(y1, q1);
    QuarterLabelSplit(y2, q2);
    var t1, t2 := "Q" + NatToString(q1), "Q" + NatToString(q2);
    assert t1[1..] == NatToString(q1) && t2[1..] == NatToString(q2);
    DigitsOfNatToString(y1);
    DigitsOfNatToString(y2);
    DigitsOfNatToString(q1);
    DigitsOfNatToString(q2);
  }

  lemma {:induction false} QuarterLabelSplit(y: int, q: int)
    requires y >= 0 && q >= 0
    ensures Split(QuarterLabel(y, q), '-') == [NatToString(y), "Q" + NatToString(q)]
  {
    var a, b := NatToString(y), "Q" + NatToString(q);
    assert QuarterLabel(y, q) == a + ['-'] + b;
    SplitConcat(a, b, '-');
    OnePiece(a, '-');
    assert '-' !in b by {
      assert forall k :: 1 <= k < |b| ==> b[k] == NatToString(q)[k - 1];
    }
    SplitNoSeparator(b, '-');
  }

  lemma OnePiece(s: string, c: char)
    requires AllDigits(s) && !IsDigit(c)
    ensures Split(s, c) == [s]
  {
    assert c !in s;
    SplitNoSeparator(s, c);
  }

  /**
   * A row of a time-series query: the year, the quarter or month (unused
   * when grouping by year), the sums and the count. An expense row carries
   * no tax.
   */
  datatype PeriodRow = PeriodRow(
    year: Option<int>, part: Option<int>, base: Option<Cents>, tax: Option<Cents>, count: Option<int>)

  datatype SeriesItem = SeriesItem(period: string, base: Cents, tax: Cents, count: int)

  datatype SeriesTotals = SeriesTotals(base: Cents, tax: Cents, count: int)

  /** A row the loop keeps: it has a year, and a quarter or month unless grouping by year. */
  predicate Kept(g: GroupBy, row: PeriodRow)
  {
    row.year.Some? && (g == ByYear || row.part.Some?)
  }

  function ItemOf(g: GroupBy, row: PeriodRow): SeriesItem
    requires Kept(g, row)
  {
    var part := if g == ByYear then 0 else row.part.value;
    SeriesItem(PeriodLabel(g, row.year.value, part), OrZero(row.base), OrZero(row.tax), OrZero(row.count))
  }

  /** The items of a time series: one per kept row, in the query's order. */
  function SeriesItems(g: GroupBy, rows: seq<PeriodRow>): (items: seq<SeriesItem>)
    ensures |items| <= |rows|
  {
    if rows == [] then []
    else
      var init := SeriesItems(g, rows[..|rows| - 1]);
      var last := rows[|rows| - 1];
      if Kept(g, last) then init + [ItemOf(g, last)] else init
  }

  function ItemBase(it: SeriesItem): int { it.base }
  function ItemTax(it: SeriesItem): int { it.tax }
  function ItemCount(it: SeriesItem): int { it.count }

  /** Row values a kept row contributes, and zero for a skipped row. */
  function KeptBase(g: GroupBy, row: PeriodRow): int { if Kept(g, row) then OrZero(row.base) else 0 }
  function KeptTax(g: GroupBy, row: PeriodRow): int { if Kept(g, row) then OrZero(row.tax) else 0 }
  function KeptCount(g: GroupBy, row: PeriodRow): int { if Kept(g, row) then OrZero(row.count) else 0 }

  function SumKept(f: (GroupBy, PeriodRow) -> int, g: GroupBy, rows: seq<PeriodRow>): int
  {
    if rows == [] then 0 else SumKept(f, g, rows[..|rows| - 1]) + f(g, rows[|rows| - 1])
  }

  /**
   * The totals of a series are what the kept rows add up to: rows with a
   * null year (or a null quarter or month) count for nothing.
   */
  lemma {:induction false} SeriesTotalsOfRows(g: GroupBy, rows: seq<PeriodRow>)
    ensures SumOf(ItemBase, SeriesItems(g, rows)) == SumKept(KeptBase, g, rows)
    ensures SumOf(ItemTax, SeriesItems(g, rows)) == SumKept(KeptTax, g, rows)
    ensures SumOf(ItemCount, SeriesItems(g, rows)) == SumKept(KeptCount, g, rows)
  {
    if rows != [] {
      var init := rows[..|rows| - 1];
      var last := rows[|rows| - 1];
      SeriesTotalsOfRows(g, init);
      if Kept(g, last) {
        SumOfSnoc(ItemBase, SeriesItems(g, init), ItemOf(g, last));
        SumOfSnoc(ItemTax, SeriesItems(g, init), ItemOf(g, last));
        SumOfSnoc(ItemCount, SeriesItems(g, init), ItemOf(g, last));
      }
    }
  }

  /** Each item comes from a kept row, in order: the k-th item is the k-th kept row's. */
  lemma {:induction false} SeriesItemsFromRows(g: GroupBy, rows: seq<PeriodRow>, k: nat)
    requires k < |SeriesItems(g, rows)|
    ensures exists j :: 0 <= j < |rows| && Kept(g, rows[j]) && SeriesItems(g, rows)[k] == ItemOf(g, rows[j])
  {
    var init := rows[..|rows| - 1];
    var last := rows[|rows| - 1];
    if k < |SeriesItems(g, init)| {
      SeriesItemsFromRows(g, init, k);
      var j :| 0 <= j < |init| && Kept(g, init[j]) && SeriesItems(g, init)[k] == ItemOf(g, init[j]);
      assert rows[j] == init[j];
    } else {
      assert Kept(g, rows[|rows| - 1]);
    }
  }

  /**
   * The loop of `get_sales_timeseries`, `get_expenses_timeseries` and
   * `get_vat_summary` for one grouping, followed by the `sum(...)` totals.
   */
  method Series(g: GroupBy, rows: seq<PeriodRow>) returns (items: seq<SeriesItem>, totals: SeriesTotals)
    ensures items == SeriesItems(g, rows)
    ensures totals == SeriesTotals(SumKept(KeptBase, g, rows), SumKept(KeptTax, g, rows), SumKept(KeptCount, g, rows))
  {
    items := CollectItems(g, rows);
    var base, tax, count := SumItems(items);
    SeriesTotalsOfRows(g, rows);
    totals := SeriesTotals(base, tax, count);
  }

  /** The loop over the rows: a row without its year (or part) is skipped. */
  method CollectItems(g: GroupBy, rows: seq<PeriodRow>) returns (items: seq<SeriesItem>)
    ensures items == SeriesItems(g, rows)
  {
    items := [];
    for i := 0 to |rows|
      invariant items == SeriesItems(g, rows[..i])
    {
      var row := rows[i];
      assert rows[..i + 1][..i] == rows[..i];
      if row.year.Some? && (g == ByYear || row.part.Some?) {
        var part := if g == ByYear then 0 else row.part.value;
        var period := PeriodLabel(g, row.year.value, part);
        items := items + [SeriesItem(period, OrZero(row.base), OrZero(row.tax), OrZero(row.count))];
      }
    }
    assert rows[..|rows|] == rows;
  }

  /** The `sum(...)` totals over the items. */
  method SumItems(items: seq<SeriesItem>) returns (base: int, tax: int, count: int)
    ensures base == SumOf(ItemBase, items) && tax == SumOf(ItemTax, items) && count == SumOf(ItemCount, items)
  {
    base, tax, count := 0, 0, 0;
    for i := 0 to |items|
      invariant base == SumOf(ItemBase, items[..i])
      invariant tax == SumOf(ItemTax, items[..i])
      invariant count == SumOf(ItemCount, items[..i])
    {
      assert items[..i + 1] == items[..i] + [items[i]];
      SumOfSnoc(ItemBase, items[..i], items[i]);
      SumOfSnoc(ItemTax, items[..i], items[i]);
      SumOfSnoc(ItemCount, items[..i], items[i]);
      base, tax, count := base + items[i].base, tax + items[i].tax, count + items[i].count;
    }
    assert items[..|items|] == items;
  }
}
