// The reporting folds of the analytics services that do not group by
// period: the receivables overview, the top customers and the quoted versus
// invoiced comparison. Each ORM query is an input sequence of rows.

module AnalyticsReports {
  import opened Common
  import opened Text
  import opened Money
  import opened Dates
  import opened SalesModels

  /**
   * The columns of an `Invoice` row the reports read; `paid` is the
   * `Coalesce(Sum("payments__amount"), 0)` annotation.
   */
  datatype InvoiceFact = InvoiceFact(
    id: nat, org: OrgId, series: string, number: Option<int>, dateIssue: Date,
    customerName: string, currency: string, status: InvoiceStatus, paymentStatus: PaymentStatus,
    totalBase: Cents, total: Cents, paid: Cents)

  /** `date_from` and `date_to`, both inclusive and both optional. */
  predicate InRange(d: Date, from: Option<Date>, to: Option<Date>)
  {
    (from.None? || NotAfter(from.value, d)) && (to.None? || NotAfter(d, to.value))
  }

  // --- get_receivables_overview -------------------------------------------------

  /** The invoices the overview queries: posted, of the org, not fully paid. */
  predicate Open(inv: InvoiceFact, org: OrgId)
  {
    inv.org == org && inv.status == Posted && inv.paymentStatus != Paid
  }

  function Pending(inv: InvoiceFact): int
  {
    inv.total - inv.paid
  }

  /** An open invoice with something left to collect; the loop skips the others. */
  predicate Counted(inv: InvoiceFact, org: OrgId)
  {
    Open(inv, org) && Pending(inv) > 0
  }

  datatype ReceivableItem = ReceivableItem(
    invoiceId: nat, series: string, number: Option<int>, dateIssue: Date, customerName: string,
    pending: Cents, daysSinceIssue: int, paymentStatus: PaymentStatus)

  datatype Receivables = Receivables(
    asOf: Date, currency: string, totalPending: Cents, byStatus: map<string, Cents>,
    topInvoices: seq<ReceivableItem>)

  /** The item the loop appends for an invoice, with `(as_of - date_issue).days`. */
  function ItemOf(inv: InvoiceFact, asOf: Date): ReceivableItem
    requires ValidDate(inv.dateIssue) && ValidDate(asOf)
  {
    ReceivableItem(inv.id, inv.series, inv.number, inv.dateIssue, inv.customerName,
                   Pending(inv), Ordinal(asOf) - Ordinal(inv.dateIssue), inv.paymentStatus)
  }

  predicate ValidDates(rows: seq<InvoiceFact>)
  {
    forall k :: 0 <= k < |rows| ==> ValidDate(rows[k].dateIssue)
  }

  /** `invoices_data` before sorting: one item per counted invoice, in query order. */
  function OpenItems(rows: seq<InvoiceFact>, org: OrgId, asOf: Date): (items: seq<ReceivableItem>)
    requires ValidDates(rows) && ValidDate(asOf)
    ensures |items| <= |rows|
    ensures forall k :: 0 <= k < |items| ==> items[k].pending > 0 && items[k].paymentStatus != Paid
  {
    if rows == [] then []
    else
      var init := OpenItems(rows[..|rows| - 1], org, asOf);
      var last := rows[|rows| - 1];
      if Counted(last, org) then init + [ItemOf(last, asOf)] else init
  }

  function ItemPending(it: ReceivableItem): int { it.pending }

  /** The pending amounts of the items in one payment status. */
  function StatusPending(items: seq<ReceivableItem>, status: PaymentStatus): int
  {
    if items == [] then 0
    else StatusPending(items[..|items| - 1], status)
         + (if items[|items| - 1].paymentStatus == status then items[|items| - 1].pending else 0)
  }

  /** Every pending amount is in "unpaid" or in "partial": a fully paid invoice is never listed. */
  lemma {:induction false} PendingSplitsByStatus(items: seq<ReceivableItem>)
    requires forall k :: 0 <= k < |items| ==> items[k].paymentStatus != Paid
    ensures SumOf(ItemPending, items) == StatusPending(items, Unpaid) + StatusPending(items, Partial)
  {
    if items != [] {
      var init := items[..|items| - 1];
      var last := items[|items| - 1];
      assert items == init + [last];
      SumOfSnoc(ItemPending, init, last);
      PendingSplitsByStatus(init);
    }
  }

  /** The overview's total is positive exactly when some invoice has something pending. */
  lemma {:induction false} TotalPendingPositive(rows: seq<InvoiceFact>, org: OrgId, asOf: Date)
    requires ValidDates(rows) && ValidDate(asOf)
    ensures SumOf(ItemPending, OpenItems(rows, org, asOf)) >= 0
    ensures SumOf(ItemPending, OpenItems(rows, org, asOf)) > 0
            <==> exists k :: 0 <= k < |rows| && Counted(rows[k], org)
  {
    if rows != [] {
      var init := rows[..|rows| - 1];
      var last := rows[|rows| - 1];
      TotalPendingPositive(init, org, asOf);
      if Counted(last, org) {
        SumOfSnoc(ItemPending, OpenItems(init, org, asOf), ItemOf(last, asOf));
      }
      if exists k :: 0 <= k < |init| && Counted(init[k], org) {
        var k :| 0 <= k < |init| && Counted(init[k], org);
        assert rows[k] == init[k];
      }
      if exists k :: 0 <= k < |rows| && Counted(rows[k], org) {
        var k :| 0 <= k < |rows| && Counted(rows[k], org);
        if k < |init| {
          assert init[k] == rows[k];
        }
      }
    }
  }

  /** The sort key `(pending_amount, days_since_issue or 0)`, compared lexicographically. */
  predicate KeyAtLeast(a: ReceivableItem, b: ReceivableItem)
  {
    a.pending > b.pending || (a.pending == b.pending && a.daysSinceIssue >= b.daysSinceIssue)
  }

  predicate SortedDesc(s: seq<ReceivableItem>)
  {
    forall i, j :: 0 <= i < j < |s| ==> KeyAtLeast(s[i], s[j])
  }

  /** Insertion after every item whose key is at least as large, which keeps equal keys in order. */
  function InsertDesc(x: ReceivableItem, s: seq<ReceivableItem>): (r: seq<ReceivableItem>)
    requires SortedDesc(s)
    ensures SortedDesc(r)
    ensures multiset(r) == multiset(s) + multiset{x}
  {
    if s == [] then [x]
    else if !KeyAtLeast(s[0], x) then
      assert forall k :: 0 <= k < |s| ==> KeyAtLeast(s[0], s[k]);
      [x] + s
    else
      var rest := InsertDesc(x, s[1..]);
      assert s == [s[0]] + s[1..];
      assert forall k :: 0 <= k < |rest| ==> KeyAtLeast(s[0], rest[k]) by {
        forall k | 0 <= k < |rest| ensures KeyAtLeast(s[0], rest[k]) {
          assert rest[k] in multiset(rest);
          if rest[k] != x {
            assert rest[k] in multiset(s[1..]);
            var j :| 0 <= j < |s[1..]| && s[1..][j] == rest[k];
            assert s[j + 1] == rest[k];
          }
        }
      }
      [s[0]] + rest
  }

  /** `list.sort(key=..., reverse=True)`: descending by key, a permutation of its input. */
  function SortByKeyDesc(s: seq<ReceivableItem>): (r: seq<ReceivableItem>)
    ensures SortedDesc(r)
    ensures multiset(r) == multiset(s)
  {
    if s == [] then []
    else
      assert s == s[..|s| - 1] + [s[|s| - 1]];
      InsertDesc(s[|s| - 1], SortByKeyDesc(s[..|s| - 1]))
  }

  /** `s[:n]` on a Python list: a negative bound counts from the end. */
  function ListPrefix<T>(s: seq<T>, n: int): (r: seq<T>)
    ensures 0 <= n ==> |r| == if n <= |s| then n else |s|
    ensures n < 0 ==> |r| == if -n <= |s| then |s| + n else 0
    ensures r == s[..|r|]
  {
    if n >= 0 then (if n <= |s| then s[..n] else s)
    else if -n <= |s| then s[..|s| + n]
    else []
  }

  /** The first open invoice by primary key (`qs.first()` on an unordered query). */
  function FirstOpen(rows: seq<InvoiceFact>, org: OrgId): (r: Option<InvoiceFact>)
    ensures r.None? <==> forall k :: 0 <= k < |rows| ==> !Open(rows[k], org)
    ensures r.Some? ==> r.value in rows && Open(r.value, org)
    ensures r.Some? ==> forall k :: 0 <= k < |rows| && Open(rows[k], org) ==> r.value.id <= rows[k].id
  {
    if rows == [] then None
    else
      var rest := FirstOpen(rows[1..], org);
      assert forall k :: 1 <= k < |rows| ==> rows[k] == rows[1..][k - 1];
      if !Open(rows[0], org) then rest
      else if rest.Some? && rest.value.id < rows[0].id then rest
      else Some(rows[0])
  }

  const DefaultCurrency := "EUR"

  /** One pass of the loop: an open invoice with something pending adds its item to every figure. */
  method CountRow(inv: InvoiceFact, org: OrgId, asOf: Date, data: seq<ReceivableItem>,
                  totalPending: int, byStatus: map<string, int>)
    returns (data': seq<ReceivableItem>, totalPending': int, byStatus': map<string, int>)
    requires ValidDate(inv.dateIssue) && ValidDate(asOf)
    requires totalPending == SumOf(ItemPending, data)
    requires byStatus == map["unpaid" := StatusPending(data, Unpaid), "partial" := StatusPending(data, Partial)]
    ensures data' == if Counted(inv, org) then data + [ItemOf(inv, asOf)] else data
    ensures totalPending' == SumOf(ItemPending, data')
    ensures byStatus' == map["unpaid" := StatusPending(data', Unpaid), "partial" := StatusPending(data', Partial)]
  {
    data', totalPending', byStatus' := data, totalPending, byStatus;
    if Open(inv, org) {
      var pending := inv.total - inv.paid;
      if pending > 0 {
        totalPending' := totalPending + pending;
        // A listed invoice is never "paid", so its status is one of the two keys.
        var status := inv.paymentStatus.Code();
        byStatus' := byStatus[status := byStatus[status] + pending];
        var days := Ordinal(asOf) - Ordinal(inv.dateIssue);
        var item := ReceivableItem(inv.id, inv.series, inv.number, inv.dateIssue, inv.customerName,
                                   pending, days, inv.paymentStatus);
        SumOfSnoc(ItemPending, data, item);
        assert (data + [item])[..|data|] == data;
        data' := data + [item];
        assert StatusPending(data', Unpaid) == StatusPending(data, Unpaid) + (if inv.paymentStatus == Unpaid then pending else 0);
        assert StatusPending(data', Partial) == StatusPending(data, Partial) + (if inv.paymentStatus == Partial then pending else 0);
      }
    }
  }

  /**
   * `get_receivables_overview`: the loop over the org's posted, not fully
   * paid invoices accumulates the pending amounts in total and per payment
   * status; the listed invoices are sorted by pending amount and age and
   * cut to `limit`. `as_of` defaults to today in the source; it is a
   * parameter here.
   */
  method ReceivablesOverview(rows: seq<InvoiceFact>, org: OrgId, asOf: Date, limit: int)
    returns (rep: Receivables)
    requires ValidDates(rows) && ValidDate(asOf)
    ensures rep.asOf == asOf
    ensures rep.totalPending == SumOf(ItemPending, OpenItems(rows, org, asOf))
    ensures rep.byStatus == map["unpaid" := StatusPending(OpenItems(rows, org, asOf), Unpaid),
                                "partial" := StatusPending(OpenItems(rows, org, asOf), Partial)]
    ensures rep.topInvoices == ListPrefix(SortByKeyDesc(OpenItems(rows, org, asOf)), limit)
    ensures FirstOpen(rows, org).None? ==> rep.currency == DefaultCurrency
    ensures FirstOpen(rows, org).Some? ==> rep.currency == FirstOpen(rows, org).value.currency
  {
    var totalPending := 0;
    var byStatus := map["unpaid" := 0, "partial" := 0];
    var data: seq<ReceivableItem> := [];
    for i := 0 to |rows|
      invariant data == OpenItems(rows[..i], org, asOf)
      invariant totalPending == SumOf(ItemPending, data)
      invariant byStatus == map["unpaid" := StatusPending(data, Unpaid), "partial" := StatusPending(data, Partial)]
    {
      assert rows[..i + 1][..i] == rows[..i];
      data, totalPending, byStatus := CountRow(rows[i], org, asOf, data, totalPending, byStatus);
    }
    assert rows[..|rows|] == rows;
    var sorted := SortByKeyDesc(data);
    var top := ListPrefix(sorted, limit);
    var first := FirstOpen(rows, org);
    var currency := if first.Some? then first.value.currency else DefaultCurrency;
    rep := Receivables(asOf, currency, totalPending, byStatus, top);
  }

  /** The listed invoices are the most owed first, and each has something pending. */
  lemma TopInvoicesOrdered(rows: seq<InvoiceFact>, org: OrgId, asOf: Date, limit: int)
    requires ValidDates(rows) && ValidDate(asOf)
    ensures SortedDesc(ListPrefix(SortByKeyDesc(OpenItems(rows, org, asOf)), limit))
    ensures forall it :: it in ListPrefix(SortByKeyDesc(OpenItems(rows, org, asOf)), limit) ==>
              it in OpenItems(rows, org, asOf) && it.pending > 0
  {
    var items := OpenItems(rows, org, asOf);
    var sorted := SortByKeyDesc(items);
    SortedDescPrefix(sorted, limit);
    forall it | it in ListPrefix(sorted, limit) ensures it in items && it.pending > 0 {
      PrefixMember(sorted, limit, it);
      assert it in multiset(sorted);
      var k :| 0 <= k < |items| && items[k] == it;
    }
  }

  lemma PrefixMember<T>(s: seq<T>, n: int, x: T)
    requires x in ListPrefix(s, n)
    ensures x in s
  {
    var r := ListPrefix(s, n);
    var k :| 0 <= k < |r| && r[k] == x;
    assert s[k] == x;
  }

  lemma SortedDescPrefix(s: seq<ReceivableItem>, n: int)
    requires SortedDesc(s)
    ensures SortedDesc(ListPrefix(s, n))
  {
    var r := ListPrefix(s, n);
    forall i, j | 0 <= i < j < |r| ensures KeyAtLeast(r[i], r[j]) {
      assert r[i] == s[i] && r[j] == s[j];
    }
  }

  /** With a non-negative limit, exactly `min(limit, n)` of the n open invoices are listed. */
  lemma TopInvoicesLimit(rows: seq<InvoiceFact>, org: OrgId, asOf: Date, limit: int)
    requires ValidDates(rows) && ValidDate(asOf) && limit >= 0
    ensures |ListPrefix(SortByKeyDesc(OpenItems(rows, org, asOf)), limit)|
            == if limit <= |OpenItems(rows, org, asOf)| then limit else |OpenItems(rows, org, asOf)|
  {
    var items := OpenItems(rows, org, asOf);
    assert |SortByKeyDesc(items)| == |multiset(SortByKeyDesc(items))| == |multiset(items)| == |items|;
  }

  // --- get_top_customers ----------------------------------------------------------

  /** A row of the query grouped by customer, in its `-total_base` order. */
  datatype CustomerRow = CustomerRow(customer: ContactId, totalBase: Option<Cents>, totalTax: Option<Cents>, count: Option<int>)

  datatype CustomerItem = CustomerItem(customer: ContactId, name: string, totalBase: Cents, totalTax: Cents, count: int)

  /** `contacts_by_id.get(cid, f"ID {cid}")`. */
  function CustomerName(names: map<ContactId, string>, cid: ContactId): string
  {
    if cid in names then names[cid] else "ID " + NatToString(cid)
  }

  function CustomerItemOf(names: map<ContactId, string>, row: CustomerRow): CustomerItem
  {
    CustomerItem(row.customer, CustomerName(names, row.customer), OrZero(row.totalBase), OrZero(row.totalTax), OrZero(row.count))
  }

  const NegativeSlice := ValueError("Negative indexing is not supported.")

  /**
   * `get_top_customers`: the first `limit` grouped rows, each with its
   * customer's display name. A queryset refuses a negative slice bound.
   */
  method TopCustomers(rows: seq<CustomerRow>, names: map<ContactId, string>, limit: int)
    returns (r: Result<seq<CustomerItem>>)
    ensures r.Err? <==> limit < 0
    ensures r.Err? ==> r.error == NegativeSlice
    ensures r.Ok? ==> |r.value| == (if limit <= |rows| then limit else |rows|)
    ensures r.Ok? ==> forall k :: 0 <= k < |r.value| ==> r.value[k] == CustomerItemOf(names, rows[k])
  {
    if limit < 0 {
      return Err(NegativeSlice);
    }
    var n := if limit <= |rows| then limit else |rows|;
    var items: seq<CustomerItem> := [];
    var i := 0;
    while i < n
      invariant 0 <= i <= n
      invariant |items| == i
      invariant forall k :: 0 <= k < i ==> items[k] == CustomerItemOf(names, rows[k])
    {
      var row := rows[i];
      var name := if row.customer in names then names[row.customer] else "ID " + NatToString(row.customer);
      items := items + [CustomerItem(row.customer, name, OrZero(row.totalBase), OrZero(row.totalTax), OrZero(row.count))];
      i := i + 1;
    }
    r := Ok(items);
  }

  /** A customer without a contact row is shown by its id, which tells different customers apart. */
  lemma FallbackNamesDistinct(names: map<ContactId, string>, a: ContactId, b: ContactId)
    requires a !in names && b !in names && a != b
    ensures CustomerName(names, a) != CustomerName(names, b)
  {
    var sa, sb := CustomerName(names, a), CustomerName(names, b);
    if sa == sb {
      assert sa[3..] == NatToString(a) && sb[3..] == NatToString(b);
      DigitsOfNatToString(a);
      DigitsOfNatToString(b);
    }
  }

  // --- get_quotes_vs_invoices --------------------------------------------------------

  /** The columns of a `Quote` row the comparison reads. */
  datatype QuoteFact = QuoteFact(org: OrgId, status: QuoteStatus, date: Date, totalBase: Cents)

  predicate QuoteCounts(q: QuoteFact, org: OrgId, from: Option<Date>, to: Option<Date>)
  {
    q.org == org && q.status != QuoteDraft && InRange(q.date, from, to)
  }

  predicate InvoiceCounts(inv: InvoiceFact, org: OrgId, from: Option<Date>, to: Option<Date>)
  {
    inv.org == org && inv.status == Posted && InRange(inv.dateIssue, from, to)
  }

  /** `Sum("totals_base")` over the org's quotes past draft in the range (0 when there are none). */
  function QuotedTotal(quotes: seq<QuoteFact>, org: OrgId, from: Option<Date>, to: Option<Date>): int
  {
    if quotes == [] then 0
    else QuotedTotal(quotes[..|quotes| - 1], org, from, to)
         + (if QuoteCounts(quotes[|quotes| - 1], org, from, to) then quotes[|quotes| - 1].totalBase else 0)
  }

  /** `Sum("totals_base")` over the org's posted invoices issued in the range. */
  function InvoicedTotal(invoices: seq<InvoiceFact>, org: OrgId, from: Option<Date>, to: Option<Date>): int
  {
    if invoices == [] then 0
    else InvoicedTotal(invoices[..|invoices| - 1], org, from, to)
         + (if InvoiceCounts(invoices[|invoices| - 1], org, from, to) then invoices[|invoices| - 1].totalBase else 0)
  }

  /**
   * The conversion ratio `invoiced / quoted`, or zero when nothing positive
   * was quoted; the division is exact here.
   */
  function ConversionRatio(quoted: Cents, invoiced: Cents): (r: real)
    ensures quoted <= 0 ==> r == 0.0
    ensures quoted > 0 ==> r * (quoted as real) == invoiced as real
  {
    if quoted > 0 then (invoiced as real) / (quoted as real) else 0.0
  }

  /** Invoicing no more than was quoted gives a ratio between 0 and 1. */
  lemma RatioWithinUnit(quoted: Cents, invoiced: Cents)
    requires 0 <= invoiced <= quoted
    ensures 0.0 <= ConversionRatio(quoted, invoiced) <= 1.0
  {
    if quoted > 0 {
      var r := ConversionRatio(quoted, invoiced);
      var q := quoted as real;
      assert r * q == invoiced as real;
      assert (1.0 - r) * q == (quoted - invoiced) as real;
    }
  }

  datatype QuotesReport = QuotesReport(quoted: Cents, invoiced: Cents, ratio: real)

  /** `get_quotes_vs_invoices`. */
  function QuotesVsInvoices(quotes: seq<QuoteFact>, invoices: seq<InvoiceFact>, org: OrgId,
                            from: Option<Date>, to: Option<Date>): (r: QuotesReport)
    ensures r.quoted == QuotedTotal(quotes, org, from, to)
    ensures r.invoiced == InvoicedTotal(invoices, org, from, to)
    ensures r.quoted <= 0 ==> r.ratio == 0.0
    ensures r.quoted > 0 ==> r.ratio * (r.quoted as real) == r.invoiced as real
  {
    var quoted := QuotedTotal(quotes, org, from, to);
    var invoiced := InvoicedTotal(invoices, org, from, to);
    QuotesReport(quoted, invoiced, ConversionRatio(quoted, invoiced))
  }

  /** A draft quote never counts towards the quoted total, whatever its amount and date. */
  lemma DraftQuotesIgnored(quotes: seq<QuoteFact>, q: QuoteFact, org: OrgId, from: Option<Date>, to: Option<Date>)
    requires q.status == QuoteDraft
    ensures QuotedTotal(quotes + [q], org, from, to) == QuotedTotal(quotes, org, from, to)
  {
    assert (quotes + [q])[..|quotes|] == quotes;
  }

  /** Quotes and invoices outside the range, or of another org, do not count either. */
  lemma {:induction false} OnlyCountedQuotes(quotes: seq<QuoteFact>, org: OrgId, from: Option<Date>, to: Option<Date>)
    requires forall k :: 0 <= k < |quotes| ==> !QuoteCounts(quotes[k], org, from, to)
    ensures QuotedTotal(quotes, org, from, to) == 0
  {
    if quotes != [] {
      var init := quotes[..|quotes| - 1];
      assert forall k :: 0 <= k < |init| ==> init[k] == quotes[k];
      OnlyCountedQuotes(init, org, from, to);
    }
  }
}
