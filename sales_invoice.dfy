// Sales invoices: adding lines to a draft, recomputing totals, posting with
// a number from the sequencer, and registering payments.

module SalesInvoice {
  import opened Common
  import opened Money
  import opened Dates
  import opened SalesPricing
  import opened SalesNumbering
  import opened SalesModels

  // --- Payment status ---------------------------------------------------------

  /** The `payment_status` derived from the sum of all payments of an invoice. */
  function DerivePaymentStatus(paid: Cents, total: Cents): (r: PaymentStatus)
  {
    if paid == 0 then Unpaid
    else if paid < total then Partial
    else Paid
  }

  /** "unpaid" only with nothing paid, "paid" exactly when a non-zero sum covers the total. */
  lemma PaymentStatusMeaning(paid: Cents, total: Cents)
    ensures DerivePaymentStatus(paid, total) == Unpaid <==> paid == 0
    ensures DerivePaymentStatus(paid, total) == Paid <==> paid != 0 && paid >= total
    ensures DerivePaymentStatus(paid, total) == Partial <==> paid != 0 && paid < total
  {
  }

  function Rank(s: PaymentStatus): nat
  {
    match s
      case Unpaid => 0
      case Partial => 1
      case Paid => 2
  }

  /** Adding a non-negative payment never moves the status back. */
  lemma PaymentStatusMonotone(paid: Cents, amount: Cents, total: Cents)
    requires paid >= 0 && amount >= 0
    ensures Rank(DerivePaymentStatus(paid, total)) <= Rank(DerivePaymentStatus(paid + amount, total))
  {
  }

  /** There is no over-payment check: paying more than the total gives "paid". */
  lemma OverpaymentIsPaid(total: Cents, paid: Cents)
    requires total > 0 && paid > total
    ensures DerivePaymentStatus(paid, total) == Paid
  {
  }

  /** An invoice with no lines has a zero total, so any non-zero payment marks it paid. */
  lemma EmptyInvoiceAnyPaymentPaid(amount: Cents)
    requires amount > 0
    ensures DerivePaymentStatus(amount, DocumentTotals([]).total) == Paid
  {
    NoLinesNoTotals();
  }

  // --- The invoice number key -------------------------------------------------

  /** The corrected unique key of a numbered invoice: `(org, series, number)` plus the sequence's year. */
  datatype NumberKey = NumberKey(org: OrgId, series: string, year: int, number: int)

  /** Every number in use lies at or below its sequence's last number. */
  predicate Consistent(rows: SequenceRows, keys: set<NumberKey>)
  {
    forall k :: k in keys ==> k.number <= LastNumber(rows, SequenceKey(k.org, k.series, k.year))
  }

  /** Posting under the year-qualified key: the next number of the sequence, then the key. */
  function PostNumber(rows: SequenceRows, keys: set<NumberKey>, org: OrgId, series: string, year: int)
    : Result<(SequenceRows, set<NumberKey>, int)>
  {
    var (rows', n) := Issue(rows, SequenceKey(org, series, year));
    var key := NumberKey(org, series, year, n);
    if key in keys then Err(Integrity("unique: org, series, year, number"))
    else Ok((rows', keys + {key}, n))
  }

  /** While the index follows the sequencer, posting never collides and keeps them in step. */
  lemma PostNumberNeverCollides(rows: SequenceRows, keys: set<NumberKey>, org: OrgId, series: string, year: int)
    requires Consistent(rows, keys)
    ensures PostNumber(rows, keys, org, series, year).Ok?
    ensures var r := PostNumber(rows, keys, org, series, year).value;
            Consistent(r.0, r.1) && r.2 == LastNumber(rows, SequenceKey(org, series, year)) + 1
  {
    var sk := SequenceKey(org, series, year);
    var (rows', n) := Issue(rows, sk);
    forall k | k in keys + {NumberKey(org, series, year, n)}
      ensures k.number <= LastNumber(rows', SequenceKey(k.org, k.series, k.year))
    {
      if SequenceKey(k.org, k.series, k.year) != sk {
        IssueLeavesOtherKeys(rows, sk, SequenceKey(k.org, k.series, k.year));
      }
    }
  }

  /** The key `unique_together = ("org", "series", "number")` of the source, without the year. */
  datatype SourceNumberKey = SourceNumberKey(org: OrgId, series: string, number: int)

  /** `post_invoice` as written: the year is used for the sequence but not for the key. */
  function PostNumberAsWritten(rows: SequenceRows, keys: set<SourceNumberKey>, org: OrgId, series: string, year: int)
    : Result<(SequenceRows, set<SourceNumberKey>, int)>
  {
    var (rows', n) := Issue(rows, SequenceKey(org, series, year));
    var key := SourceNumberKey(org, series, n);
    if key in keys then Err(Integrity("unique: org, series, number"))
    else Ok((rows', keys + {key}, n))
  }

  /**
   * The first invoice of a new year gets number 1 again and collides with the
   * previous year's number 1. The rollback also undoes the counter, so every
   * later attempt in that year draws 1 again and fails the same way.
   */
  lemma NewYearCollidesAsWritten(org: OrgId, series: string)
    ensures var first := PostNumberAsWritten(map[], {}, org, series, 2025);
            && first.Ok? && first.value.2 == 1
            && PostNumberAsWritten(first.value.0, first.value.1, org, series, 2026).Err?
            && LastNumber(first.value.0, SequenceKey(org, series, 2026)) == 0
  {
    var first := PostNumberAsWritten(map[], {}, org, series, 2025);
    assert first.value.0 == map[SequenceKey(org, series, 2025) := 1];
    assert SequenceKey(org, series, 2026) !in first.value.0;
  }

  /** With the year in the key, the same two posts both succeed and both are number 1. */
  lemma NewYearRestartsCorrected(org: OrgId, series: string)
    ensures var first := PostNumber(map[], {}, org, series, 2025);
            && first.Ok? && first.value.2 == 1
            && PostNumber(first.value.0, first.value.1, org, series, 2026).Ok?
            && PostNumber(first.value.0, first.value.1, org, series, 2026).value.2 == 1
  {
    var first := PostNumber(map[], {}, org, series, 2025);
    assert first.value.0 == map[SequenceKey(org, series, 2025) := 1];
    assert SequenceKey(org, series, 2026) !in first.value.0;
  }

  /** The key an invoice row holds in the `(org, series, number)` index, if it is numbered. */
  function OwnKey(org: OrgId, series: string, number: Option<int>): (r: set<SourceNumberKey>)
    ensures number.None? <==> r == {}
    ensures number.Some? ==> r == {SourceNumberKey(org, series, number.value)}
  {
    if number.Some? then {SourceNumberKey(org, series, number.value)} else {}
  }

  /** The unique index `(org, series, number)` over the stored invoices. */
  class InvoiceNumberIndex {
    var keys: set<SourceNumberKey>

    constructor ()
      ensures keys == {}
    {
      keys := {};
    }
  }

  // --- The invoice ----------------------------------------------------------

  /**
   * An `Invoice` with its lines and payments. A row created through the API
   * carries the number it was created with, because the column is NOT NULL;
   * only the corrected quote conversion makes a draft without a number.
   */
  class Invoice {
    const id: nat
    const org: OrgId
    var series: string
    var number: Option<int>
    var dateIssue: Date
    var customer: ContactId
    var billingAddress: string
    var status: InvoiceStatus
    var paymentStatus: PaymentStatus
    var currency: string
    var totals: Totals
    var lines: seq<DocumentLine>
    var payments: seq<Payment>

    /** `Invoice.objects.create(...)` of a draft with its number; model defaults for the rest. */
    constructor (id: nat, org: OrgId, series: string, number: int, dateIssue: Date, customer: ContactId,
                 billingAddress: string, currency: string)
      ensures this.id == id && this.org == org && this.series == series && this.number == Some(number)
      ensures Details() == (dateIssue, customer, billingAddress, currency)
      ensures status == Draft && paymentStatus == Unpaid && totals == Totals(0, 0, 0)
      ensures lines == [] && payments == []
    {
      this.id := id;
      this.org := org;
      this.series := series;
      this.number := Some(number);
      this.dateIssue := dateIssue;
      this.customer := customer;
      this.billingAddress := billingAddress;
      this.currency := currency;
      status := Draft;
      paymentStatus := Unpaid;
      totals := Totals(0, 0, 0);
      lines := [];
      payments := [];
    }

    /** A draft that has no number until it is posted (the corrected quote conversion). */
    constructor Unnumbered(id: nat, org: OrgId, series: string, dateIssue: Date, customer: ContactId,
                           billingAddress: string, currency: string)
      ensures this.id == id && this.org == org && this.series == series && number == None
      ensures Details() == (dateIssue, customer, billingAddress, currency)
      ensures status == Draft && paymentStatus == Unpaid && totals == Totals(0, 0, 0)
      ensures lines == [] && payments == []
    {
      this.id := id;
      this.org := org;
      this.series := series;
      this.number := None;
      this.dateIssue := dateIssue;
      this.customer := customer;
      this.billingAddress := billingAddress;
      this.currency := currency;
      status := Draft;
      paymentStatus := Unpaid;
      totals := Totals(0, 0, 0);
      lines := [];
      payments := [];
    }

    /** The fields of the row that no service changes: date, customer, address and currency. */
    function Details(): (Date, ContactId, string, string)
      reads this
    {
      (dateIssue, customer, billingAddress, currency)
    }

    /** The whole header of the row: series and number, which only posting sets, and the details. */
    function Header(): (string, Option<int>, (Date, ContactId, string, string))
      reads this
    {
      (series, number, Details())
    }

    /** Everything on the row except the lines and the totals. */
    function Row(): ((string, Option<int>, (Date, ContactId, string, string)), InvoiceStatus, PaymentStatus,
                     seq<Payment>)
      reads this
    {
      (Header(), status, paymentStatus, payments)
    }

    /** One `InvoiceLine.objects.create` per source line, in order, copying every field. */
    method CopyLines(src: seq<DocumentLine>)
      modifies this
      ensures lines == old(lines) + src
      ensures Row() == old(Row()) && totals == old(totals)
    {
      var i := 0;
      while i < |src|
        invariant 0 <= i <= |src|
        invariant lines == old(lines) + src[..i]
        invariant Row() == old(Row()) && totals == old(totals)
      {
        assert src[..i + 1] == src[..i] + [src[i]];
        lines := lines + [src[i]];
        i := i + 1;
      }
      assert src[..i] == src;
    }

    /** `add_line`: only a draft takes new lines. */
    method AddLine(product: Option<ProductRef>, description: string, qty: Milli, uom: string,
                   unitPrice: Cents, taxRate: Hundredths, discountPct: Hundredths) returns (r: Result<DocumentLine>)
      modifies this
      ensures old(status) != Draft ==> r.Err? && r.error.Validation? && lines == old(lines)
      ensures old(status) == Draft ==>
                && r == Ok(NewLine(product, description, qty, uom, unitPrice, taxRate, discountPct))
                && lines == old(lines) + [r.value]
      ensures Row() == old(Row()) && totals == old(totals)
    {
      if status != Draft {
        return Err(Validation("La factura no está en borrador"));
      }
      var line := NewLine(product, description, qty, uom, unitPrice, taxRate, discountPct);
      lines := lines + [line];
      r := Ok(line);
    }

    /** `recompute_totals`: the stored totals become the pricing of the current lines. */
    method RecomputeTotals()
      modifies this
      ensures totals == DocumentTotals(lines)
      ensures Row() == old(Row()) && lines == old(lines)
    {
      var totalBase, totalTax, total := ComputeInvoiceTotals(Pricing(lines));
      totals := Totals(totalBase, totalTax, total);
    }

    /**
     * `post_invoice`: a draft takes its series (or the default), the next
     * number of that series in the current year, fresh totals and the status
     * "posted". It does not require any line. The new `(org, series, number)`
     * must not be held by another invoice; the year is not part of that key,
     * and a failure rolls back the sequencer as well.
     */
    method Post(seqs: InvoiceSequences, index: InvoiceNumberIndex, currentYear: int, seriesDefault: string)
      returns (outcome: Outcome)
      modifies this, seqs, index
      ensures old(status) != Draft ==>
                outcome.Fail? && outcome.error.Validation?
                && unchanged(this) && seqs.rows == old(seqs.rows) && index.keys == old(index.keys)
      ensures old(status) == Draft ==>
                var s := if old(series) == "" then seriesDefault else old(series);
                var others := old(index.keys) - OwnKey(org, old(series), old(number));
                var r := PostNumberAsWritten(old(seqs.rows), others, org, s, currentYear);
                && (r.Err? ==> outcome.Fail? && outcome.error.Integrity?
                               && unchanged(this) && seqs.rows == old(seqs.rows) && index.keys == old(index.keys))
                && (r.Ok? ==>
                      && outcome == Done
                      && seqs.rows == r.value.0 && index.keys == r.value.1
                      && series == s && number == Some(r.value.2) && Details() == old(Details())
                      && status == Posted && totals == DocumentTotals(lines)
                      && lines == old(lines) && payments == old(payments) && paymentStatus == old(paymentStatus))
    {
      if status != Draft {
        return Fail(Validation("La factura no está en borrador"));
      }
      var s := if series == "" then seriesDefault else series;
      var others := index.keys - OwnKey(org, series, number);
      ghost var r := PostNumberAsWritten(seqs.rows, others, org, s, currentYear);
      var snapshot := seqs.rows;
      var year, n := seqs.NextInvoiceNumber(org, s, currentYear);
      var key := SourceNumberKey(org, s, n);
      assert r == if key in others then Err(Integrity("unique: org, series, number"))
                  else Ok((seqs.rows, others + {key}, n));
      if key in others {
        seqs.rows := snapshot;
        return Fail(Integrity("unique: org, series, number"));
      }
      index.keys := others + {key};
      MarkPosted(s, n);
      outcome := Done;
    }

    /** The invoice's own part of posting: number, series, fresh totals and the status. */
    method MarkPosted(s: string, n: int)
      modifies this
      ensures series == s && number == Some(n) && Details() == old(Details())
      ensures status == Posted && totals == DocumentTotals(lines)
      ensures lines == old(lines) && payments == old(payments) && paymentStatus == old(paymentStatus)
    {
      series := s;
      number := Some(n);
      RecomputeTotals();
      status := Posted;
    }

    /**
     * `register_payment`: only a posted invoice takes payments; any amount is
     * accepted and the status is derived from the sum of all payments.
     */
    method RegisterPayment(amount: Cents, date: Option<Date>, payMethod: string, notes: string)
      returns (r: Result<Payment>)
      modifies this
      ensures old(status) != Posted ==> r.Err? && r.error.Validation? && unchanged(this)
      ensures old(status) == Posted && date.None? ==> r.Err? && r.error.Integrity? && unchanged(this)
      ensures old(status) == Posted && date.Some? ==>
                && r == Ok(Payment(org, id, amount, date.value, payMethod, notes))
                && payments == old(payments) + [r.value]
                && paymentStatus == DerivePaymentStatus(PaidSum(old(payments)) + amount, totals.total)
      ensures Header() == old(Header()) && status == old(status) && totals == old(totals) && lines == old(lines)
    {
      if status != Posted {
        return Err(Validation("La factura debe estar 'posted' para registrar pagos"));
      }
      if date.None? {
        return Err(Integrity("not null: payment date"));
      }
      var pay := Payment(org, id, amount, date.value, payMethod, notes);
      SumOfSnoc(PaymentAmount, payments, pay);
      payments := payments + [pay];
      var paidSum := PaidSum(payments);
      if paidSum == 0 {
        paymentStatus := Unpaid;
      } else if paidSum < totals.total {
        paymentStatus := Partial;
      } else {
        paymentStatus := Paid;
      }
      r := Ok(pay);
    }
  }
}
