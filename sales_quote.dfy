// Quotes: line edits while draft or sent, free status changes among the
// five choices, and conversion of an accepted quote into a draft invoice.

module SalesQuote {
  import opened Common
  import opened Money
  import opened Dates
  import opened SalesPricing
  import opened SalesModels
  import opened SalesInvoice

  /** The statuses in which the lines may change. */
  predicate Editable(s: QuoteStatus)
  {
    s == QuoteDraft || s == Sent
  }

  /** The rows `replace_lines` creates, in input order. */
  function LinesFromInputs(inputs: seq<LineInput>): (r: seq<DocumentLine>)
    ensures |r| == |inputs|
    ensures forall i :: 0 <= i < |inputs| ==> r[i] == LineFromInput(inputs[i])
  {
    if inputs == [] then [] else LinesFromInputs(inputs[..|inputs| - 1]) + [LineFromInput(inputs[|inputs| - 1])]
  }

  // --- The conversion as written ------------------------------------------------

  /** Inserting an `Invoice` row: `number` is NOT NULL and has no default. */
  function InsertInvoiceRow(number: Option<int>): Outcome
  {
    if number.None? then Fail(Integrity("not null: invoice number")) else Done
  }

  /** `convert_to_invoice` as written: the invoice is inserted without a number. */
  function ConvertAsWritten(status: QuoteStatus, linked: bool): Outcome
  {
    if status != Accepted then Fail(Validation("Solo se pueden convertir presupuestos aceptados"))
    else if linked then Done
    else InsertInvoiceRow(None)
  }

  /** Every conversion of an accepted, unlinked quote fails on the missing number. */
  lemma ConversionFailsAsWritten()
    ensures ConvertAsWritten(Accepted, false).Fail?
    ensures ConvertAsWritten(Accepted, false).error.Integrity?
  {
  }

  /**
   * The invoice `convert_to_invoice` creates: a draft, unpaid invoice of series
   * "A" holding a field-for-field copy of `lines`, with its totals recomputed.
   */
  method CreateInvoiceFrom(newId: nat, org: OrgId, date: Date, customer: ContactId, billingAddress: string,
                           currency: string, lines: seq<DocumentLine>) returns (inv: Invoice)
    ensures fresh(inv)
    ensures inv.id == newId && inv.org == org && inv.series == DefaultSeries && inv.number == None
    ensures inv.Details() == (date, customer, billingAddress, currency)
    ensures inv.status == Draft && inv.paymentStatus == Unpaid && inv.payments == []
    ensures inv.lines == lines && inv.totals == DocumentTotals(lines)
  {
    inv := new Invoice.Unnumbered(newId, org, DefaultSeries, date, customer, billingAddress, currency);
    inv.CopyLines(lines);
    inv.RecomputeTotals();
  }

  class Quote {
    const id: nat
    const org: OrgId
    var number: string
    var date: Date
    var validUntil: Option<Date>
    var customer: ContactId
    var billingAddress: string
    var status: QuoteStatus
    var currency: string
    var totals: Totals
    var invoice: Invoice?
    var lines: seq<DocumentLine>

    constructor (id: nat, org: OrgId, number: string, date: Date, customer: ContactId)
      ensures this.id == id && this.org == org && this.number == number && this.date == date
      ensures this.customer == customer && validUntil == None && billingAddress == ""
      ensures status == QuoteDraft && currency == DefaultCurrency && totals == Totals(0, 0, 0)
      ensures invoice == null && lines == []
    {
      this.id := id;
      this.org := org;
      this.number := number;
      this.date := date;
      this.customer := customer;
      validUntil := None;
      billingAddress := "";
      status := QuoteDraft;
      currency := DefaultCurrency;
      totals := Totals(0, 0, 0);
      invoice := null;
      lines := [];
    }

    /** The quote's own fields that no service changes. */
    function Header(): (string, Date, Option<Date>, ContactId, string, string)
      reads this
    {
      (number, date, validUntil, customer, billingAddress, currency)
    }

    /** `add_line`: allowed while the quote is a draft or sent. */
    method AddLine(product: Option<ProductRef>, description: string, qty: Milli, uom: string,
                   unitPrice: Cents, taxRate: Hundredths, discountPct: Hundredths) returns (r: Result<DocumentLine>)
      modifies this
      ensures !Editable(old(status)) ==> r.Err? && r.error.Validation? && lines == old(lines)
      ensures Editable(old(status)) ==>
                && r == Ok(NewLine(product, description, qty, uom, unitPrice, taxRate, discountPct))
                && lines == old(lines) + [r.value]
      ensures Header() == old(Header()) && status == old(status) && totals == old(totals) && invoice == old(invoice)
    {
      if !Editable(status) {
        return Err(Validation("Solo se pueden modificar presupuestos en borrador o enviados"));
      }
      var line := NewLine(product, description, qty, uom, unitPrice, taxRate, discountPct);
      lines := lines + [line];
      r := Ok(line);
    }

    /** `recompute_totals`. */
    method RecomputeTotals()
      modifies this
      ensures totals == DocumentTotals(lines)
      ensures Header() == old(Header()) && lines == old(lines) && status == old(status) && invoice == old(invoice)
    {
      var totalBase, totalTax, total := ComputeInvoiceTotals(Pricing(lines));
      totals := Totals(totalBase, totalTax, total);
    }

    /**
     * `replace_lines` (the later definition, which is the one bound): every
     * line is deleted, the inputs are stored in order with their defaults, and
     * the totals are recomputed.
     */
    method ReplaceLines(inputs: seq<LineInput>) returns (outcome: Outcome)
      modifies this
      ensures !Editable(old(status)) ==> outcome.Fail? && outcome.error.Validation? && unchanged(this)
      ensures Editable(old(status)) ==>
                outcome == Done && lines == LinesFromInputs(inputs) && totals == DocumentTotals(lines)
      ensures Header() == old(Header()) && status == old(status) && invoice == old(invoice)
    {
      if !Editable(status) {
        return Fail(Validation("Solo se pueden modificar presupuestos en borrador o enviados."));
      }
      lines := [];
      var i := 0;
      while i < |inputs|
        invariant 0 <= i <= |inputs|
        invariant lines == LinesFromInputs(inputs[..i])
        invariant Header() == old(Header()) && status == old(status) && invoice == old(invoice)
      {
        assert inputs[..i + 1][..i] == inputs[..i];
        lines := lines + [LineFromInput(inputs[i])];
        i := i + 1;
      }
      assert inputs[..i] == inputs;
      RecomputeTotals();
      outcome := Done;
    }

    /** `change_status`: any of the five codes, from any status. */
    method ChangeStatus(code: string) returns (outcome: Outcome)
      modifies this
      ensures ParseQuoteStatus(code).None? ==> outcome.Fail? && outcome.error.Validation? && unchanged(this)
      ensures ParseQuoteStatus(code).Some? ==> outcome == Done && status == ParseQuoteStatus(code).value
      ensures forall target: QuoteStatus :: code == target.Code() ==> outcome == Done && status == target
      ensures Header() == old(Header()) && lines == old(lines) && totals == old(totals) && invoice == old(invoice)
    {
      forall target: QuoteStatus | code == target.Code() {
        StatusCodesRoundTrip(Draft, Unpaid, TransferMethod, target, NoteDraft);
      }
      var parsed := ParseQuoteStatus(code);
      if parsed.None? {
        return Fail(Validation("Estado de presupuesto no válido"));
      }
      status := parsed.value;
      outcome := Done;
    }

    /**
     * `convert_to_invoice`: an accepted quote already linked returns its
     * invoice; otherwise a draft, unpaid invoice of series "A" is created with
     * the quote's date, customer, address, currency and a copy of every line,
     * its totals are recomputed and the quote is linked to it. The new invoice
     * has no number until it is posted.
     */
    method ConvertToInvoice(newId: nat) returns (r: Result<Invoice>)
      modifies this
      ensures old(status) != Accepted ==> r.Err? && r.error.Validation? && unchanged(this)
      ensures old(status) == Accepted && old(invoice) != null ==> r.Ok? && r.value == old(invoice) && unchanged(this)
      ensures old(status) == Accepted && old(invoice) == null ==>
                && r.Ok? && fresh(r.value) && invoice == r.value
                && r.value.id == newId && r.value.org == org && r.value.series == DefaultSeries
                && r.value.number == None
                && r.value.Details() == (date, customer, billingAddress, currency)
                && r.value.status == Draft && r.value.paymentStatus == Unpaid
                && r.value.lines == lines && r.value.totals == DocumentTotals(lines)
                && r.value.payments == []
      ensures Header() == old(Header()) && lines == old(lines) && status == old(status) && totals == old(totals)
    {
      if status != Accepted {
        return Err(Validation("Solo se pueden convertir presupuestos aceptados"));
      }
      if invoice != null {
        return Ok(invoice);
      }
      var inv := CreateInvoiceFrom(newId, org, date, customer, billingAddress, currency, lines);
      invoice := inv;
      r := Ok(inv);
    }
  }
}
