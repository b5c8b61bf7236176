// The sales records: status choices, the line shape shared by invoices,
// quotes and delivery notes, line defaults, payments and the pricing view of
// a stored line.

module SalesModels {
  import opened Common
  import opened Money
  import opened Dates
  import opened SalesPricing

  /** `Invoice.status`; the supplier invoice has the same three choices. */
  datatype InvoiceStatus = Draft | Posted | Cancelled
  {
    function Code(): string
    {
      match this
        case Draft => "draft"
        case Posted => "posted"
        case Cancelled => "cancelled"
    }
  }

  function ParseInvoiceStatus(code: string): (r: Option<InvoiceStatus>)
    ensures r.Some? ==> r.value.Code() == code
    ensures r.None? ==> forall x: InvoiceStatus :: x.Code() != code
  {
    if code == "draft" then Some(Draft)
    else if code == "posted" then Some(Posted)
    else if code == "cancelled" then Some(Cancelled)
    else None
  }

  /** `payment_status` of sales and supplier invoices. */
  datatype PaymentStatus = Unpaid | Partial | Paid
  {
    function Code(): string
    {
      match this
        case Unpaid => "unpaid"
        case Partial => "partial"
        case Paid => "paid"
    }
  }

  function ParsePaymentStatus(code: string): (r: Option<PaymentStatus>)
    ensures r.Some? ==> r.value.Code() == code
    ensures r.None? ==> forall x: PaymentStatus :: x.Code() != code
  {
    if code == "unpaid" then Some(Unpaid)
    else if code == "partial" then Some(Partial)
    else if code == "paid" then Some(Paid)
    else None
  }

  /** `Payment.METHOD`. */
  datatype PaymentMethod = TransferMethod | Card | Cash
  {
    function Code(): string
    {
      match this
        case TransferMethod => "transfer"
        case Card => "card"
        case Cash => "cash"
    }
  }

  function ParsePaymentMethod(code: string): (r: Option<PaymentMethod>)
    ensures r.Some? ==> r.value.Code() == code
    ensures r.None? ==> forall x: PaymentMethod :: x.Code() != code
  {
    if code == "transfer" then Some(TransferMethod)
    else if code == "card" then Some(Card)
    else if code == "cash" then Some(Cash)
    else None
  }

  /** `Quote.STATUS_CHOICES`. */
  datatype QuoteStatus = QuoteDraft | Sent | Accepted | Rejected | Expired
  {
    function Code(): string
    {
      match this
        case QuoteDraft => "draft"
        case Sent => "sent"
        case Accepted => "accepted"
        case Rejected => "rejected"
        case Expired => "expired"
    }
  }

  function ParseQuoteStatus(code: string): (r: Option<QuoteStatus>)
    ensures r.Some? ==> r.value.Code() == code
    ensures r.None? ==> forall x: QuoteStatus :: x.Code() != code
  {
    if code == "draft" then Some(QuoteDraft)
    else if code == "sent" then Some(Sent)
    else if code == "accepted" then Some(Accepted)
    else if code == "rejected" then Some(Rejected)
    else if code == "expired" then Some(Expired)
    else None
  }

  /** `DeliveryNote.status`. */
  datatype DeliveryStatus = NoteDraft | NoteDone
  {
    function Code(): string
    {
      match this
        case NoteDraft => "draft"
        case NoteDone => "done"
    }
  }

  function ParseDeliveryStatus(code: string): (r: Option<DeliveryStatus>)
    ensures r.Some? ==> r.value.Code() == code
    ensures r.None? ==> forall x: DeliveryStatus :: x.Code() != code
  {
    if code == "draft" then Some(NoteDraft)
    else if code == "done" then Some(NoteDone)
    else None
  }

  /** Every stored code names one choice and reads back as it. */
  lemma StatusCodesRoundTrip(a: InvoiceStatus, b: PaymentStatus, c: PaymentMethod, d: QuoteStatus, e: DeliveryStatus)
    ensures ParseInvoiceStatus(a.Code()) == Some(a)
    ensures ParsePaymentStatus(b.Code()) == Some(b)
    ensures ParsePaymentMethod(c.Code()) == Some(c)
    ensures ParseQuoteStatus(d.Code()) == Some(d)
    ensures ParseDeliveryStatus(e.Code()) == Some(e)
  {
  }

  /**
   * A row of `InvoiceLine`, `QuoteLine` or `DeliveryNoteLine`: the three
   * tables have the same columns.
   */
  datatype DocumentLine = DocumentLine(
    product: Option<ProductId>, description: string, qty: Milli, uom: string,
    unitPrice: Cents, taxRate: Hundredths, discountPct: Hundredths)

  const DefaultUom := "unidad"
  /** 0.00 */
  const DefaultUnitPrice: Cents := 0
  /** 21.00 */
  const DefaultTaxRate: Hundredths := 2100
  /** 0.00 */
  const DefaultDiscount: Hundredths := 0
  /** The default series of `Invoice` and `InvoiceSequence`. */
  const DefaultSeries := "A"
  const DefaultCurrency := "EUR"

  /** The two product columns the services read when they add a line. */
  datatype ProductRef = ProductRef(id: ProductId, name: string)

  /** `description or (product.name if product else "")`. */
  function LineDescription(description: string, product: Option<ProductRef>): (r: string)
    ensures description != "" ==> r == description
    ensures description == "" && product.Some? ==> r == product.value.name
    ensures description == "" && product.None? ==> r == ""
  {
    if description != "" then description
    else match product
      case Some(p) => p.name
      case None => ""
  }

  /** The row `add_line` creates; `discount_pct` defaults to 0 at the call. */
  function NewLine(product: Option<ProductRef>, description: string, qty: Milli, uom: string,
                   unitPrice: Cents, taxRate: Hundredths, discountPct: Hundredths): (ln: DocumentLine)
    ensures ln.description == LineDescription(description, product)
    ensures ln.product == (if product.Some? then Some(product.value.id) else None)
    ensures (ln.qty, ln.uom, ln.unitPrice, ln.taxRate, ln.discountPct) == (qty, uom, unitPrice, taxRate, discountPct)
  {
    DocumentLine(if product.Some? then Some(product.value.id) else None,
                 LineDescription(description, product), qty, uom, unitPrice, taxRate, discountPct)
  }

  /** `values("qty", "unit_price", "discount_pct", "tax_rate")` of a stored line. */
  function PricingOf(ln: DocumentLine): PricingLine
  {
    PricingLine(ln.qty, ln.unitPrice, Some(ln.discountPct), ln.taxRate)
  }

  function Pricing(lines: seq<DocumentLine>): (r: seq<PricingLine>)
    ensures |r| == |lines|
    ensures forall i :: 0 <= i < |lines| ==> r[i] == PricingOf(lines[i])
  {
    if lines == [] then [] else [PricingOf(lines[0])] + Pricing(lines[1..])
  }

  /** The totals the services store: `compute_invoice_totals` of the document's lines. */
  function DocumentTotals(lines: seq<DocumentLine>): Totals
  {
    InvoiceTotals(Pricing(lines))
  }

  function DocLineBase(ln: DocumentLine): int { LineBase(PricingOf(ln)) }
  function DocLineTaxUnits(ln: DocumentLine): int { LineTaxUnits(PricingOf(ln)) }

  lemma {:induction false} SumsOverPricing(lines: seq<DocumentLine>)
    ensures SumOf(LineBase, Pricing(lines)) == SumOf(DocLineBase, lines)
    ensures SumOf(LineTaxUnits, Pricing(lines)) == SumOf(DocLineTaxUnits, lines)
  {
    if lines != [] {
      SumsOverPricing(lines[1..]);
      assert Pricing(lines)[1..] == Pricing(lines[1..]);
    }
  }

  /** Totals depend on the lines' prices only, and not on their order. */
  lemma DocumentTotalsIgnoreOrder(a: seq<DocumentLine>, b: seq<DocumentLine>)
    requires multiset(a) == multiset(b)
    ensures DocumentTotals(a) == DocumentTotals(b)
  {
    SumsOverPricing(a);
    SumsOverPricing(b);
    SumOfPermutation(DocLineBase, a, b);
    SumOfPermutation(DocLineTaxUnits, a, b);
  }

  /** The input dict of the quote's `replace_lines`: absent keys are None. */
  datatype LineInput = LineInput(
    product: Option<ProductId>, description: Option<string>, qty: Option<Milli>, uom: Option<string>,
    unitPrice: Option<Cents>, taxRate: Option<Hundredths>, discountPct: Option<Hundredths>)

  function Get<T>(o: Option<T>, default: T): T
  {
    match o
      case Some(v) => v
      case None => default
  }

  /** The row `replace_lines` creates: each absent key takes its default; there is no product-name fallback. */
  function LineFromInput(ln: LineInput): (r: DocumentLine)
    ensures r.description == Get(ln.description, "")
    ensures r.qty == Get(ln.qty, 0) && r.uom == Get(ln.uom, DefaultUom)
    ensures r.unitPrice == Get(ln.unitPrice, DefaultUnitPrice)
    ensures r.taxRate == Get(ln.taxRate, DefaultTaxRate) && r.discountPct == Get(ln.discountPct, DefaultDiscount)
    ensures r.product == ln.product
  {
    DocumentLine(ln.product, Get(ln.description, ""), Get(ln.qty, 0), Get(ln.uom, DefaultUom),
                 Get(ln.unitPrice, DefaultUnitPrice), Get(ln.taxRate, DefaultTaxRate),
                 Get(ln.discountPct, DefaultDiscount))
  }

  /** A `Payment` row; `method` is stored unchecked, the choices are not a database constraint. */
  datatype Payment = Payment(org: OrgId, invoice: nat, amount: Cents, date: Date, payMethod: string, notes: string)

  function PaymentAmount(p: Payment): int { p.amount }

  /** `aggregate(Sum("amount"))`. */
  function PaidSum(payments: seq<Payment>): int
  {
    SumOf(PaymentAmount, payments)
  }
}
