// The amount helpers of the purchase endpoints: per-line rounding of base
// and tax, document totals as sums of the stored line amounts, the payment
// status with its one-cent tolerance, and the over-payment check.

module PurchaseAmounts {
  import opened Common
  import opened Money
  import opened SalesPricing
  import opened SalesModels
  import opened SalesInvoice
  import opened PurchaseModels

  datatype LineAmounts = LineAmounts(base: Cents, tax: Cents, total: Cents)

  /**
   * `_calc_line_amounts`: a quantity that is not positive has base 0.00;
   * otherwise the base is the exact `qty * price * (1 - disc/100)` rounded
   * half-even to the cent. The tax is rounded on its own line, and the total
   * is their sum.
   */
  function CalcLineAmounts(qty: Milli, unitPrice: Cents, taxRate: Hundredths, discountPct: Hundredths)
    : (r: LineAmounts)
    ensures qty <= 0 ==> r.base == 0
    ensures qty > 0 ==>
              && 2 * Abs(qty * unitPrice * (10000 - discountPct) - r.base * 10_000_000) <= 10_000_000
              && (2 * Abs(qty * unitPrice * (10000 - discountPct) - r.base * 10_000_000) == 10_000_000
                  ==> r.base % 2 == 0)
    ensures 2 * Abs(r.base * taxRate - r.tax * 10_000) <= 10_000
    ensures 2 * Abs(r.base * taxRate - r.tax * 10_000) == 10_000 ==> r.tax % 2 == 0
    ensures r.total == r.base + r.tax
  {
    var exact := qty * unitPrice * (10000 - discountPct);
    var base := if qty <= 0 then 0 else Quantize(exact, 9);
    assert Pow10(7) == 10_000_000 && Pow10(4) == 10_000;
    var tax := Quantize(base * taxRate, 6);
    LineAmounts(base, tax, base + tax)
  }

  /** A line with no positive quantity costs nothing, whatever its price. */
  lemma ZeroQtyCostsNothing(qty: Milli, unitPrice: Cents, taxRate: Hundredths, discountPct: Hundredths)
    requires qty <= 0
    ensures CalcLineAmounts(qty, unitPrice, taxRate, discountPct) == LineAmounts(0, 0, 0)
  {
    var r := CalcLineAmounts(qty, unitPrice, taxRate, discountPct);
    MultipleOfStep(r.tax, 10_000);
  }

  /** For a positive quantity the base is the one the sales engine computes for the same line. */
  lemma PositiveQtyBaseAsSales(qty: Milli, unitPrice: Cents, taxRate: Hundredths, discountPct: Hundredths)
    requires qty > 0
    ensures CalcLineAmounts(qty, unitPrice, taxRate, discountPct).base
            == LineBase(PricingLine(qty, unitPrice, Some(discountPct), taxRate))
  {
    var ln := PricingLine(qty, unitPrice, Some(discountPct), taxRate);
    var b := CalcLineAmounts(qty, unitPrice, taxRate, discountPct).base;
    assert ExactLineBase(ln) == qty * unitPrice * (10000 - discountPct);
    RoundHalfEvenUnique(ExactLineBase(ln), 10_000_000, b);
  }

  /**
   * Two lines of 0.10 at 5% and at 25%: rounded per line the taxes are
   * 0.00 and 0.02, while the sales engine rounds their sum 0.03 once.
   */
  lemma PerLineTaxDiffersFromSales()
    ensures CalcLineAmounts(1000, 10, 500, 0).tax + CalcLineAmounts(1000, 10, 2500, 0).tax == 2
    ensures InvoiceTotals([PricingLine(1000, 10, Some(0), 500), PricingLine(1000, 10, Some(0), 2500)]).totalTax == 3
  {
    RoundHalfEvenUnique(100_000_000, 10_000_000, 10);
    assert CalcLineAmounts(1000, 10, 500, 0).base == 10;
    assert CalcLineAmounts(1000, 10, 2500, 0).base == 10;
    RoundHalfEvenUnique(5000, 10_000, 0);
    RoundHalfEvenUnique(25000, 10_000, 2);
    var a, b := PricingLine(1000, 10, Some(0), 500), PricingLine(1000, 10, Some(0), 2500);
    assert LineBase(a) == 10 && LineBase(b) == 10;
    assert [a, b][1..] == [b];
    assert SumOf(LineTaxUnits, [b]) == 25000;
    assert SumOf(LineTaxUnits, [a, b]) == 30000;
    RoundHalfEvenUnique(30000, 10_000, 3);
  }

  /** The three amounts a line stores are those `_calc_line_amounts` gives for its inputs. */
  predicate LinePriced(ln: PurchaseLine)
  {
    CalcLineAmounts(ln.qty, ln.unitPrice, ln.taxRate, ln.discountPct) == LineAmounts(ln.lineBase, ln.lineTax, ln.lineTotal)
  }

  predicate AllPriced(lines: seq<PurchaseLine>)
  {
    forall i :: 0 <= i < |lines| ==> LinePriced(lines[i])
  }

  function StoredBase(ln: PurchaseLine): int { ln.lineBase }
  function StoredTax(ln: PurchaseLine): int { ln.lineTax }

  /** The totals `_recalc_order_totals` and `_recalc_invoice_totals` store. */
  function PurchaseTotals(lines: seq<PurchaseLine>): (t: Totals)
    ensures t.total == t.totalBase + t.totalTax
  {
    var base := SumOf(StoredBase, lines);
    var tax := SumOf(StoredTax, lines);
    Totals(base, tax, base + tax)
  }

  /** A new line adds exactly its own base and tax to the totals. */
  lemma PurchaseTotalsSnoc(lines: seq<PurchaseLine>, ln: PurchaseLine)
    ensures PurchaseTotals(lines + [ln]).totalBase == PurchaseTotals(lines).totalBase + ln.lineBase
    ensures PurchaseTotals(lines + [ln]).totalTax == PurchaseTotals(lines).totalTax + ln.lineTax
  {
    SumOfSnoc(StoredBase, lines, ln);
    SumOfSnoc(StoredTax, lines, ln);
  }

  /** The totals do not depend on the order of the lines. */
  lemma PurchaseTotalsIgnoreOrder(a: seq<PurchaseLine>, b: seq<PurchaseLine>)
    requires multiset(a) == multiset(b)
    ensures PurchaseTotals(a) == PurchaseTotals(b)
  {
    SumOfPermutation(StoredBase, a, b);
    SumOfPermutation(StoredTax, a, b);
  }

  /** Priced lines with no positive quantity add up to a zero total. */
  lemma {:induction false} NonPositiveLinesTotalZero(lines: seq<PurchaseLine>)
    requires AllPriced(lines)
    requires forall i :: 0 <= i < |lines| ==> lines[i].qty <= 0
    ensures PurchaseTotals(lines) == Totals(0, 0, 0)
    decreases |lines|
  {
    if lines != [] {
      var ln := lines[0];
      assert LinePriced(ln);
      ZeroQtyCostsNothing(ln.qty, ln.unitPrice, ln.taxRate, ln.discountPct);
      assert forall i :: 0 <= i < |lines[1..]| ==> lines[1..][i] == lines[i + 1];
      NonPositiveLinesTotalZero(lines[1..]);
    }
  }

  /** The loop of `_recalc_order_totals` and `_recalc_invoice_totals`. */
  method SumLineAmounts(lines: seq<PurchaseLine>) returns (t: Totals)
    ensures t == PurchaseTotals(lines)
  {
    var base, tax := 0, 0;
    var i := 0;
    while i < |lines|
      invariant 0 <= i <= |lines|
      invariant base == SumOf(StoredBase, lines[..i]) && tax == SumOf(StoredTax, lines[..i])
    {
      assert lines[..i + 1] == lines[..i] + [lines[i]];
      SumOfSnoc(StoredBase, lines[..i], lines[i]);
      SumOfSnoc(StoredTax, lines[..i], lines[i]);
      base := base + lines[i].lineBase;
      tax := tax + lines[i].lineTax;
      i := i + 1;
    }
    assert lines[..i] == lines;
    t := Totals(base, tax, base + tax);
  }

  // --- Payment status -----------------------------------------------------

  /** `_recalc_payment_status`, with its one-cent tolerance. */
  function PurchasePaymentStatus(paid: Cents, total: Cents): PaymentStatus
  {
    if total <= 0 then Unpaid
    else if paid <= 0 then Unpaid
    else if paid + 1 < total then Partial
    else Paid
  }

  /** Each status in terms of the paid sum and the total. */
  lemma PurchasePaymentStatusMeaning(paid: Cents, total: Cents)
    ensures PurchasePaymentStatus(paid, total) == Unpaid <==> total <= 0 || paid <= 0
    ensures PurchasePaymentStatus(paid, total) == Partial <==> total > 0 && 0 < paid < total - 1
    ensures PurchasePaymentStatus(paid, total) == Paid <==> total > 0 && paid > 0 && paid >= total - 1
  {
  }

  /** One cent short is "paid" for a supplier invoice and "partial" for a sales invoice. */
  lemma ToleranceDiffersFromSales(total: Cents)
    requires total > 1
    ensures PurchasePaymentStatus(total - 1, total) == Paid
    ensures DerivePaymentStatus(total - 1, total) == Partial
  {
  }

  /** A refund that makes the sum negative reads "unpaid" here, while the sales rule says "partial". */
  lemma NegativeSumDiffersFromSales(paid: Cents, total: Cents)
    requires paid < 0 && total > 0
    ensures PurchasePaymentStatus(paid, total) == Unpaid
    ensures DerivePaymentStatus(paid, total) == Partial
  {
  }

  // --- The over-payment check ------------------------------------------------

  const NoTotal := Validation("No se puede registrar un pago para una factura sin total.")
  const OverPayment := Validation("El pago supera el importe pendiente de la factura.")

  /**
   * The check of `perform_create` and `perform_update`: the invoice must have
   * a positive total, and the payments, counting the new amount, may exceed it
   * by at most one cent.
   */
  function CheckPayment(paidOthers: Cents, amount: Cents, total: Cents): (r: Outcome)
    ensures r.Done? <==> total > 0 && paidOthers + amount <= total + 1
    ensures r.Fail? ==> r.error.Validation?
  {
    if total <= 0 then Fail(NoTotal)
    else if paidOthers + amount - total > 1 then Fail(OverPayment)
    else Done
  }

  /** The payments never exceed the total by more than the one-cent tolerance. */
  predicate NotOverpaid(payments: seq<SupplierPayment>, total: Cents)
  {
    SupplierPaidSum(payments) <= total + 1
  }

  /** A payment the check admits leaves the invoice "paid" exactly when the tolerance covers the total. */
  lemma AdmittedPaymentStatus(paidOthers: Cents, amount: Cents, total: Cents)
    requires CheckPayment(paidOthers, amount, total).Done?
    requires paidOthers + amount > 0
    ensures PurchasePaymentStatus(paidOthers + amount, total) == Paid <==> paidOthers + amount >= total - 1
    ensures PurchasePaymentStatus(paidOthers + amount, total) != Unpaid
  {
  }
}
