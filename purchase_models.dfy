// The purchase records: orders, supplier invoices, their lines with stored
// amounts, and supplier payments.

module PurchaseModels {
  import opened Common
  import opened Money
  import opened Dates
  import opened SalesModels

  /** `PurchaseOrder.STATUS_CHOICES`. */
  datatype OrderStatus = OrderDraft | OrderSent | PartiallyReceived | Received | OrderCancelled
  {
    function Code(): string
    {
      match this
        case OrderDraft => "draft"
        case OrderSent => "sent"
        case PartiallyReceived => "partially_received"
        case Received => "received"
        case OrderCancelled => "cancelled"
    }
  }

  function ParseOrderStatus(code: string): (r: Option<OrderStatus>)
    ensures r.Some? ==> r.value.Code() == code
    ensures r.None? ==> forall x: OrderStatus :: x.Code() != code
  {
    if code == "draft" then Some(OrderDraft)
    else if code == "sent" then Some(OrderSent)
    else if code == "partially_received" then Some(PartiallyReceived)
    else if code == "received" then Some(Received)
    else if code == "cancelled" then Some(OrderCancelled)
    else None
  }

  lemma OrderStatusRoundTrip(s: OrderStatus)
    ensures ParseOrderStatus(s.Code()) == Some(s)
  {
  }

  /**
   * A `PurchaseOrderLine` or `SupplierInvoiceLine`: the inputs and the three
   * amounts stored with the line.
   */
  datatype PurchaseLine = PurchaseLine(
    product: Option<ProductId>, description: string, qty: Milli, uom: string,
    unitPrice: Cents, taxRate: Hundredths, discountPct: Hundredths,
    lineBase: Cents, lineTax: Cents, lineTotal: Cents)

  /** A `SupplierPayment` row. */
  datatype SupplierPayment = SupplierPayment(
    org: OrgId, invoice: nat, amount: Cents, date: Date, payMethod: string, notes: string)

  /** `SupplierPayment.method` defaults to "transfer". */
  const DefaultPayMethod := TransferMethod.Code()

  function SupplierPaymentAmount(p: SupplierPayment): int { p.amount }

  /** `sum(p.amount for p in inv.payments.all())`. */
  function SupplierPaidSum(payments: seq<SupplierPayment>): int
  {
    SumOf(SupplierPaymentAmount, payments)
  }
}
