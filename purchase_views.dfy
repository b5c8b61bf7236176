// The purchase endpoints: purchase orders (lines, send, receive), supplier
// invoices (lines, post with its stock moves, cancel) and the supplier
// payment create/update/delete hooks.

module PurchaseViews {
  import opened Common
  import opened Text
  import opened Money
  import opened Dates
  import opened SalesPricing
  import opened SalesModels
  import opened InventoryModels
  import opened StockLedger
  import opened PurchaseModels
  import opened PurchaseAmounts

  // --- add_line ---------------------------------------------------------------

  /** The body of an `add_line` request: absent keys are None. */
  datatype LineRequest = LineRequest(
    product: Option<nat>, description: Option<string>, qty: Option<Milli>, uom: Option<string>,
    unitPrice: Option<Cents>, taxRate: Option<Hundredths>, discountPct: Option<Hundredths>)

  /**
   * `get_object_or_404(Product, org=self.org, id=product_id)` when the
   * request names a product (0 is falsy and names none).
   */
  function ResolveProduct(org: OrgId, product: Option<nat>, products: map<ProductId, Product>)
    : (r: Result<Option<ProductRef>>)
    ensures (product.None? || product.value == 0) ==> r == Ok(None)
    ensures product.Some? && product.value != 0 ==>
              (r.Ok? <==> product.value in products && products[product.value].org == org)
    ensures r.Ok? && r.value.Some? ==> r.value.value == ProductRef(product.value, products[product.value].name)
    ensures r.Err? ==> r.error.NotFound?
  {
    if product.None? || product.value == 0 then Ok(None)
    else if product.value in products && products[product.value].org == org
    then Ok(Some(ProductRef(product.value, products[product.value].name)))
    else Err(NotFound("No Product matches the given query."))
  }

  /** The line `add_line` stores: request values or their defaults, the amounts computed from them. */
  function RequestLine(req: LineRequest, product: Option<ProductRef>): (ln: PurchaseLine)
    ensures ln.product == (if product.Some? then Some(product.value.id) else None)
    ensures ln.description == LineDescription(Get(req.description, ""), product)
    ensures ln.qty == Get(req.qty, 0) && ln.uom == Get(req.uom, DefaultUom)
    ensures ln.unitPrice == Get(req.unitPrice, DefaultUnitPrice)
    ensures ln.taxRate == Get(req.taxRate, DefaultTaxRate) && ln.discountPct == Get(req.discountPct, DefaultDiscount)
    ensures LinePriced(ln)
  {
    var qty := Get(req.qty, 0);
    var unitPrice := Get(req.unitPrice, DefaultUnitPrice);
    var taxRate := Get(req.taxRate, DefaultTaxRate);
    var discountPct := Get(req.discountPct, DefaultDiscount);
    var a := CalcLineAmounts(qty, unitPrice, taxRate, discountPct);
    PurchaseLine(if product.Some? then Some(product.value.id) else None,
                 LineDescription(Get(req.description, ""), product), qty, Get(req.uom, DefaultUom),
                 unitPrice, taxRate, discountPct, a.base, a.tax, a.total)
  }

  lemma AppendPriced(lines: seq<PurchaseLine>, ln: PurchaseLine)
    requires AllPriced(lines) && LinePriced(ln)
    ensures AllPriced(lines + [ln])
  {
    assert forall i :: 0 <= i < |lines| ==> (lines + [ln])[i] == lines[i];
  }

  // --- Purchase orders ----------------------------------------------------------

  class PurchaseOrder {
    const id: nat
    const org: OrgId
    var number: string
    var supplier: ContactId
    var warehouse: WarehouseId
    var currency: string
    var status: OrderStatus
    var totals: Totals
    var lines: seq<PurchaseLine>

    constructor (id: nat, org: OrgId, number: string, supplier: ContactId, warehouse: WarehouseId)
      ensures this.id == id && this.org == org && this.number == number
      ensures this.supplier == supplier && this.warehouse == warehouse
      ensures currency == DefaultCurrency && status == OrderDraft && totals == Totals(0, 0, 0) && lines == []
    {
      this.id := id;
      this.org := org;
      this.number := number;
      this.supplier := supplier;
      this.warehouse := warehouse;
      currency := DefaultCurrency;
      status := OrderDraft;
      totals := Totals(0, 0, 0);
      lines := [];
    }

    /** The order's own fields that no service changes. */
    function Header(): (string, ContactId, WarehouseId, string)
      reads this
    {
      (number, supplier, warehouse, currency)
    }

    /** `_recalc_order_totals`. */
    method RecalcTotals()
      modifies this
      ensures totals == PurchaseTotals(lines)
      ensures Header() == old(Header()) && lines == old(lines) && status == old(status)
    {
      totals := SumLineAmounts(lines);
    }

    /** `add_line`: there is no status check, so even a received or cancelled order takes lines. */
    method AddLine(req: LineRequest, products: map<ProductId, Product>) returns (r: Result<PurchaseLine>)
      modifies this
      ensures ResolveProduct(org, req.product, products).Err? ==>
                r.Err? && r.error.NotFound? && lines == old(lines) && totals == old(totals)
      ensures ResolveProduct(org, req.product, products).Ok? ==>
                && r == Ok(RequestLine(req, ResolveProduct(org, req.product, products).value))
                && lines == old(lines) + [r.value]
                && totals == PurchaseTotals(lines)
      ensures AllPriced(old(lines)) ==> AllPriced(lines)
      ensures Header() == old(Header()) && status == old(status)
    {
      var product := ResolveProduct(org, req.product, products);
      if product.Err? {
        return Err(product.error);
      }
      var line := RequestLine(req, product.value);
      if AllPriced(lines) {
        AppendPriced(lines, line);
      }
      lines := lines + [line];
      RecalcTotals();
      r := Ok(line);
    }

    /** `send`: only a draft order is sent. */
    method Send() returns (outcome: Outcome)
      modifies this
      ensures old(status) == OrderDraft ==> outcome == Done && status == OrderSent
      ensures old(status) != OrderDraft ==> outcome.Fail? && outcome.error.Validation? && status == old(status)
      ensures Header() == old(Header()) && lines == old(lines) && totals == old(totals)
    {
      if status != OrderDraft {
        return Fail(Validation("Solo se puede enviar un pedido en estado 'draft'."));
      }
      status := OrderSent;
      outcome := Done;
    }

    /** `receive`: from draft, sent or partially received to received; stock is not touched. */
    method Receive() returns (outcome: Outcome)
      modifies this
      ensures old(status) in {OrderDraft, OrderSent, PartiallyReceived} ==> outcome == Done && status == Received
      ensures old(status) !in {OrderDraft, OrderSent, PartiallyReceived} ==>
                outcome.Fail? && outcome.error.Validation? && status == old(status)
      ensures Header() == old(Header()) && lines == old(lines) && totals == old(totals)
    {
      if status !in {OrderDraft, OrderSent, PartiallyReceived} {
        return Fail(Validation("No se puede recibir un pedido en este estado."));
      }
      status := Received;
      outcome := Done;
    }
  }

  // --- Stock moves of a posted supplier invoice --------------------------------

  /** The move `_create_stock_moves_for_invoice` writes for a line it keeps. */
  function PurchaseMove(org: OrgId, invoiceId: nat, warehouse: WarehouseId, user: Option<UserId>,
                        ln: PurchaseLine): StockMove
    requires ln.product.Some?
  {
    StockMove(org, ln.product.value, ln.qty, ln.uom, None, Some(warehouse), Purchase,
              "supplier_invoice", NatToString(invoiceId), user)
  }

  /** Lines with a product and a positive quantity are the ones that move stock. */
  predicate MovesStock(ln: PurchaseLine)
  {
    ln.product.Some? && ln.qty > 0
  }

  /** The moves of the kept lines, in line order. */
  function PurchaseMoves(org: OrgId, invoiceId: nat, warehouse: WarehouseId, user: Option<UserId>,
                         lines: seq<PurchaseLine>): (ms: seq<StockMove>)
    ensures forall j :: 0 <= j < |ms| ==>
              ms[j].qty > 0 && ms[j].reason == Purchase && ms[j].warehouseTo == Some(warehouse)
              && ms[j].warehouseFrom == None && ms[j].org == org
              && ms[j].refType == "supplier_invoice" && ms[j].refId == NatToString(invoiceId)
    ensures |ms| <= |lines|
  {
    if lines == [] then []
    else
      var last := lines[|lines| - 1];
      var init := PurchaseMoves(org, invoiceId, warehouse, user, lines[..|lines| - 1]);
      if MovesStock(last) then init + [PurchaseMove(org, invoiceId, warehouse, user, last)] else init
  }

  /** Only lines with a product and a positive quantity produce a move, one each. */
  lemma {:induction false} PurchaseMovesCount(org: OrgId, invoiceId: nat, warehouse: WarehouseId,
                                              user: Option<UserId>, lines: seq<PurchaseLine>)
    ensures |PurchaseMoves(org, invoiceId, warehouse, user, lines)| == |set i | 0 <= i < |lines| && MovesStock(lines[i])|
    decreases |lines|
  {
    if lines != [] {
      var n := |lines| - 1;
      PurchaseMovesCount(org, invoiceId, warehouse, user, lines[..n]);
      var before := set i | 0 <= i < n && MovesStock(lines[..n][i]);
      var after := set i | 0 <= i < |lines| && MovesStock(lines[i]);
      assert before == set i | 0 <= i < n && MovesStock(lines[i]);
      if MovesStock(lines[n]) {
        assert after == before + {n};
      } else {
        assert after == before;
      }
    }
  }

  lemma {:induction false} MovesBalanceAppend(a: seq<StockMove>, b: seq<StockMove>, k: ItemKey)
    ensures MovesBalance(a + b, k) == MovesBalance(a, k) + MovesBalance(b, k)
    decreases |b|
  {
    if b == [] {
      assert a + b == a;
    } else {
      var init := b[..|b| - 1];
      var m := b[|b| - 1];
      assert a + b == (a + init) + [m];
      assert b == init + [m];
      MovesBalanceSnoc(a + init, m, k);
      MovesBalanceSnoc(init, m, k);
      MovesBalanceAppend(a, init, k);
    }
  }

  /** Moves of positive quantity that touch `k` add a positive amount to its balance. */
  lemma {:induction false} PositiveMovesBalance(ms: seq<StockMove>, k: ItemKey)
    requires forall j :: 0 <= j < |ms| ==> ms[j].qty > 0
    ensures MovesBalance(ms, k) >= 0
    ensures ms != [] && MoveDelta(ms[|ms| - 1], k) != 0 ==> MovesBalance(ms, k) > 0
    decreases |ms|
  {
    if ms != [] {
      assert forall j :: 0 <= j < |ms| - 1 ==> ms[..|ms| - 1][j] == ms[j];
      PositiveMovesBalance(ms[..|ms| - 1], k);
    }
  }

  /**
   * Posting writes moves but no balances: once a posted invoice has moved
   * stock, the log no longer explains the on-hand quantity of its last item.
   */
  lemma PostingBreaksBalance(s: Stock, org: OrgId, invoiceId: nat, warehouse: WarehouseId,
                             user: Option<UserId>, lines: seq<PurchaseLine>)
    requires Balanced(s)
    requires PurchaseMoves(org, invoiceId, warehouse, user, lines) != []
    ensures !Balanced(Stock(s.items, s.moves + PurchaseMoves(org, invoiceId, warehouse, user, lines)))
  {
    var ms := PurchaseMoves(org, invoiceId, warehouse, user, lines);
    var m := ms[|ms| - 1];
    var k := ItemKey(org, m.product, warehouse);
    assert MoveDelta(m, k) == m.qty;
    PositiveMovesBalance(ms, k);
    MovesBalanceAppend(s.moves, ms, k);
    assert ItemAt(s.items, k).onHand == MovesBalance(s.moves, k);
  }

  /** `_create_stock_moves_for_invoice`: one move row per kept line; no balance changes. */
  method CreateStockMovesForInvoice(ledger: Ledger, org: OrgId, invoiceId: nat, warehouse: WarehouseId,
                                    user: Option<UserId>, lines: seq<PurchaseLine>)
    modifies ledger
    ensures ledger.moves == old(ledger.moves) + PurchaseMoves(org, invoiceId, warehouse, user, lines)
    ensures ledger.items == old(ledger.items)
  {
    var i := 0;
    while i < |lines|
      invariant 0 <= i <= |lines|
      invariant ledger.moves == old(ledger.moves) + PurchaseMoves(org, invoiceId, warehouse, user, lines[..i])
      invariant ledger.items == old(ledger.items)
    {
      var ln := lines[i];
      assert lines[..i + 1][..i] == lines[..i];
      if MovesStock(ln) {
        ledger.moves := ledger.moves + [PurchaseMove(org, invoiceId, warehouse, user, ln)];
      }
      i := i + 1;
    }
    assert lines[..i] == lines;
  }

  // --- Supplier invoices ----------------------------------------------------------

  /** Every payment is stored under organization `org`. */
  predicate PaymentsInOrg(payments: seq<SupplierPayment>, org: OrgId)
  {
    forall p :: p in payments ==> p.org == org
  }

  /** The refusal of the corrected create for an invoice of another organization. */
  const ForeignInvoice := Validation("La factura debe pertenecer a esta organización.")

  /**
   * As written, a member of organization `requestOrg` may pay organization
   * `invoiceOrg`'s invoice: a payment settling a 100.00 invoice with no
   * payments passes the check, is stored under `requestOrg`, and makes the
   * other organization's invoice "paid".
   */
  lemma ForeignPaymentSettlesInvoice(invoiceOrg: OrgId, requestOrg: OrgId, invoice: nat, date: Date)
    requires invoiceOrg != requestOrg
    ensures var p := SupplierPayment(requestOrg, invoice, 10000, date, DefaultPayMethod, "");
            && CheckPayment(SupplierPaidSum([]), 10000, 10000) == Done
            && !PaymentsInOrg([p], invoiceOrg)
            && PurchasePaymentStatus(SupplierPaidSum([p]), 10000) == Paid
  {
    var p := SupplierPayment(requestOrg, invoice, 10000, date, DefaultPayMethod, "");
    SumOfSnoc(SupplierPaymentAmount, [], p);
    assert [] + [p] == [p];
  }

  class SupplierInvoice {
    const id: nat
    const org: OrgId
    var number: string
    var supplier: ContactId
    var warehouse: WarehouseId
    var currency: string
    var status: InvoiceStatus
    var paymentStatus: PaymentStatus
    var purchaseOrder: Option<nat>
    var totals: Totals
    var lines: seq<PurchaseLine>
    var payments: seq<SupplierPayment>

    constructor (id: nat, org: OrgId, number: string, supplier: ContactId, warehouse: WarehouseId,
                 purchaseOrder: Option<nat>)
      ensures this.id == id && this.org == org && this.number == number && this.supplier == supplier
      ensures this.warehouse == warehouse && this.purchaseOrder == purchaseOrder
      ensures currency == DefaultCurrency && status == Draft && paymentStatus == Unpaid
      ensures totals == Totals(0, 0, 0) && lines == [] && payments == []
    {
      this.id := id;
      this.org := org;
      this.number := number;
      this.supplier := supplier;
      this.warehouse := warehouse;
      this.purchaseOrder := purchaseOrder;
      currency := DefaultCurrency;
      status := Draft;
      paymentStatus := Unpaid;
      totals := Totals(0, 0, 0);
      lines := [];
      payments := [];
    }

    /** The invoice's own fields that no service changes. */
    function Header(): (string, ContactId, WarehouseId, string, Option<nat>)
      reads this
    {
      (number, supplier, warehouse, currency, purchaseOrder)
    }

    /** `_recalc_invoice_totals`. */
    method RecalcTotals()
      modifies this
      ensures totals == PurchaseTotals(lines)
      ensures Header() == old(Header()) && lines == old(lines) && status == old(status) && payments == old(payments)
      ensures paymentStatus == old(paymentStatus)
    {
      totals := SumLineAmounts(lines);
    }

    /** `_recalc_payment_status`, over the invoice's current payments. */
    method RecalcPaymentStatus()
      modifies this
      ensures paymentStatus == PurchasePaymentStatus(SupplierPaidSum(payments), totals.total)
      ensures Header() == old(Header()) && lines == old(lines) && status == old(status)
      ensures payments == old(payments) && totals == old(totals)
    {
      var totalPaid := SupplierPaidSum(payments);
      var total := totals.total;
      if total <= 0 {
        paymentStatus := Unpaid;
      } else if totalPaid <= 0 {
        paymentStatus := Unpaid;
      } else if totalPaid + 1 < total {
        paymentStatus := Partial;
      } else {
        paymentStatus := Paid;
      }
    }

    /** `add_line`: only a draft invoice takes lines; the product is looked up after the status check. */
    method AddLine(req: LineRequest, products: map<ProductId, Product>) returns (r: Result<PurchaseLine>)
      modifies this
      ensures old(status) != Draft ==>
                r.Err? && r.error.Validation? && lines == old(lines) && totals == old(totals)
      ensures old(status) == Draft && ResolveProduct(org, req.product, products).Err? ==>
                r.Err? && r.error.NotFound? && lines == old(lines) && totals == old(totals)
      ensures old(status) == Draft && ResolveProduct(org, req.product, products).Ok? ==>
                && r == Ok(RequestLine(req, ResolveProduct(org, req.product, products).value))
                && lines == old(lines) + [r.value]
                && totals == PurchaseTotals(lines)
      ensures AllPriced(old(lines)) ==> AllPriced(lines)
      ensures Header() == old(Header()) && status == old(status) && payments == old(payments)
      ensures paymentStatus == old(paymentStatus)
    {
      if status != Draft {
        return Err(Validation("Solo se pueden añadir líneas en estado 'draft'."));
      }
      var product := ResolveProduct(org, req.product, products);
      if product.Err? {
        return Err(product.error);
      }
      var line := RequestLine(req, product.value);
      if AllPriced(lines) {
        AppendPriced(lines, line);
      }
      lines := lines + [line];
      RecalcTotals();
      r := Ok(line);
    }

    /**
     * `post`: a draft invoice with at least one line gets fresh totals, the
     * status "posted", and one incoming move per line with a product and a
     * positive quantity. The payment status is not recomputed.
     */
    method Post(ledger: Ledger, user: Option<UserId>) returns (outcome: Outcome)
      modifies this, ledger
      ensures old(status) != Draft || old(lines) == [] ==>
                outcome.Fail? && outcome.error.Validation? && status == old(status) && totals == old(totals)
                && ledger.State() == old(ledger.State())
      ensures old(status) == Draft && old(lines) != [] ==>
                && outcome == Done && status == Posted && totals == PurchaseTotals(lines)
                && ledger.moves == old(ledger.moves) + PurchaseMoves(org, id, warehouse, user, lines)
                && ledger.items == old(ledger.items)
      ensures Header() == old(Header()) && lines == old(lines) && payments == old(payments)
      ensures paymentStatus == old(paymentStatus)
    {
      if status == Posted {
        return Fail(Validation("La factura ya está contabilizada."));
      }
      if status == Cancelled {
        return Fail(Validation("No se puede contabilizar una factura cancelada."));
      }
      if |lines| == 0 {
        return Fail(Validation("No se puede contabilizar una factura sin líneas."));
      }
      RecalcTotals();
      status := Posted;
      CreateStockMovesForInvoice(ledger, org, id, warehouse, user, lines);
      outcome := Done;
    }

    /** `cancel`: only a draft invoice can be cancelled. */
    method Cancel() returns (outcome: Outcome)
      modifies this
      ensures old(status) == Draft ==> outcome == Done && status == Cancelled
      ensures old(status) != Draft ==> outcome.Fail? && outcome.error.Validation? && status == old(status)
      ensures Header() == old(Header()) && lines == old(lines) && totals == old(totals) && payments == old(payments)
      ensures paymentStatus == old(paymentStatus)
    {
      if status == Cancelled {
        return Fail(Validation("La factura ya está cancelada."));
      }
      if status == Posted {
        return Fail(Validation("No se puede cancelar una factura ya contabilizada (posted)."));
      }
      status := Cancelled;
      outcome := Done;
    }

    /**
     * `perform_create` of a payment for this invoice, whatever its status:
     * refused without a positive total or beyond the one-cent tolerance.
     * The row is saved under the requester's organization
     * (`serializer.save(org=self.org)`), which the `invoice` field does not
     * tie to the invoice's own organization.
     */
    method CreatePayment(requestOrg: OrgId, amount: Cents, date: Date, payMethod: string, notes: string)
      returns (r: Result<SupplierPayment>)
      modifies this
      ensures var check := CheckPayment(SupplierPaidSum(old(payments)), amount, totals.total);
              && (check.Fail? ==> r == Err(check.error) && payments == old(payments)
                                  && paymentStatus == old(paymentStatus))
              && (check.Done? ==>
                    && r == Ok(SupplierPayment(requestOrg, id, amount, date, payMethod, notes))
                    && payments == old(payments) + [r.value]
                    && paymentStatus == PurchasePaymentStatus(SupplierPaidSum(payments), totals.total))
      ensures r.Ok? ==> r.value.org == requestOrg && r.value.invoice == id
      ensures NotOverpaid(payments, totals.total) || payments == old(payments)
      ensures Header() == old(Header()) && lines == old(lines) && status == old(status) && totals == old(totals)
    {
      var check := CheckPayment(SupplierPaidSum(payments), amount, totals.total);
      if check.Fail? {
        return Err(check.error);
      }
      var p := SupplierPayment(requestOrg, id, amount, date, payMethod, notes);
      SumOfSnoc(SupplierPaymentAmount, payments, p);
      payments := payments + [p];
      RecalcPaymentStatus();
      r := Ok(p);
    }

    /**
     * The corrected create: an invoice of another organization is refused
     * before the amount check, so the payments of an invoice stay in the
     * invoice's organization.
     */
    method CreateScopedPayment(requestOrg: OrgId, amount: Cents, date: Date, payMethod: string, notes: string)
      returns (r: Result<SupplierPayment>)
      modifies this
      ensures requestOrg != org ==>
                r == Err(ForeignInvoice) && payments == old(payments) && paymentStatus == old(paymentStatus)
      ensures requestOrg == org ==>
                var check := CheckPayment(SupplierPaidSum(old(payments)), amount, totals.total);
                && (check.Fail? ==> r == Err(check.error) && payments == old(payments)
                                    && paymentStatus == old(paymentStatus))
                && (check.Done? ==>
                      && r == Ok(SupplierPayment(org, id, amount, date, payMethod, notes))
                      && payments == old(payments) + [r.value]
                      && paymentStatus == PurchasePaymentStatus(SupplierPaidSum(payments), totals.total))
      ensures PaymentsInOrg(old(payments), org) ==> PaymentsInOrg(payments, org)
      ensures NotOverpaid(payments, totals.total) || payments == old(payments)
      ensures Header() == old(Header()) && lines == old(lines) && status == old(status) && totals == old(totals)
    {
      if requestOrg != org {
        return Err(ForeignInvoice);
      }
      r := CreatePayment(requestOrg, amount, date, payMethod, notes);
    }

    /**
     * `perform_update` of payment `i` of this invoice: the new amount, or the
     * old one when absent, is checked against the other payments; the row is
     * saved with the sent date, method and notes (the stored ones when
     * absent) and again under the requester's organization.
     */
    method UpdatePayment(requestOrg: OrgId, i: nat, amount: Option<Cents>, date: Option<Date>,
                         payMethod: Option<string>, notes: Option<string>) returns (outcome: Outcome)
      requires i < |payments|
      modifies this
      ensures var newAmount := Get(amount, old(payments[i].amount));
              var check := CheckPayment(SupplierPaidSum(old(payments)) - old(payments[i].amount), newAmount, totals.total);
              && (check.Fail? ==> outcome == check && payments == old(payments) && paymentStatus == old(paymentStatus))
              && (check.Done? ==>
                    && outcome == Done
                    && payments == old(payments)[i := SupplierPayment(requestOrg, old(payments[i].invoice), newAmount,
                                                                      Get(date, old(payments[i].date)),
                                                                      Get(payMethod, old(payments[i].payMethod)),
                                                                      Get(notes, old(payments[i].notes)))]
                    && paymentStatus == PurchasePaymentStatus(SupplierPaidSum(payments), totals.total))
      ensures NotOverpaid(payments, totals.total) || payments == old(payments)
      ensures Header() == old(Header()) && lines == old(lines) && status == old(status) && totals == old(totals)
    {
      var p := payments[i];
      var newAmount := Get(amount, p.amount);
      var others := SupplierPaidSum(payments) - p.amount;
      var check := CheckPayment(others, newAmount, totals.total);
      if check.Fail? {
        return check;
      }
      var saved := SupplierPayment(requestOrg, p.invoice, newAmount, Get(date, p.date),
                                   Get(payMethod, p.payMethod), Get(notes, p.notes));
      SumOfReplace(SupplierPaymentAmount, payments, i, saved);
      payments := payments[i := saved];
      RecalcPaymentStatus();
      outcome := Done;
    }

    /** `perform_destroy`: the payment is deleted and the status recomputed, without any check. */
    method DestroyPayment(i: nat)
      requires i < |payments|
      modifies this
      ensures payments == old(payments[..i]) + old(payments[i + 1..])
      ensures SupplierPaidSum(payments) == SupplierPaidSum(old(payments)) - old(payments[i].amount)
      ensures paymentStatus == PurchasePaymentStatus(SupplierPaidSum(payments), totals.total)
      ensures old(NotOverpaid(payments, totals.total)) && old(payments[i].amount) >= 0 ==>
                NotOverpaid(payments, totals.total)
      ensures Header() == old(Header()) && lines == old(lines) && status == old(status) && totals == old(totals)
    {
      SumOfRemove(SupplierPaymentAmount, payments, i);
      payments := payments[..i] + payments[i + 1..];
      RecalcPaymentStatus();
    }
  }
}
