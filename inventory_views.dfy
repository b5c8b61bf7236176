// The inventory endpoints: the move actions forwarding to the stock
// services, the warehouse update that refuses to deactivate a stocked
// warehouse, and the product list filters.

module InventoryViews {
  import opened Common
  import opened Text
  import opened Money
  import opened InventoryModels
  import opened StockLedger

  // --- MoveActionsViewSet ---------------------------------------------------

  /** `POST moves/receive`: a receipt with the default reason and no reference. */
  function ReceiveRequest(s: Stock, cat: Catalog, org: OrgId, user: Option<UserId>, product: ProductId,
                          warehouse: WarehouseId, qty: Milli): Result<Stock>
  {
    Receive(s, cat, org, user, product, warehouse, qty, MoveRef(Purchase, "", ""))
  }

  /** `POST moves/adjust`: a signed quantity, in as a receipt, out as a shipment. */
  function AdjustRequest(s: Stock, cat: Catalog, org: OrgId, user: Option<UserId>, product: ProductId,
                         warehouse: WarehouseId, qty: Milli): Result<Stock>
  {
    if qty >= 0 then Receive(s, cat, org, user, product, warehouse, qty, MoveRef(Adjustment, "", ""))
    else ConfirmOutgoing(s, cat, org, user, product, warehouse, Abs(qty), MoveRef(Adjustment, "", ""))
  }

  /** `POST moves/transfer`: the request's fields are passed on unchanged. */
  function TransferRequest(s: Stock, cat: Catalog, org: OrgId, user: Option<UserId>, product: ProductId,
                           from: WarehouseId, to: WarehouseId, qty: Milli): Result<Stock>
  {
    TransferStock(s, cat, org, user, product, from, to, qty, "", "")
  }

  /**
   * An adjustment adds a non-negative quantity to on-hand, and a negative one
   * fails exactly when fewer units than its magnitude are on hand.
   */
  lemma AdjustOutcome(s: Stock, cat: Catalog, org: OrgId, user: Option<UserId>, product: ProductId,
                      warehouse: WarehouseId, qty: Milli)
    ensures var key := ItemKey(org, product, warehouse);
            var r := AdjustRequest(s, cat, org, user, product, warehouse, qty);
            && (r.Err? <==> !Known(cat, product, warehouse) || (qty < 0 && ItemAt(s.items, key).onHand < -qty))
            && (r.Ok? ==> ItemAt(r.value.items, key).onHand == ItemAt(s.items, key).onHand + qty
                          && |r.value.moves| == |s.moves| + 1
                          && r.value.moves[|s.moves|].qty == qty
                          && r.value.moves[|s.moves|].reason == Adjustment)
  {
    if qty < 0 {
      ConfirmOutcome(s, cat, org, user, product, warehouse, Abs(qty), MoveRef(Adjustment, "", ""));
    }
  }

  /** Unlike a bare receipt, an adjustment of either sign keeps every balance consistent. */
  lemma AdjustKeepsValid(s: Stock, cat: Catalog, org: OrgId, user: Option<UserId>, product: ProductId,
                         warehouse: WarehouseId, qty: Milli)
    requires ValidStock(s)
    ensures AdjustRequest(s, cat, org, user, product, warehouse, qty).Ok? ==>
              ValidStock(AdjustRequest(s, cat, org, user, product, warehouse, qty).value)
  {
    if qty >= 0 {
      ReceiveKeepsValid(s, cat, org, user, product, warehouse, qty, MoveRef(Adjustment, "", ""));
    } else {
      ConfirmKeepsValid(s, cat, org, user, product, warehouse, Abs(qty), MoveRef(Adjustment, "", ""));
    }
  }

  /** The receive endpoint does not check the sign of `qty`. */
  lemma NegativeReceiveBreaksBalance()
    ensures var cat := Catalog(map[1 := Product(1, 1, "SKU", "Tornillo", None, "unidad", 2100, false, true)],
                               map[7 := Warehouse(1, "W1", "Central", true, true)]);
            var r := ReceiveRequest(Stock(map[], []), cat, 1, None, 1, 7, -5000);
            r.Ok? && !ValidStock(r.value)
  {
    NegativeReceiptBreaksBalance();
  }

  method ReceiveAction(ledger: Ledger, cat: Catalog, org: OrgId, user: Option<UserId>, product: ProductId,
                 warehouse: WarehouseId, qty: Milli) returns (r: Result<InventoryItem>)
    modifies ledger
    ensures Commits(old(ledger.State()), ReceiveRequest(old(ledger.State()), cat, org, user, product, warehouse, qty), ledger.State())
    ensures r.Ok? <==> ReceiveRequest(old(ledger.State()), cat, org, user, product, warehouse, qty).Ok?
  {
    r := ledger.ReceiveStock(cat, org, user, product, warehouse, qty, MoveRef(Purchase, "", ""));
  }

  method AdjustAction(ledger: Ledger, cat: Catalog, org: OrgId, user: Option<UserId>, product: ProductId,
                warehouse: WarehouseId, qty: Milli) returns (r: Result<InventoryItem>)
    modifies ledger
    ensures Commits(old(ledger.State()), AdjustRequest(old(ledger.State()), cat, org, user, product, warehouse, qty), ledger.State())
    ensures r.Ok? <==> AdjustRequest(old(ledger.State()), cat, org, user, product, warehouse, qty).Ok?
  {
    if qty >= 0 {
      r := ledger.ReceiveStock(cat, org, user, product, warehouse, qty, MoveRef(Adjustment, "", ""));
    } else {
      r := ledger.ConfirmOutgoingStock(cat, org, user, product, warehouse, Abs(qty), MoveRef(Adjustment, "", ""));
    }
  }

  method TransferAction(ledger: Ledger, cat: Catalog, org: OrgId, user: Option<UserId>, product: ProductId,
                  from: WarehouseId, to: WarehouseId, qty: Milli) returns (outcome: Outcome)
    modifies ledger
    ensures Commits(old(ledger.State()), TransferRequest(old(ledger.State()), cat, org, user, product, from, to, qty), ledger.State())
    ensures outcome.Done? <==> TransferRequest(old(ledger.State()), cat, org, user, product, from, to, qty).Ok?
  {
    outcome := ledger.TransferBetween(cat, org, user, product, from, to, qty, "", "");
  }

  // --- WarehouseViewSet.perform_update ---------------------------------------

  /** Some item of warehouse `w` in `org` has a positive on-hand quantity. */
  predicate HasStock(items: map<ItemKey, InventoryItem>, org: OrgId, w: WarehouseId)
  {
    exists k :: k in items && k.org == org && k.warehouse == w && items[k].onHand > 0
  }

  /** Another warehouse of the same org already uses the code. */
  predicate CodeTaken(rows: map<WarehouseId, Warehouse>, id: WarehouseId, w: Warehouse)
  {
    exists b :: b in rows && b != id && rows[b].org == w.org && rows[b].code == w.code
  }

  class WarehouseTable {
    var rows: map<WarehouseId, Warehouse>

    constructor (rows0: map<WarehouseId, Warehouse>)
      ensures rows == rows0
    {
      rows := rows0;
    }

    /**
     * `perform_update`: the row is saved first, and only then is a
     * deactivation refused when the warehouse still holds stock, so that
     * refusal comes after the change is stored. A code already used in the
     * org is refused by the unique key before anything is stored. The
     * serializer has no `org` field, so the organization never changes.
     */
    method PerformUpdate(id: WarehouseId, updated: Warehouse, ledger: Ledger) returns (outcome: Outcome)
      requires id in rows && updated.org == rows[id].org
      modifies this
      ensures CodeTaken(old(rows), id, updated) ==> outcome.Fail? && outcome.error.Integrity? && rows == old(rows)
      ensures !CodeTaken(old(rows), id, updated) ==>
                && rows == old(rows)[id := updated]
                && (outcome.Fail? <==> !updated.isActive && HasStock(ledger.items, updated.org, id))
      ensures UniqueCodes(old(rows)) ==> UniqueCodes(rows)
    {
      if CodeTaken(rows, id, updated) {
        return Fail(Integrity("unique: org, code"));
      }
      rows := rows[id := updated];
      if !updated.isActive {
        if HasStock(ledger.items, updated.org, id) {
          return Fail(ValueError("No se puede desactivar un almacén con stock > 0"));
        }
      }
      outcome := Done;
    }
  }

  // --- ProductViewSet.get_queryset -------------------------------------------

  /**
   * The query parameters of the product list. Text parameters are "" when
   * absent; numeric ones are None when absent or empty.
   */
  datatype ProductParams = ProductParams(
    q: string, category: Option<nat>, isService: string, taxRate: Option<Hundredths>,
    inStock: string, warehouse: Option<WarehouseId>)

  /** The product has an item with stock, in `warehouse` if one is given, else anywhere. */
  predicate InStock(p: Product, items: map<ItemKey, InventoryItem>, warehouse: Option<WarehouseId>)
  {
    exists k :: k in items && k.product == p.id && (warehouse.None? || k.warehouse == warehouse.value)
                && items[k].onHand > 0
  }

  /** `name__icontains=q | sku__icontains=q`, ASCII case folding. */
  predicate MatchesText(p: Product, q: string)
  {
    IsSubstring(Lower(q), Lower(p.name)) || IsSubstring(Lower(q), Lower(p.sku))
  }

  /** Every filter the request switches on holds for the product. */
  predicate Matches(p: Product, org: OrgId, items: map<ItemKey, InventoryItem>, params: ProductParams)
  {
    && p.org == org
    && (params.q == "" || MatchesText(p, params.q))
    && (params.category.None? || p.category == params.category)
    && (params.isService in {"0", "1"} ==> p.isService == (params.isService == "1"))
    && (params.taxRate.None? || p.taxRate == params.taxRate.value)
    && (params.inStock in {"1", "true", "True"} ==> InStock(p, items, params.warehouse))
  }

  /** The product list, in the order of `products`, keeping the products every filter accepts. */
  function ProductQuery(products: seq<Product>, org: OrgId, items: map<ItemKey, InventoryItem>,
                        params: ProductParams): (r: seq<Product>)
    ensures forall p :: p in r <==> p in products && Matches(p, org, items, params)
    ensures |r| <= |products|
    ensures Distinct(products) ==> Distinct(r)
  {
    if products == [] then []
    else
      var rest := ProductQuery(products[1..], org, items, params);
      if Matches(products[0], org, items, params) then
        assert Distinct(products) ==> products[0] !in products[1..];
        [products[0]] + rest
      else rest
  }

  /** Naming a warehouse can only narrow the `in_stock` filter. */
  lemma WarehouseNarrowsInStock(products: seq<Product>, org: OrgId, items: map<ItemKey, InventoryItem>,
                                params: ProductParams, p: Product)
    requires params.warehouse.Some?
    requires p in ProductQuery(products, org, items, params)
    ensures p in ProductQuery(products, org, items, params.(warehouse := None))
  {
    if params.inStock in {"1", "true", "True"} {
      var k :| k in items && k.product == p.id && (params.warehouse.None? || k.warehouse == params.warehouse.value)
               && items[k].onHand > 0;
      assert InStock(p, items, None);
    }
  }

  /** With no parameter set, the list is every product of the org. */
  lemma NoFiltersListsOrg(products: seq<Product>, org: OrgId, items: map<ItemKey, InventoryItem>)
    ensures forall p :: p in ProductQuery(products, org, items, ProductParams("", None, "", None, "", None))
                        <==> p in products && p.org == org
  {
  }
}
