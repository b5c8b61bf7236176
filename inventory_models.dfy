// The inventory records: products, warehouses, stock balances per
// (org, product, warehouse) and the signed stock-move log.

module InventoryModels {
  import opened Common
  import opened Money

  /** `StockMove.REASONS`. */
  datatype Reason = Purchase | Sale | Transfer | Adjustment | Return
  {
    function Code(): string
    {
      match this
        case Purchase => "purchase"
        case Sale => "sale"
        case Transfer => "transfer"
        case Adjustment => "adjustment"
        case Return => "return"
    }
  }

  /** The choice a stored `reason` code stands for, if it is one of the five. */
  function ParseReason(code: string): (r: Option<Reason>)
    ensures r.Some? ==> r.value.Code() == code
    ensures r.None? ==> forall x: Reason :: x.Code() != code
  {
    if code == "purchase" then Some(Purchase)
    else if code == "sale" then Some(Sale)
    else if code == "transfer" then Some(Transfer)
    else if code == "adjustment" then Some(Adjustment)
    else if code == "return" then Some(Return)
    else None
  }

  lemma ReasonCodeRoundTrip(x: Reason)
    ensures ParseReason(x.Code()) == Some(x)
  {
  }

  /** The columns of `Product` the services and filters read. */
  datatype Product = Product(
    id: ProductId, org: OrgId, sku: string, name: string, category: Option<nat>,
    uom: string, taxRate: Hundredths, isService: bool, isActive: bool)

  /** A `Warehouse` row. */
  datatype Warehouse = Warehouse(org: OrgId, code: string, name: string, isPrimary: bool, isActive: bool)

  /** `unique_together = ("org", "product", "warehouse")` of `InventoryItem`. */
  datatype ItemKey = ItemKey(org: OrgId, product: ProductId, warehouse: WarehouseId)

  /** The two quantities of an `InventoryItem`, in thousandths. */
  datatype InventoryItem = InventoryItem(onHand: Milli, reserved: Milli)

  /** The balance of a row `get_or_create` makes: both columns default to 0.000. */
  const NewItem := InventoryItem(0, 0)

  /** The balance the services maintain; no database constraint enforces it. */
  predicate ItemConsistent(it: InventoryItem)
  {
    0 <= it.reserved <= it.onHand
  }

  /** A `StockMove` row: signed `qty`, optional source and destination warehouses. */
  datatype StockMove = StockMove(
    org: OrgId, product: ProductId, qty: Milli, uom: string,
    warehouseFrom: Option<WarehouseId>, warehouseTo: Option<WarehouseId>,
    reason: Reason, refType: string, refId: string, createdBy: Option<UserId>)

  /** `unique_together = ("org", "sku")` over the product table. */
  predicate UniqueSkus(products: seq<Product>)
  {
    forall i, j :: 0 <= i < j < |products| ==>
      (products[i].org, products[i].sku) != (products[j].org, products[j].sku)
  }

  /** `unique_together = ("org", "code")` over the warehouse table. */
  predicate UniqueCodes(warehouses: map<WarehouseId, Warehouse>)
  {
    forall a, b :: a in warehouses && b in warehouses && a != b ==>
      (warehouses[a].org, warehouses[a].code) != (warehouses[b].org, warehouses[b].code)
  }
}
