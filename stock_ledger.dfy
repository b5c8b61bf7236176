// The stock services: balances per (org, product, warehouse) and the
// append-only move log. Each service runs inside `transaction.atomic`, so a
// failure leaves both as they were; the row locks are not modelled.

module StockLedger {
  import opened Common
  import opened Money
  import opened InventoryModels

  /** The two tables the services write. */
  datatype Stock = Stock(items: map<ItemKey, InventoryItem>, moves: seq<StockMove>)

  /** The rows the services read but do not write: products and warehouses by id. */
  datatype Catalog = Catalog(products: map<ProductId, Product>, warehouses: map<WarehouseId, Warehouse>)

  /** What a service records on the moves it writes. */
  datatype MoveRef = MoveRef(reason: Reason, refType: string, refId: string)

  /** The balance of `key`, or that of the row `get_or_create` would insert. */
  function ItemAt(items: map<ItemKey, InventoryItem>, key: ItemKey): InventoryItem
  {
    if key in items then items[key] else NewItem
  }

  /** The item's foreign keys resolve; otherwise inserting the item fails. */
  predicate Known(cat: Catalog, product: ProductId, warehouse: WarehouseId)
  {
    product in cat.products && warehouse in cat.warehouses
  }

  const MissingRow := Integrity("foreign key: product, warehouse")
  const ShortToReserve := ValueError("Stock insuficiente para reservar")
  const ShortToShip := ValueError("Stock insuficiente para salida")
  const SameWarehouse := ValueError("El almacén de origen y destino no pueden ser el mismo")

  function Min(a: int, b: int): int { if a <= b then a else b }
  function Max(a: int, b: int): int { if a >= b then a else b }

  /** `receive_stock`. */
  function Receive(s: Stock, cat: Catalog, org: OrgId, user: Option<UserId>, product: ProductId,
                   warehouse: WarehouseId, qty: Milli, ref: MoveRef): Result<Stock>
  {
    if !Known(cat, product, warehouse) then Err(MissingRow)
    else
      var key := ItemKey(org, product, warehouse);
      var it := ItemAt(s.items, key);
      Ok(Stock(s.items[key := InventoryItem(it.onHand + qty, it.reserved)],
               s.moves + [StockMove(org, product, qty, cat.products[product].uom, None, Some(warehouse),
                                    ref.reason, ref.refType, ref.refId, user)]))
  }

  /** `reserve_stock`. */
  function Reserve(s: Stock, cat: Catalog, org: OrgId, product: ProductId, warehouse: WarehouseId,
                   qty: Milli): Result<Stock>
  {
    if !Known(cat, product, warehouse) then Err(MissingRow)
    else
      var key := ItemKey(org, product, warehouse);
      var it := ItemAt(s.items, key);
      if it.onHand - it.reserved < qty then Err(ShortToReserve)
      else Ok(Stock(s.items[key := InventoryItem(it.onHand, it.reserved + qty)], s.moves))
  }

  /** `release_reservation`. */
  function Release(s: Stock, cat: Catalog, org: OrgId, product: ProductId, warehouse: WarehouseId,
                   qty: Milli): Result<Stock>
  {
    if !Known(cat, product, warehouse) then Err(MissingRow)
    else
      var key := ItemKey(org, product, warehouse);
      var it := ItemAt(s.items, key);
      var q := if it.reserved < qty then it.reserved else qty;
      Ok(Stock(s.items[key := InventoryItem(it.onHand, it.reserved - q)], s.moves))
  }

  /** `confirm_outgoing`: reservations are consumed first. */
  function ConfirmOutgoing(s: Stock, cat: Catalog, org: OrgId, user: Option<UserId>, product: ProductId,
                           warehouse: WarehouseId, qty: Milli, ref: MoveRef): Result<Stock>
  {
    if !Known(cat, product, warehouse) then Err(MissingRow)
    else
      var key := ItemKey(org, product, warehouse);
      var it := ItemAt(s.items, key);
      if it.onHand < qty then Err(ShortToShip)
      else
        var consumed := Min(it.reserved, qty);
        Ok(Stock(s.items[key := InventoryItem(it.onHand - qty, it.reserved - consumed)],
                 s.moves + [StockMove(org, product, -qty, cat.products[product].uom, Some(warehouse), None,
                                      ref.reason, ref.refType, ref.refId, user)]))
  }

  /** `transfer_stock`: an outgoing move from one warehouse, then an incoming move to the other. */
  function TransferStock(s: Stock, cat: Catalog, org: OrgId, user: Option<UserId>, product: ProductId,
                         from: WarehouseId, to: WarehouseId, qty: Milli, refType: string, refId: string): Result<Stock>
  {
    if from == to then Err(SameWarehouse)
    else
      match ConfirmOutgoing(s, cat, org, user, product, from, qty, MoveRef(Transfer, refType, refId))
        case Err(e) => Err(e)
        case Ok(s1) => Receive(s1, cat, org, user, product, to, qty, MoveRef(Transfer, refType, refId))
  }

  // --- The balance invariant ---------------------------------------------

  /** Every stored item keeps `0 <= reserved <= on_hand`. */
  predicate ValidStock(s: Stock)
  {
    forall k :: k in s.items ==> ItemConsistent(s.items[k])
  }

  lemma ItemAtValid(s: Stock, key: ItemKey)
    requires ValidStock(s)
    ensures ItemConsistent(ItemAt(s.items, key))
  {
  }

  /** Receiving a non-negative quantity keeps every balance consistent. */
  lemma ReceiveKeepsValid(s: Stock, cat: Catalog, org: OrgId, user: Option<UserId>, product: ProductId,
                          warehouse: WarehouseId, qty: Milli, ref: MoveRef)
    requires ValidStock(s) && qty >= 0
    ensures Receive(s, cat, org, user, product, warehouse, qty, ref).Ok? ==>
              ValidStock(Receive(s, cat, org, user, product, warehouse, qty, ref).value)
  {
    ItemAtValid(s, ItemKey(org, product, warehouse));
  }

  /** A reservation succeeds exactly when the available quantity covers it. */
  lemma ReserveOutcome(s: Stock, cat: Catalog, org: OrgId, product: ProductId, warehouse: WarehouseId, qty: Milli)
    ensures var key := ItemKey(org, product, warehouse);
            var before := ItemAt(s.items, key);
            var r := Reserve(s, cat, org, product, warehouse, qty);
            && (r.Err? <==> !Known(cat, product, warehouse) || before.onHand - before.reserved < qty)
            && (r.Ok? ==>
                  var after := ItemAt(r.value.items, key);
                  && after.onHand == before.onHand
                  && after.onHand - after.reserved == before.onHand - before.reserved - qty
                  && r.value.moves == s.moves)
  {
  }

  /** Reserving a non-negative quantity keeps every balance consistent. */
  lemma ReserveKeepsValid(s: Stock, cat: Catalog, org: OrgId, product: ProductId, warehouse: WarehouseId, qty: Milli)
    requires ValidStock(s) && qty >= 0
    ensures Reserve(s, cat, org, product, warehouse, qty).Ok? ==>
              ValidStock(Reserve(s, cat, org, product, warehouse, qty).value)
  {
    ItemAtValid(s, ItemKey(org, product, warehouse));
  }

  /** Releasing more than is reserved is clamped: the reservation never drops below 0. */
  lemma ReleaseClamps(s: Stock, cat: Catalog, org: OrgId, product: ProductId, warehouse: WarehouseId, qty: Milli)
    ensures var key := ItemKey(org, product, warehouse);
            var before := ItemAt(s.items, key);
            var r := Release(s, cat, org, product, warehouse, qty);
            && (r.Ok? <==> Known(cat, product, warehouse))
            && (r.Ok? ==>
                  var after := ItemAt(r.value.items, key);
                  && after.onHand == before.onHand
                  && after.reserved == Max(before.reserved - qty, 0)
                  && r.value.moves == s.moves)
  {
  }

  /** Any release keeps every balance consistent, except a negative quantity. */
  lemma ReleaseKeepsValid(s: Stock, cat: Catalog, org: OrgId, product: ProductId, warehouse: WarehouseId, qty: Milli)
    requires ValidStock(s) && qty >= 0
    ensures Release(s, cat, org, product, warehouse, qty).Ok? ==>
              ValidStock(Release(s, cat, org, product, warehouse, qty).value)
  {
    ItemAtValid(s, ItemKey(org, product, warehouse));
  }

  /**
   * Shipping fails exactly when fewer units are on hand; otherwise on-hand
   * drops by `qty`, the reservation by as much of `qty` as it covers, and one
   * negative move from the warehouse is logged.
   */
  lemma ConfirmOutcome(s: Stock, cat: Catalog, org: OrgId, user: Option<UserId>, product: ProductId,
                       warehouse: WarehouseId, qty: Milli, ref: MoveRef)
    ensures var key := ItemKey(org, product, warehouse);
            var before := ItemAt(s.items, key);
            var r := ConfirmOutgoing(s, cat, org, user, product, warehouse, qty, ref);
            && (r.Err? <==> !Known(cat, product, warehouse) || before.onHand < qty)
            && (r.Ok? ==>
                  var after := ItemAt(r.value.items, key);
                  && after.onHand == before.onHand - qty
                  && (ItemConsistent(before) && qty >= 0 ==> after.reserved == Max(before.reserved - qty, 0))
                  && |r.value.moves| == |s.moves| + 1
                  && r.value.moves[..|s.moves|] == s.moves
                  && r.value.moves[|s.moves|].qty == -qty
                  && r.value.moves[|s.moves|].warehouseFrom == Some(warehouse)
                  && r.value.moves[|s.moves|].warehouseTo == None)
  {
  }

  /** Shipping a non-negative quantity keeps every balance consistent. */
  lemma ConfirmKeepsValid(s: Stock, cat: Catalog, org: OrgId, user: Option<UserId>, product: ProductId,
                          warehouse: WarehouseId, qty: Milli, ref: MoveRef)
    requires ValidStock(s) && qty >= 0
    ensures ConfirmOutgoing(s, cat, org, user, product, warehouse, qty, ref).Ok? ==>
              ValidStock(ConfirmOutgoing(s, cat, org, user, product, warehouse, qty, ref).value)
  {
    ItemAtValid(s, ItemKey(org, product, warehouse));
  }

  /** A transfer of a non-negative quantity keeps every balance consistent. */
  lemma TransferKeepsValid(s: Stock, cat: Catalog, org: OrgId, user: Option<UserId>, product: ProductId,
                           from: WarehouseId, to: WarehouseId, qty: Milli, refType: string, refId: string)
    requires ValidStock(s) && qty >= 0
    ensures TransferStock(s, cat, org, user, product, from, to, qty, refType, refId).Ok? ==>
              ValidStock(TransferStock(s, cat, org, user, product, from, to, qty, refType, refId).value)
  {
    var ref := MoveRef(Transfer, refType, refId);
    if from != to {
      ConfirmKeepsValid(s, cat, org, user, product, from, qty, ref);
      var r1 := ConfirmOutgoing(s, cat, org, user, product, from, qty, ref);
      if r1.Ok? {
        ReceiveKeepsValid(r1.value, cat, org, user, product, to, qty, ref);
      }
    }
  }

  /**
   * A transfer fails when the warehouses coincide or the source is short;
   * otherwise the two warehouses hold the same combined quantity, every other
   * item is untouched and exactly two moves are logged.
   */
  lemma TransferConserves(s: Stock, cat: Catalog, org: OrgId, user: Option<UserId>, product: ProductId,
                          from: WarehouseId, to: WarehouseId, qty: Milli, refType: string, refId: string)
    ensures var r := TransferStock(s, cat, org, user, product, from, to, qty, refType, refId);
            var kf := ItemKey(org, product, from);
            var kt := ItemKey(org, product, to);
            && (r.Err? <==> from == to || !Known(cat, product, from) || !Known(cat, product, to)
                            || ItemAt(s.items, kf).onHand < qty)
            && (r.Ok? ==>
                  && ItemAt(r.value.items, kf).onHand + ItemAt(r.value.items, kt).onHand
                     == ItemAt(s.items, kf).onHand + ItemAt(s.items, kt).onHand
                  && ItemAt(r.value.items, kf).onHand == ItemAt(s.items, kf).onHand - qty
                  && (forall k :: k != kf && k != kt ==> ItemAt(r.value.items, k) == ItemAt(s.items, k))
                  && |r.value.moves| == |s.moves| + 2
                  && r.value.moves[..|s.moves|] == s.moves
                  && r.value.moves[|s.moves|].reason == Transfer
                  && r.value.moves[|s.moves| + 1].reason == Transfer)
  {
    var ref := MoveRef(Transfer, refType, refId);
    if from != to {
      var r1 := ConfirmOutgoing(s, cat, org, user, product, from, qty, ref);
      if r1.Ok? {
        var r := Receive(r1.value, cat, org, user, product, to, qty, ref);
        if r.Ok? {
          assert r.value.moves[..|s.moves|] == r1.value.moves[..|s.moves|];
        }
      }
    }
  }

  // --- The move log explains every balance ---------------------------------

  /** The signed quantity a move contributes to the balance of `key`. */
  function MoveDelta(m: StockMove, key: ItemKey): int
  {
    if m.org == key.org && m.product == key.product
       && (m.warehouseTo == Some(key.warehouse) || m.warehouseFrom == Some(key.warehouse))
    then m.qty else 0
  }

  /** The sum of the moves that touch `key`. */
  function MovesBalance(moves: seq<StockMove>, key: ItemKey): int
  {
    if moves == [] then 0 else MovesBalance(moves[..|moves| - 1], key) + MoveDelta(moves[|moves| - 1], key)
  }

  /** Every on-hand quantity is the signed sum of the moves logged for its item. */
  ghost predicate Balanced(s: Stock)
  {
    forall k :: ItemAt(s.items, k).onHand == MovesBalance(s.moves, k)
  }

  lemma MovesBalanceSnoc(moves: seq<StockMove>, m: StockMove, key: ItemKey)
    ensures MovesBalance(moves + [m], key) == MovesBalance(moves, key) + MoveDelta(m, key)
  {
    assert (moves + [m])[..|moves|] == moves;
  }

  lemma EmptyIsBalanced()
    ensures Balanced(Stock(map[], []))
  {
  }

  /** A receipt logs exactly the quantity it adds. */
  lemma ReceiveKeepsBalanced(s: Stock, cat: Catalog, org: OrgId, user: Option<UserId>, product: ProductId,
                             warehouse: WarehouseId, qty: Milli, ref: MoveRef)
    requires Balanced(s)
    ensures Receive(s, cat, org, user, product, warehouse, qty, ref).Ok? ==>
              Balanced(Receive(s, cat, org, user, product, warehouse, qty, ref).value)
  {
    var r := Receive(s, cat, org, user, product, warehouse, qty, ref);
    if r.Ok? {
      var m := r.value.moves[|s.moves|];
      assert r.value.moves == s.moves + [m];
      forall k
        ensures ItemAt(r.value.items, k).onHand == MovesBalance(r.value.moves, k)
      {
        MovesBalanceSnoc(s.moves, m, k);
      }
    }
  }

  /** A shipment logs exactly the quantity it removes. */
  lemma ConfirmKeepsBalanced(s: Stock, cat: Catalog, org: OrgId, user: Option<UserId>, product: ProductId,
                             warehouse: WarehouseId, qty: Milli, ref: MoveRef)
    requires Balanced(s)
    ensures ConfirmOutgoing(s, cat, org, user, product, warehouse, qty, ref).Ok? ==>
              Balanced(ConfirmOutgoing(s, cat, org, user, product, warehouse, qty, ref).value)
  {
    var r := ConfirmOutgoing(s, cat, org, user, product, warehouse, qty, ref);
    if r.Ok? {
      var m := r.value.moves[|s.moves|];
      assert r.value.moves == s.moves + [m];
      forall k
        ensures ItemAt(r.value.items, k).onHand == MovesBalance(r.value.moves, k)
      {
        MovesBalanceSnoc(s.moves, m, k);
      }
    }
  }

  /** Reservations change no on-hand quantity and log nothing. */
  lemma ReservationsKeepBalanced(s: Stock, cat: Catalog, org: OrgId, product: ProductId,
                                 warehouse: WarehouseId, qty: Milli)
    requires Balanced(s)
    ensures Reserve(s, cat, org, product, warehouse, qty).Ok? ==>
              Balanced(Reserve(s, cat, org, product, warehouse, qty).value)
    ensures Release(s, cat, org, product, warehouse, qty).Ok? ==>
              Balanced(Release(s, cat, org, product, warehouse, qty).value)
  {
    var key := ItemKey(org, product, warehouse);
    assert forall k :: k != key ==> ItemAt(s.items, k) == ItemAt(s.items[key := NewItem], k);
  }

  /** A transfer logs both of its halves. */
  lemma TransferKeepsBalanced(s: Stock, cat: Catalog, org: OrgId, user: Option<UserId>, product: ProductId,
                              from: WarehouseId, to: WarehouseId, qty: Milli, refType: string, refId: string)
    requires Balanced(s)
    ensures TransferStock(s, cat, org, user, product, from, to, qty, refType, refId).Ok? ==>
              Balanced(TransferStock(s, cat, org, user, product, from, to, qty, refType, refId).value)
  {
    var ref := MoveRef(Transfer, refType, refId);
    if from != to {
      ConfirmKeepsBalanced(s, cat, org, user, product, from, qty, ref);
      var r1 := ConfirmOutgoing(s, cat, org, user, product, from, qty, ref);
      if r1.Ok? {
        ReceiveKeepsBalanced(r1.value, cat, org, user, product, to, qty, ref);
      }
    }
  }

  /** An unchecked negative receipt leaves on-hand below the reservation of 0. */
  lemma NegativeReceiptBreaksBalance()
    ensures var cat := Catalog(map[1 := Product(1, 1, "SKU", "Tornillo", None, "unidad", 2100, false, true)],
                               map[7 := Warehouse(1, "W1", "Central", true, true)]);
            var r := Receive(Stock(map[], []), cat, 1, None, 1, 7, -5000, MoveRef(Purchase, "", ""));
            r.Ok? && !ValidStock(r.value)
  {
    var cat := Catalog(map[1 := Product(1, 1, "SKU", "Tornillo", None, "unidad", 2100, false, true)],
                       map[7 := Warehouse(1, "W1", "Central", true, true)]);
    var r := Receive(Stock(map[], []), cat, 1, None, 1, 7, -5000, MoveRef(Purchase, "", ""));
    assert !ItemConsistent(r.value.items[ItemKey(1, 1, 7)]);
  }

  // --- The tables, updated in place ----------------------------------------

  /** The result a service applies: the new tables on success, the old ones after a rollback. */
  predicate Commits(before: Stock, r: Result<Stock>, after: Stock)
  {
    if r.Ok? then after == r.value else after == before
  }

  /** The `InventoryItem` and `StockMove` tables. */
  class Ledger {
    var items: map<ItemKey, InventoryItem>
    var moves: seq<StockMove>

    function State(): Stock
      reads this
    {
      Stock(items, moves)
    }

    constructor ()
      ensures State() == Stock(map[], [])
    {
      items := map[];
      moves := [];
    }

    /** `_get_item_for_update`: the item row, inserted with zero balances when missing. */
    method ItemForUpdate(cat: Catalog, key: ItemKey) returns (r: Result<InventoryItem>)
      modifies this
      ensures Known(cat, key.product, key.warehouse) ==>
                r == Ok(ItemAt(old(items), key)) && items == old(items)[key := ItemAt(old(items), key)]
      ensures !Known(cat, key.product, key.warehouse) ==> r == Err(MissingRow) && items == old(items)
      ensures moves == old(moves)
    {
      if !Known(cat, key.product, key.warehouse) {
        return Err(MissingRow);
      }
      if key !in items {
        items := items[key := NewItem];
      }
      r := Ok(items[key]);
    }

    /** `receive_stock`, returning the refreshed item. */
    method ReceiveStock(cat: Catalog, org: OrgId, user: Option<UserId>, product: ProductId,
                        warehouse: WarehouseId, qty: Milli, ref: MoveRef) returns (r: Result<InventoryItem>)
      modifies this
      ensures Commits(old(State()), Receive(old(State()), cat, org, user, product, warehouse, qty, ref), State())
      ensures r.Ok? <==> Receive(old(State()), cat, org, user, product, warehouse, qty, ref).Ok?
      ensures r.Ok? ==> r.value == items[ItemKey(org, product, warehouse)]
    {
      var key := ItemKey(org, product, warehouse);
      var got := ItemForUpdate(cat, key);
      if got.Err? {
        return Err(got.error);
      }
      var item := got.value;
      item := item.(onHand := item.onHand + qty);
      items := items[key := item];
      moves := moves + [StockMove(org, product, qty, cat.products[product].uom, None, Some(warehouse),
                                  ref.reason, ref.refType, ref.refId, user)];
      r := Ok(item);
    }

    /** `reserve_stock`. */
    method ReserveStock(cat: Catalog, org: OrgId, product: ProductId, warehouse: WarehouseId, qty: Milli)
      returns (r: Result<InventoryItem>)
      modifies this
      ensures Commits(old(State()), Reserve(old(State()), cat, org, product, warehouse, qty), State())
      ensures r.Ok? <==> Reserve(old(State()), cat, org, product, warehouse, qty).Ok?
      ensures r.Ok? ==> r.value == items[ItemKey(org, product, warehouse)]
    {
      var snapshot := items;
      var key := ItemKey(org, product, warehouse);
      var got := ItemForUpdate(cat, key);
      if got.Err? {
        return Err(got.error);
      }
      var item := got.value;
      if item.onHand - item.reserved < qty {
        items := snapshot;
        return Err(ShortToReserve);
      }
      item := item.(reserved := item.reserved + qty);
      items := items[key := item];
      r := Ok(item);
    }

    /** `release_reservation`. */
    method ReleaseReservation(cat: Catalog, org: OrgId, product: ProductId, warehouse: WarehouseId, qty: Milli)
      returns (r: Result<InventoryItem>)
      modifies this
      ensures Commits(old(State()), Release(old(State()), cat, org, product, warehouse, qty), State())
      ensures r.Ok? <==> Release(old(State()), cat, org, product, warehouse, qty).Ok?
      ensures r.Ok? ==> r.value == items[ItemKey(org, product, warehouse)]
    {
      var key := ItemKey(org, product, warehouse);
      var got := ItemForUpdate(cat, key);
      if got.Err? {
        return Err(got.error);
      }
      var item := got.value;
      var q := qty;
      if item.reserved < q {
        q := item.reserved;
      }
      item := item.(reserved := item.reserved - q);
      items := items[key := item];
      r := Ok(item);
    }

    /** `confirm_outgoing`. */
    method ConfirmOutgoingStock(cat: Catalog, org: OrgId, user: Option<UserId>, product: ProductId,
                                warehouse: WarehouseId, qty: Milli, ref: MoveRef) returns (r: Result<InventoryItem>)
      modifies this
      ensures Commits(old(State()), ConfirmOutgoing(old(State()), cat, org, user, product, warehouse, qty, ref), State())
      ensures r.Ok? <==> ConfirmOutgoing(old(State()), cat, org, user, product, warehouse, qty, ref).Ok?
      ensures r.Ok? ==> r.value == items[ItemKey(org, product, warehouse)]
    {
      var snapshot := items;
      var key := ItemKey(org, product, warehouse);
      var got := ItemForUpdate(cat, key);
      if got.Err? {
        return Err(got.error);
      }
      var item := got.value;
      if item.onHand < qty {
        items := snapshot;
        return Err(ShortToShip);
      }
      var consumed := Min(item.reserved, qty);
      if consumed != 0 {
        item := item.(reserved := item.reserved - consumed);
      }
      item := item.(onHand := item.onHand - qty);
      items := items[key := item];
      moves := moves + [StockMove(org, product, -qty, cat.products[product].uom, Some(warehouse), None,
                                  ref.reason, ref.refType, ref.refId, user)];
      r := Ok(item);
    }

    /** `transfer_stock`: both halves commit together or not at all. */
    method TransferBetween(cat: Catalog, org: OrgId, user: Option<UserId>, product: ProductId,
                    from: WarehouseId, to: WarehouseId, qty: Milli, refType: string, refId: string)
      returns (outcome: Outcome)
      modifies this
      ensures Commits(old(State()), TransferStock(old(State()), cat, org, user, product, from, to, qty, refType, refId), State())
      ensures outcome.Done? <==> TransferStock(old(State()), cat, org, user, product, from, to, qty, refType, refId).Ok?
    {
      if from == to {
        return Fail(SameWarehouse);
      }
      var snapshot := State();
      var ref := MoveRef(Transfer, refType, refId);
      var out := ConfirmOutgoingStock(cat, org, user, product, from, qty, ref);
      if out.Err? {
        return Fail(out.error);
      }
      var inc := ReceiveStock(cat, org, user, product, to, qty, ref);
      if inc.Err? {
        items, moves := snapshot.items, snapshot.moves;
        return Fail(inc.error);
      }
      outcome := Done;
    }
  }
}
