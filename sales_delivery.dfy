// Delivery notes: lines while draft, and confirmation, which ships every
// line with a product out of the note's warehouse as one transaction.

module SalesDelivery {
  import opened Common
  import opened Text
  import opened Money
  import opened Dates
  import opened InventoryModels
  import opened StockLedger
  import opened SalesModels

  /** The reference `confirm` puts on every move: reason "sale", type "DN", the note's id. */
  function NoteRef(id: nat): MoveRef
  {
    MoveRef(Sale, "DN", NatToString(id))
  }

  /**
   * The shipments of `lines` from `warehouse`, one `confirm_outgoing` per line
   * with a product, in order; the first failure aborts the whole sequence.
   */
  function ConfirmLines(s: Stock, cat: Catalog, org: OrgId, user: Option<UserId>, warehouse: WarehouseId,
                        lines: seq<DocumentLine>, ref: MoveRef): Result<Stock>
    decreases |lines|
  {
    if lines == [] then Ok(s)
    else if lines[0].product.None? then ConfirmLines(s, cat, org, user, warehouse, lines[1..], ref)
    else
      match ConfirmOutgoing(s, cat, org, user, lines[0].product.value, warehouse, lines[0].qty, ref)
        case Err(e) => Err(e)
        case Ok(s1) => ConfirmLines(s1, cat, org, user, warehouse, lines[1..], ref)
  }

  /** The quantity the lines ship of product `p`. */
  function ShippedQty(lines: seq<DocumentLine>, p: ProductId): int
  {
    if lines == [] then 0
    else (if lines[0].product == Some(p) then lines[0].qty else 0) + ShippedQty(lines[1..], p)
  }

  /** The number of lines that name a product. */
  function ProductLines(lines: seq<DocumentLine>): nat
  {
    if lines == [] then 0 else (if lines[0].product.Some? then 1 else 0) + ProductLines(lines[1..])
  }

  /** No line names `p`. */
  predicate NotShipped(lines: seq<DocumentLine>, p: ProductId)
  {
    forall i :: 0 <= i < |lines| ==> lines[i].product != Some(p)
  }

  /** Every line with a product names a product and warehouse whose rows exist. */
  predicate Shippable(cat: Catalog, lines: seq<DocumentLine>, warehouse: WarehouseId)
  {
    forall i :: 0 <= i < |lines| && lines[i].product.Some? ==> Known(cat, lines[i].product.value, warehouse)
  }

  lemma {:induction false} ShippedQtyNonNegative(lines: seq<DocumentLine>, p: ProductId)
    requires forall i :: 0 <= i < |lines| ==> lines[i].qty >= 0
    ensures ShippedQty(lines, p) >= 0
    decreases |lines|
  {
    if lines != [] {
      ShippedQtyNonNegative(lines[1..], p);
    }
  }

  lemma {:induction false} ShippedQtyOfAbsent(lines: seq<DocumentLine>, p: ProductId)
    requires NotShipped(lines, p)
    ensures ShippedQty(lines, p) == 0
    decreases |lines|
  {
    if lines != [] {
      assert NotShipped(lines[1..], p) by {
        forall i | 0 <= i < |lines[1..]| ensures lines[1..][i].product != Some(p) {
          assert lines[1..][i] == lines[i + 1];
        }
      }
      ShippedQtyOfAbsent(lines[1..], p);
    }
  }

  /** Lines without a product ship nothing: with no product line, stock stays as it was. */
  lemma {:induction false} ProductlessLinesSkipped(s: Stock, cat: Catalog, org: OrgId, user: Option<UserId>,
                                                   warehouse: WarehouseId, lines: seq<DocumentLine>, ref: MoveRef)
    requires forall i :: 0 <= i < |lines| ==> lines[i].product.None?
    ensures ConfirmLines(s, cat, org, user, warehouse, lines, ref) == Ok(s)
    decreases |lines|
  {
    if lines != [] {
      assert forall i :: 0 <= i < |lines[1..]| ==> lines[1..][i] == lines[i + 1];
      ProductlessLinesSkipped(s, cat, org, user, warehouse, lines[1..], ref);
    }
  }

  /**
   * A successful confirmation lowers on-hand in the note's warehouse by the
   * quantity shipped of each product, leaves every other item alone, and
   * appends one move per product line, each with the note's reference.
   */
  lemma {:induction false} ConfirmLinesEffect(s: Stock, cat: Catalog, org: OrgId, user: Option<UserId>,
                                              warehouse: WarehouseId, lines: seq<DocumentLine>, ref: MoveRef)
    ensures var r := ConfirmLines(s, cat, org, user, warehouse, lines, ref);
            r.Ok? ==>
              && (forall k :: ItemAt(r.value.items, k).onHand
                              == ItemAt(s.items, k).onHand
                                 - (if k.org == org && k.warehouse == warehouse then ShippedQty(lines, k.product) else 0))
              && |r.value.moves| == |s.moves| + ProductLines(lines)
              && r.value.moves[..|s.moves|] == s.moves
              && (forall j :: |s.moves| <= j < |r.value.moves| ==>
                                r.value.moves[j].reason == ref.reason && r.value.moves[j].refType == ref.refType
                                && r.value.moves[j].refId == ref.refId && r.value.moves[j].warehouseFrom == Some(warehouse))
    decreases |lines|
  {
    var r := ConfirmLines(s, cat, org, user, warehouse, lines, ref);
    if lines != [] && r.Ok? {
      if lines[0].product.None? {
        ConfirmLinesEffect(s, cat, org, user, warehouse, lines[1..], ref);
      } else {
        var p := lines[0].product.value;
        var s1 := ConfirmOutgoing(s, cat, org, user, p, warehouse, lines[0].qty, ref).value;
        ConfirmOutcome(s, cat, org, user, p, warehouse, lines[0].qty, ref);
        ConfirmLinesEffect(s1, cat, org, user, warehouse, lines[1..], ref);
        assert r.value.moves[..|s1.moves|] == s1.moves;
        assert r.value.moves[..|s.moves|] == s1.moves[..|s.moves|];
        forall j | |s.moves| <= j < |r.value.moves|
          ensures r.value.moves[j].reason == ref.reason && r.value.moves[j].refType == ref.refType
                  && r.value.moves[j].refId == ref.refId && r.value.moves[j].warehouseFrom == Some(warehouse)
        {
          if j == |s.moves| {
            assert r.value.moves[j] == s1.moves[j];
          }
        }
      }
    }
  }

  /** For each product shipped, the warehouse holds at least the quantity the lines ship of it. */
  predicate Covers(s: Stock, org: OrgId, warehouse: WarehouseId, lines: seq<DocumentLine>)
  {
    forall i :: 0 <= i < |lines| && lines[i].product.Some? ==>
      ItemAt(s.items, ItemKey(org, lines[i].product.value, warehouse)).onHand
      >= ShippedQty(lines, lines[i].product.value)
  }

  /** A line without a product changes neither what is shippable nor what must be covered. */
  lemma SkipProductless(s: Stock, cat: Catalog, org: OrgId, warehouse: WarehouseId, lines: seq<DocumentLine>)
    requires lines != [] && lines[0].product.None?
    ensures Shippable(cat, lines, warehouse) <==> Shippable(cat, lines[1..], warehouse)
    ensures Covers(s, org, warehouse, lines) <==> Covers(s, org, warehouse, lines[1..])
  {
    var rest := lines[1..];
    forall i | 0 < i < |lines| ensures lines[i] == rest[i - 1] { }
    forall p ensures ShippedQty(lines, p) == ShippedQty(rest, p) { }
    if Covers(s, org, warehouse, rest) {
      forall i | 0 <= i < |lines| && lines[i].product.Some?
        ensures ItemAt(s.items, ItemKey(org, lines[i].product.value, warehouse)).onHand
                >= ShippedQty(lines, lines[i].product.value)
      {
        assert lines[i] == rest[i - 1];
      }
    }
    if Covers(s, org, warehouse, lines) {
      forall i | 0 <= i < |rest| && rest[i].product.Some?
        ensures ItemAt(s.items, ItemKey(org, rest[i].product.value, warehouse)).onHand
                >= ShippedQty(rest, rest[i].product.value)
      {
        assert lines[i + 1] == rest[i];
      }
    }
  }

  /** Past a first product line that is known, the rest decides whether the lines are shippable. */
  lemma ShippableTail(cat: Catalog, lines: seq<DocumentLine>, warehouse: WarehouseId)
    requires lines != [] && lines[0].product.Some? && Known(cat, lines[0].product.value, warehouse)
    ensures Shippable(cat, lines, warehouse) <==> Shippable(cat, lines[1..], warehouse)
  {
    var rest := lines[1..];
    if Shippable(cat, rest, warehouse) {
      forall i | 0 <= i < |lines| && lines[i].product.Some?
        ensures Known(cat, lines[i].product.value, warehouse)
      {
        if i > 0 { assert lines[i] == rest[i - 1]; }
      }
    }
    if Shippable(cat, lines, warehouse) {
      forall i | 0 <= i < |rest| && rest[i].product.Some?
        ensures Known(cat, rest[i].product.value, warehouse)
      {
        assert lines[i + 1] == rest[i];
      }
    }
  }

  /**
   * Once the first line's quantity has left its item, the stock that is left
   * covers the rest exactly when the stock before covered every line.
   */
  lemma CoversAfterFirst(s: Stock, s1: Stock, org: OrgId, warehouse: WarehouseId, lines: seq<DocumentLine>)
    requires lines != [] && lines[0].product.Some?
    requires forall i :: 0 <= i < |lines| ==> lines[i].qty >= 0
    requires var k0 := ItemKey(org, lines[0].product.value, warehouse);
      && ItemAt(s.items, k0).onHand >= lines[0].qty
      && ItemAt(s1.items, k0).onHand == ItemAt(s.items, k0).onHand - lines[0].qty
      && forall k :: k != k0 ==> ItemAt(s1.items, k) == ItemAt(s.items, k)
    ensures Covers(s, org, warehouse, lines) <==> Covers(s1, org, warehouse, lines[1..])
  {
    var rest := lines[1..];
    var p0 := lines[0].product.value;
    assert forall i :: 0 <= i < |rest| ==> rest[i] == lines[i + 1];
    if Covers(s, org, warehouse, lines) {
      forall i | 0 <= i < |rest| && rest[i].product.Some?
        ensures ItemAt(s1.items, ItemKey(org, rest[i].product.value, warehouse)).onHand
                >= ShippedQty(rest, rest[i].product.value)
      {
        assert lines[i + 1] == rest[i];
      }
    }
    if Covers(s1, org, warehouse, rest) {
      forall i | 0 <= i < |lines| && lines[i].product.Some?
        ensures ItemAt(s.items, ItemKey(org, lines[i].product.value, warehouse)).onHand
                >= ShippedQty(lines, lines[i].product.value)
      {
        if i > 0 {
          assert lines[i] == rest[i - 1];
        } else if NotShipped(rest, p0) {
          ShippedQtyOfAbsent(rest, p0);
        } else {
          var j :| 0 <= j < |rest| && rest[j].product == Some(p0);
          assert rest[j].product.value == p0;
        }
      }
    }
  }

  /**
   * Confirmation of non-negative quantities succeeds exactly when every
   * product is known and the warehouse holds, for each product, at least the
   * total quantity the note ships of it.
   */
  lemma {:induction false} ConfirmLinesSucceeds(s: Stock, cat: Catalog, org: OrgId, user: Option<UserId>,
                                                warehouse: WarehouseId, lines: seq<DocumentLine>, ref: MoveRef)
    requires forall i :: 0 <= i < |lines| ==> lines[i].qty >= 0
    ensures ConfirmLines(s, cat, org, user, warehouse, lines, ref).Ok?
            <==> Shippable(cat, lines, warehouse) && Covers(s, org, warehouse, lines)
    decreases |lines|
  {
    if lines == [] {
      return;
    }
    var rest := lines[1..];
    assert forall i :: 0 <= i < |rest| ==> rest[i] == lines[i + 1];
    if lines[0].product.None? {
      ConfirmLinesSucceeds(s, cat, org, user, warehouse, rest, ref);
      SkipProductless(s, cat, org, warehouse, lines);
      return;
    }
    var p0 := lines[0].product.value;
    var q0 := lines[0].qty;
    ShippedQtyNonNegative(rest, p0);
    ConfirmOutcome(s, cat, org, user, p0, warehouse, q0, ref);
    var first := ConfirmOutgoing(s, cat, org, user, p0, warehouse, q0, ref);
    if first.Err? {
      if Known(cat, p0, warehouse) {
        assert !Covers(s, org, warehouse, lines) by {
          assert lines[0].product.Some? && lines[0].product.value == p0;
        }
      }
      return;
    }
    var s1 := first.value;
    ConfirmLinesSucceeds(s1, cat, org, user, warehouse, rest, ref);
    ShippableTail(cat, lines, warehouse);
    CoversAfterFirst(s, s1, org, warehouse, lines);
  }

  /** Shipping non-negative quantities keeps every balance consistent. */
  lemma {:induction false} ConfirmLinesKeepsValid(s: Stock, cat: Catalog, org: OrgId, user: Option<UserId>,
                                                  warehouse: WarehouseId, lines: seq<DocumentLine>, ref: MoveRef)
    requires ValidStock(s)
    requires forall i :: 0 <= i < |lines| ==> lines[i].qty >= 0
    ensures ConfirmLines(s, cat, org, user, warehouse, lines, ref).Ok? ==>
              ValidStock(ConfirmLines(s, cat, org, user, warehouse, lines, ref).value)
    decreases |lines|
  {
    if lines != [] {
      assert forall i :: 0 <= i < |lines[1..]| ==> lines[1..][i] == lines[i + 1];
      if lines[0].product.None? {
        ConfirmLinesKeepsValid(s, cat, org, user, warehouse, lines[1..], ref);
      } else {
        var first := ConfirmOutgoing(s, cat, org, user, lines[0].product.value, warehouse, lines[0].qty, ref);
        ConfirmKeepsValid(s, cat, org, user, lines[0].product.value, warehouse, lines[0].qty, ref);
        if first.Ok? {
          ConfirmLinesKeepsValid(first.value, cat, org, user, warehouse, lines[1..], ref);
        }
      }
    }
  }

  /** Every shipment is logged, so the move log keeps explaining every balance. */
  lemma {:induction false} ConfirmLinesKeepsBalanced(s: Stock, cat: Catalog, org: OrgId, user: Option<UserId>,
                                                     warehouse: WarehouseId, lines: seq<DocumentLine>, ref: MoveRef)
    requires Balanced(s)
    ensures ConfirmLines(s, cat, org, user, warehouse, lines, ref).Ok? ==>
              Balanced(ConfirmLines(s, cat, org, user, warehouse, lines, ref).value)
    decreases |lines|
  {
    if lines != [] {
      if lines[0].product.None? {
        ConfirmLinesKeepsBalanced(s, cat, org, user, warehouse, lines[1..], ref);
      } else {
        var first := ConfirmOutgoing(s, cat, org, user, lines[0].product.value, warehouse, lines[0].qty, ref);
        ConfirmKeepsBalanced(s, cat, org, user, lines[0].product.value, warehouse, lines[0].qty, ref);
        if first.Ok? {
          ConfirmLinesKeepsBalanced(first.value, cat, org, user, warehouse, lines[1..], ref);
        }
      }
    }
  }

  /** A `DeliveryNote` with its lines. */
  class DeliveryNote {
    const id: nat
    const org: OrgId
    var number: string
    var date: Date
    var customer: ContactId
    var warehouse: WarehouseId
    var status: DeliveryStatus
    var lines: seq<DocumentLine>

    constructor (id: nat, org: OrgId, number: string, date: Date, customer: ContactId, warehouse: WarehouseId)
      ensures this.id == id && this.org == org && this.number == number && this.date == date
      ensures this.customer == customer && this.warehouse == warehouse
      ensures status == NoteDraft && lines == []
    {
      this.id := id;
      this.org := org;
      this.number := number;
      this.date := date;
      this.customer := customer;
      this.warehouse := warehouse;
      status := NoteDraft;
      lines := [];
    }

    /** The note's own fields that no service changes. */
    function Header(): (string, Date, ContactId, WarehouseId)
      reads this
    {
      (number, date, customer, warehouse)
    }

    /** `add_line`: only a draft note takes new lines. */
    method AddLine(product: Option<ProductRef>, description: string, qty: Milli, uom: string,
                   unitPrice: Cents, taxRate: Hundredths, discountPct: Hundredths) returns (r: Result<DocumentLine>)
      modifies this
      ensures old(status) != NoteDraft ==> r.Err? && r.error.Validation? && lines == old(lines)
      ensures old(status) == NoteDraft ==>
                && r == Ok(NewLine(product, description, qty, uom, unitPrice, taxRate, discountPct))
                && lines == old(lines) + [r.value]
      ensures Header() == old(Header()) && status == old(status)
    {
      if status != NoteDraft {
        return Err(Validation("El albarán no está en borrador"));
      }
      var line := NewLine(product, description, qty, uom, unitPrice, taxRate, discountPct);
      lines := lines + [line];
      r := Ok(line);
    }

    /**
     * `confirm`: a draft note ships its lines; if one of them fails the
     * stock is rolled back and the note stays a draft, otherwise it is done.
     */
    method Confirm(ledger: Ledger, cat: Catalog, user: Option<UserId>) returns (outcome: Outcome)
      modifies this, ledger
      ensures old(status) != NoteDraft ==>
                outcome.Fail? && outcome.error.Validation? && status == old(status)
                && ledger.State() == old(ledger.State())
      ensures old(status) == NoteDraft ==>
                var r := ConfirmLines(old(ledger.State()), cat, org, user, warehouse, lines, NoteRef(id));
                && Commits(old(ledger.State()), r, ledger.State())
                && (outcome.Done? <==> r.Ok?)
                && status == (if r.Ok? then NoteDone else NoteDraft)
      ensures Header() == old(Header()) && lines == old(lines)
    {
      if status != NoteDraft {
        return Fail(Validation("El albarán ya está confirmado"));
      }
      var snapshot := ledger.State();
      var ref := NoteRef(id);
      var i := 0;
      while i < |lines|
        invariant 0 <= i <= |lines|
        invariant ConfirmLines(snapshot, cat, org, user, warehouse, lines, ref)
                  == ConfirmLines(ledger.State(), cat, org, user, warehouse, lines[i..], ref)
        modifies ledger
      {
        var ln := lines[i];
        assert lines[i..][1..] == lines[i + 1..];
        if ln.product.Some? {
          var r := ledger.ConfirmOutgoingStock(cat, org, user, ln.product.value, warehouse, ln.qty, ref);
          if r.Err? {
            ledger.items, ledger.moves := snapshot.items, snapshot.moves;
            return Fail(r.error);
          }
        }
        i := i + 1;
      }
      status := NoteDone;
      outcome := Done;
    }
  }
}
