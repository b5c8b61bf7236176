// The purchase serializers: the supplier check shared by orders and
// supplier invoices, and the fields a request cannot write.

module PurchaseSerializers {
  import opened Common

  /** The two columns of a `Contact` the supplier check reads. */
  datatype SupplierContact = SupplierContact(id: ContactId, org: OrgId, tipo: string)

  const SupplierTipo := "supplier"

  /**
   * `validate_supplier`: the contact must belong to the context org (an absent
   * org matches no contact) and be of type "supplier"; the org is checked
   * first, and a valid contact comes back unchanged.
   */
  function ValidateSupplier(contextOrg: Option<OrgId>, supplier: SupplierContact): (r: Result<SupplierContact>)
    ensures r.Ok? <==> contextOrg == Some(supplier.org) && supplier.tipo == SupplierTipo
    ensures r.Ok? ==> r.value == supplier
    ensures r.Err? ==> r.error.Validation?
    ensures contextOrg != Some(supplier.org) ==> r == Err(Validation("El proveedor debe pertenecer a esta organización."))
  {
    if contextOrg.None? || supplier.org != contextOrg.value then
      Err(Validation("El proveedor debe pertenecer a esta organización."))
    else if supplier.tipo != SupplierTipo then
      Err(Validation("El contacto debe ser de tipo proveedor."))
    else Ok(supplier)
  }

  /** Without an org in the serializer context no supplier is accepted. */
  lemma NoOrgRejectsEverySupplier(supplier: SupplierContact)
    ensures ValidateSupplier(None, supplier).Err?
  {
  }

  /** `read_only_fields` of both line serializers. */
  const LineReadOnly: set<string> := {"line_base", "line_tax", "line_total"}

  /** `read_only_fields` of `SupplierInvoiceSerializer`. */
  const SupplierInvoiceReadOnly: set<string> := {"status", "payment_status", "total_base", "total_tax", "total"}

  /** The request fields a serializer keeps: everything but its read-only fields. */
  function Writable<V>(data: map<string, V>, readOnly: set<string>): (w: map<string, V>)
    ensures forall k :: k in w <==> k in data && k !in readOnly
    ensures forall k :: k in w ==> w[k] == data[k]
  {
    map k | k in data && k !in readOnly :: data[k]
  }

  /** A request cannot set a supplier invoice's status, payment status or totals. */
  lemma InvoiceStatusNotWritable<V>(data: map<string, V>)
    ensures "status" !in Writable(data, SupplierInvoiceReadOnly)
    ensures "payment_status" !in Writable(data, SupplierInvoiceReadOnly)
    ensures "total" !in Writable(data, SupplierInvoiceReadOnly)
  {
  }
}
