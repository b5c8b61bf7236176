// The two contact serializers with cross-field checks: a compensation's end
// may not precede its start, and a payslip attachment needs its month.
// Fields missing from the submitted data fall back to the stored record.

module ContactSerializers {
  import opened Common
  import opened Dates
  import opened ContactModels

  /** A field of submitted data: left out of it, or sent with a value (possibly null). */
  datatype Field<T> = Absent | Sent(value: T)

  /** `data.get(name, getattr(instance, name, None))`: the sent value, else the stored one, else null. */
  function Effective<T>(sent: Field<Option<T>>, stored: Option<Option<T>>): Option<T>
  {
    if sent.Sent? then sent.value else if stored.Some? then stored.value else None
  }

  /** The date fields of compensation data; the read-only fields are not accepted from clients. */
  datatype CompensationData = CompensationData(inicio: Field<Option<Date>>, fin: Field<Option<Date>>)

  const FinBeforeInicio := Validation("fin: Debe ser >= inicio o null.")

  /**
   * `EmployeeCompensationSerializer.validate`: with both dates known, `fin`
   * may not be earlier than `inicio`; the data is returned unchanged.
   */
  function ValidateCompensation(data: CompensationData, instance: Option<Compensation>): (r: Result<CompensationData>)
    ensures var inicio := Effective(data.inicio, if instance.Some? then Some(Some(instance.value.inicio)) else None);
      var fin := Effective(data.fin, if instance.Some? then Some(instance.value.fin) else None);
      (r.Err? <==> inicio.Some? && fin.Some? && Before(fin.value, inicio.value)) &&
      (r.Ok? ==> r.value == data) && (r.Err? ==> r.error == FinBeforeInicio)
  {
    var inicio := Effective(data.inicio, if instance.Some? then Some(Some(instance.value.inicio)) else None);
    var fin := Effective(data.fin, if instance.Some? then Some(instance.value.fin) else None);
    if fin.Some? && inicio.Some? && Before(fin.value, inicio.value) then Err(FinBeforeInicio) else Ok(data)
  }

  /** Sending a null end is always accepted, whatever the start. */
  lemma NullFinAccepted(inicio: Field<Option<Date>>, instance: Option<Compensation>)
    ensures ValidateCompensation(CompensationData(inicio, Sent(None)), instance).Ok?
  {
  }

  /** A partial update that only moves `fin` is checked against the stored `inicio`. */
  lemma FinCheckedAgainstStoredStart(c: Compensation, fin: Date)
    ensures ValidateCompensation(CompensationData(Absent, Sent(Some(fin))), Some(c)).Err? <==> Before(fin, c.inicio)
  {
  }

  /** An accepted period never ends before it starts. */
  lemma AcceptedPeriodOrdered(inicio: Date, fin: Date, instance: Option<Compensation>)
    requires ValidateCompensation(CompensationData(Sent(Some(inicio)), Sent(Some(fin))), instance).Ok?
    ensures NotAfter(inicio, fin)
  {
    BeforeIsStrictOrder(inicio, fin, inicio);
  }

  /**
   * The writable fields of attachment data that the check reads. The model
   * field `categoria` is not nullable, so it is absent or a text; the month
   * may also be sent as null.
   */
  datatype AttachmentData = AttachmentData(categoria: Field<string>, periodoNomina: Field<Option<Date>>)

  const PayslipPeriodRequired := Validation("periodo_nomina: Obligatorio cuando categoria='nomina' (YYYY-MM-01).")

  /** `attrs.get(name) or getattr(instance, name, None)`: an absent or empty category falls back to the stored one. */
  function EffectiveCategory(data: AttachmentData, instance: Option<AttachmentRow>): Option<string>
  {
    if data.categoria.Sent? && data.categoria.value != [] then Some(data.categoria.value)
    else if instance.Some? then Some(instance.value.categoria)
    else None
  }

  /** The same for the month: an absent or null month falls back to the stored one. */
  function EffectivePeriod(data: AttachmentData, instance: Option<AttachmentRow>): Option<Date>
  {
    if data.periodoNomina.Sent? && data.periodoNomina.value.Some? then data.periodoNomina.value
    else if instance.Some? then instance.value.periodoNomina
    else None
  }

  /** `AttachmentSerializer.validate`: a payslip ("nomina") needs its month. */
  function ValidateAttachment(data: AttachmentData, instance: Option<AttachmentRow>): (r: Result<AttachmentData>)
    ensures r.Err? <==> EffectiveCategory(data, instance) == Some("nomina") && EffectivePeriod(data, instance).None?
    ensures r.Ok? ==> r.value == data
    ensures r.Err? ==> r.error == PayslipPeriodRequired
  {
    if EffectiveCategory(data, instance) == Some("nomina") && EffectivePeriod(data, instance).None? then
      Err(PayslipPeriodRequired)
    else Ok(data)
  }

  /** Any category but "nomina" passes without a period. */
  lemma OtherCategoryNeedsNoPeriod(cat: string, instance: Option<AttachmentRow>)
    requires cat != [] && cat != "nomina"
    ensures ValidateAttachment(AttachmentData(Sent(cat), Absent), instance).Ok?
  {
  }

  /**
   * The row an update saves: every sent value, null and empty ones included,
   * replaces the stored one, and the rest stays.
   */
  function Merged(data: AttachmentData, a: AttachmentRow): (r: AttachmentRow)
    ensures r.contact == a.contact
    ensures r.categoria == if data.categoria.Sent? then data.categoria.value else a.categoria
    ensures r.periodoNomina == if data.periodoNomina.Sent? then data.periodoNomina.value else a.periodoNomina
  {
    AttachmentRow(a.contact,
                  if data.categoria.Sent? then data.categoria.value else a.categoria,
                  if data.periodoNomina.Sent? then data.periodoNomina.value else a.periodoNomina)
  }

  /**
   * As written, an update that sends a null month for a stored payslip is
   * accepted (the check falls back to the stored month), and the saved row is
   * a payslip without a month, which the one-payslip-per-month constraint no
   * longer covers.
   */
  lemma NullPeriodUnkeysPayslip(a: AttachmentRow)
    requires a.categoria == "nomina" && a.periodoNomina.Some?
    ensures var data := AttachmentData(Absent, Sent(None));
            && ValidateAttachment(data, Some(a)).Ok?
            && Merged(data, a).categoria == "nomina"
            && PayslipKey(Merged(data, a)).None?
  {
  }

  /** The check applied to the row that is saved: a payslip without a month is refused. */
  function ValidateSavedAttachment(data: AttachmentData, a: AttachmentRow): (r: Result<AttachmentData>)
    ensures r.Err? <==> Merged(data, a).categoria == "nomina" && Merged(data, a).periodoNomina.None?
    ensures r.Ok? ==> r.value == data
    ensures r.Err? ==> r.error == PayslipPeriodRequired
  {
    var row := Merged(data, a);
    if row.categoria == "nomina" && row.periodoNomina.None? then Err(PayslipPeriodRequired) else Ok(data)
  }

  /** With the corrected check, every accepted update that leaves a payslip keeps it under the constraint. */
  lemma ValidatedPayslipIsKeyed(data: AttachmentData, a: AttachmentRow)
    requires ValidateSavedAttachment(data, a).Ok? && Merged(data, a).categoria == "nomina"
    ensures PayslipKey(Merged(data, a)).Some?
  {
  }

  /** When no empty category and no null month is sent, the two checks agree. */
  lemma SavedCheckAgrees(data: AttachmentData, a: AttachmentRow)
    requires data.categoria.Sent? ==> data.categoria.value != []
    requires data.periodoNomina.Sent? ==> data.periodoNomina.value.Some?
    ensures ValidateAttachment(data, Some(a)).Ok? <==> ValidateSavedAttachment(data, a).Ok?
  {
  }
}
