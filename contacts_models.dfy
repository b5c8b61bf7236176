// The contact records: contact types, the stored contact with its
// free-form columns, the display name, the storage paths of uploaded files,
// the conditional unique constraints and the range checks on numeric columns.

module ContactModels {
  import opened Common
  import opened Text
  import opened Money
  import opened Dates

  /** `ContactType`: client, employee or supplier. */
  datatype ContactType = Client | Employee | Supplier
  {
    function Code(): string
    {
      match this
        case Client => "client"
        case Employee => "employee"
        case Supplier => "supplier"
    }
  }

  function ParseContactType(code: string): (r: Option<ContactType>)
    ensures r.Some? ==> r.value.Code() == code
  {
    if code == "client" then Some(Client)
    else if code == "employee" then Some(Employee)
    else if code == "supplier" then Some(Supplier)
    else None
  }

  lemma ContactTypeRoundTrip(t: ContactType)
    ensures ParseContactType(t.Code()) == Some(t)
  {
  }

  // --- The stored contact ----------------------------------------------------

  /** The value held in one column of a contact: text, a flag, a tag list or SQL NULL. */
  datatype FieldValue = Text(text: string) | Flag(flag: bool) | Tags(tags: seq<string>) | Null

  /**
   * A `Contact` row. `fields` holds the columns that were written
   * explicitly; a column absent from it has its declared default.
   */
  datatype Contact = Contact(
    id: ContactId, org: OrgId, tipo: string, fields: map<string, FieldValue>,
    createdBy: UserId, updatedBy: UserId)

  /** A text column; blank text columns default to "". */
  function TextColumn(c: Contact, name: string): string
  {
    if name in c.fields && c.fields[name].Text? then c.fields[name].text else ""
  }

  function Email(c: Contact): string { TextColumn(c, "email") }
  function DocumentId(c: Contact): string { TextColumn(c, "documento_id") }

  /** `str(pk)`: an unsaved contact has no primary key and prints "None". */
  function PkText(pk: Option<ContactId>): string
  {
    match pk
      case None => "None"
      case Some(n) => NatToString(n)
  }

  /**
   * `Contact.__str__`: the razon social when it is not empty, else the full
   * name with surrounding whitespace removed, else "Contacto <pk>".
   */
  function ContactLabel(razonSocial: string, nombre: string, apellidos: string, pk: Option<ContactId>): (r: string)
    ensures r != []
    ensures razonSocial != [] ==> r == razonSocial
    ensures razonSocial == [] && Strip(nombre + " " + apellidos) != [] ==> r == Strip(nombre + " " + apellidos)
    ensures razonSocial == [] && Strip(nombre + " " + apellidos) == [] ==> r == "Contacto " + PkText(pk)
  {
    if razonSocial != [] then razonSocial
    else
      var full := Strip(nombre + " " + apellidos);
      if full != [] then full else "Contacto " + PkText(pk)
  }

  lemma {:induction false} NatToStringInjective(m: nat, n: nat)
    requires NatToString(m) == NatToString(n)
    ensures m == n
  {
    ParseIntToString(m);
    ParseIntToString(n);
    assert IntToString(m) == NatToString(m) && IntToString(n) == NatToString(n);
  }

  /** Two saved contacts without any name get different labels. */
  lemma FallbackLabelsDistinct(nombre: string, apellidos: string, p: ContactId, q: ContactId)
    requires Strip(nombre + " " + apellidos) == [] && p != q
    ensures ContactLabel([], nombre, apellidos, Some(p)) != ContactLabel([], nombre, apellidos, Some(q))
  {
    var a, b := ContactLabel([], nombre, apellidos, Some(p)), ContactLabel([], nombre, apellidos, Some(q));
    assert a == "Contacto " + NatToString(p) && b == "Contacto " + NatToString(q);
    if a == b {
      assert NatToString(p) == a[9..] == b[9..] == NatToString(q);
      NatToStringInjective(p, q);
    }
  }

  // --- Upload paths ------------------------------------------------------------

  /** Which `upload_to` builder stores a file. */
  datatype UploadKind = ContactAttachment | ClientDocument | SupplierDocument | SupplierCertificate

  function KindDir(k: UploadKind): string
  {
    match k
      case ContactAttachment => "contacts"
      case ClientDocument => "clients"
      case SupplierDocument | SupplierCertificate => "suppliers"
  }

  /** The directory under the owner's directory; attachments of a contact have none. */
  function SubDir(k: UploadKind): seq<string>
  {
    match k
      case ContactAttachment => []
      case ClientDocument | SupplierDocument => ["docs"]
      case SupplierCertificate => ["certs"]
  }

  /** `f"{dir}/{rest}"` */
  function Under(dir: string, rest: string): string
  {
    dir + "/" + rest
  }

  /** The stored file name `<uuid>__<basename>`, under the kind's sub-directory if it has one. */
  function LeafPath(k: UploadKind, uuid: string, filename: string): string
  {
    var name := uuid + "__" + Basename(filename);
    match k
      case ContactAttachment => name
      case ClientDocument | SupplierDocument => Under("docs", name)
      case SupplierCertificate => Under("certs", name)
  }

  /**
   * `attachment_upload_to`, `client_upload_to`, `supplier_upload_to` and
   * `supplier_cert_upload_to`. `org` is the text of the organization's UUID
   * and `uuid` the fresh `uuid4()` text; both are parameters.
   */
  function UploadPath(k: UploadKind, org: string, owner: ContactId, uuid: string, filename: string): string
  {
    Under("org", Under(org, Under(KindDir(k), Under(NatToString(owner), LeafPath(k, uuid, filename)))))
  }

  /** The path's "/"-separated segments. */
  function UploadSegments(k: UploadKind, org: string, owner: ContactId, uuid: string, filename: string): seq<string>
  {
    ["org", org, KindDir(k), NatToString(owner)] + SubDir(k) + [uuid + "__" + Basename(filename)]
  }

  /**
   * With slash-free UUID texts, the path is exactly
   * `org/<org>/<kind>/<owner>[/<subdir>]/<uuid>__<basename>`.
   */
  lemma UploadPathSegments(k: UploadKind, org: string, owner: ContactId, uuid: string, filename: string)
    requires '/' !in org && '/' !in uuid
    ensures Split(UploadPath(k, org, owner, uuid, filename), '/') == UploadSegments(k, org, owner, uuid, filename)
  {
    var id, leaf, file := NatToString(owner), LeafPath(k, uuid, filename), uuid + "__" + Basename(filename);
    NoSeparatorInName(owner);
    LeafSegments(k, uuid, filename);
    KindDirHasNoSlash(k);
    SplitFourDirs("org", org, KindDir(k), id, leaf);
    AppendAssoc(["org", org, KindDir(k), id], SubDir(k), [file]);
  }

  lemma KindDirHasNoSlash(k: UploadKind)
    ensures '/' !in "org"
    ensures '/' !in KindDir(k) && (k.ContactAttachment? || '/' !in SubDir(k)[0])
  {
    match k
      case ContactAttachment => assert KindDir(k) == "contacts";
      case ClientDocument => assert KindDir(k) == "clients";
      case SupplierDocument => assert KindDir(k) == "suppliers";
      case SupplierCertificate => assert KindDir(k) == "suppliers";
  }

  lemma LeafSegments(k: UploadKind, uuid: string, filename: string)
    requires '/' !in uuid
    ensures Split(LeafPath(k, uuid, filename), '/') == SubDir(k) + [uuid + "__" + Basename(filename)]
  {
    var file := uuid + "__" + Basename(filename);
    StoredNameHasNoSlash(uuid, filename);
    KindDirHasNoSlash(k);
    LeafSplit(SubDir(k), LeafPath(k, uuid, filename), file);
  }

  /** A slash-free file name, alone or under one slash-free directory, splits into those names. */
  lemma LeafSplit(dirs: seq<string>, path: string, file: string)
    requires '/' !in file
    requires (dirs == [] && path == file) || (|dirs| == 1 && '/' !in dirs[0] && path == Under(dirs[0], file))
    ensures Split(path, '/') == dirs + [file]
  {
    SplitNoSeparator(file, '/');
    if dirs != [] {
      SplitPiece(dirs[0], file);
      assert dirs == [dirs[0]];
    }
  }

  lemma StoredNameHasNoSlash(uuid: string, filename: string)
    requires '/' !in uuid
    ensures '/' !in uuid + "__" + Basename(filename)
  {
    var b := Basename(filename);
    assert "__" == ['_', '_'];
    forall i | 0 <= i < |uuid + "__" + b| ensures (uuid + "__" + b)[i] != '/' {
      if i < |uuid| {
        assert (uuid + "__" + b)[i] == uuid[i];
      } else if i >= |uuid| + 2 {
        assert (uuid + "__" + b)[i] == b[i - |uuid| - 2];
      }
    }
  }

  lemma SplitFourDirs(a: string, b: string, c: string, d: string, leaf: string)
    requires '/' !in a
    requires '/' !in b
    requires '/' !in c
    requires '/' !in d
    ensures Split(Under(a, Under(b, Under(c, Under(d, leaf)))), '/') == [a, b, c, d] + Split(leaf, '/')
  {
    SplitTwoDirs(c, d, leaf);
    SplitTwoDirs(a, b, Under(c, Under(d, leaf)));
    AppendAssoc([a, b], [c, d], Split(leaf, '/'));
    assert [a, b] + [c, d] == [a, b, c, d];
  }

  lemma SplitTwoDirs(c: string, d: string, leaf: string)
    requires '/' !in c && '/' !in d
    ensures Split(Under(c, Under(d, leaf)), '/') == [c, d] + Split(leaf, '/')
  {
    SplitPiece(d, leaf);
    SplitPiece(c, Under(d, leaf));
  }

  /** A slash-free directory name becomes one segment. */
  lemma SplitPiece(a: string, rest: string)
    requires '/' !in a
    ensures Split(Under(a, rest), '/') == [a] + Split(rest, '/')
  {
    SplitConcat(a, rest, '/');
    SplitNoSeparator(a, '/');
  }

  lemma NoSeparatorInName(n: nat)
    ensures '/' !in NatToString(n)
  {
    assert forall i :: 0 <= i < |NatToString(n)| ==> IsDigit(NatToString(n)[i]);
  }

  /** Any directory in the uploaded file's name is dropped from the stored path. */
  lemma UploadPathDropsDirectories(k: UploadKind, org: string, owner: ContactId, uuid: string, dir: string, name: string)
    ensures UploadPath(k, org, owner, uuid, dir + "/" + name) == UploadPath(k, org, owner, uuid, name)
  {
    BasenameAfterSlash(dir, name);
  }

  // --- Unique constraints --------------------------------------------------------

  /**
   * Rows are unique on a partial key: rows whose key is absent (the
   * constraint's condition is false, or a key column is NULL) never clash.
   */
  predicate UniqueOn<T, K(==)>(rows: seq<T>, key: T -> Option<K>)
  {
    forall i, j :: 0 <= i < j < |rows| && key(rows[i]).Some? ==> key(rows[i]) != key(rows[j])
  }

  function Clashes<T, K(==)>(rows: seq<T>, key: T -> Option<K>, x: T): (r: bool)
    ensures r <==> key(x).Some? && exists i :: 0 <= i < |rows| && key(rows[i]) == key(x)
  {
    key(x).Some? && exists i :: 0 <= i < |rows| && key(rows[i]) == key(x)
  }

  /** An INSERT under a unique constraint: the row is added, or the database raises `IntegrityError`. */
  function InsertUnique<T, K(==)>(rows: seq<T>, key: T -> Option<K>, x: T): (r: Result<seq<T>>)
    ensures r.Err? <==> Clashes(rows, key, x)
    ensures r.Err? ==> r.error.Integrity?
    ensures r.Ok? ==> r.value == rows + [x]
    ensures r.Ok? && UniqueOn(rows, key) ==> UniqueOn(r.value, key)
  {
    if Clashes(rows, key, x) then Err(Integrity("unique"))
    else
      assert forall i :: 0 <= i < |rows| ==> (rows + [x])[i] == rows[i];
      Ok(rows + [x])
  }

  /** The rows other than the one at index `j`, which an UPDATE of row `j` is checked against. */
  function Others<T>(rows: seq<T>, j: nat): (r: seq<T>)
    requires j < |rows|
    ensures |r| == |rows| - 1
    ensures forall i :: 0 <= i < j ==> r[i] == rows[i]
    ensures forall i :: j < i < |rows| ==> r[i - 1] == rows[i]
  {
    rows[..j] + rows[j + 1..]
  }

  lemma UniqueAppend<T, K>(rows: seq<T>, key: T -> Option<K>, x: T)
    requires UniqueOn(rows, key) && !Clashes(rows, key, x)
    ensures UniqueOn(rows + [x], key)
  {
    var r := InsertUnique(rows, key, x);
  }

  /** An UPDATE that clashes with no other row keeps the table unique. */
  lemma UniqueReplace<T, K>(rows: seq<T>, key: T -> Option<K>, j: nat, x: T)
    requires j < |rows| && UniqueOn(rows, key) && !Clashes(Others(rows, j), key, x)
    ensures UniqueOn(rows[j := x], key)
  {
    var o, n := Others(rows, j), rows[j := x];
    forall a, b | 0 <= a < b < |n| && key(n[a]).Some?
      ensures key(n[a]) != key(n[b])
    {
      if a == j {
        assert n[b] == o[b - 1];
      } else if b == j {
        assert n[a] == o[a];
      }
    }
  }

  /** `uq_contact_email_nonempty`: (org, tipo, email) among contacts with an email. */
  function EmailKey(c: Contact): Option<(OrgId, string, string)>
  {
    if Email(c) != [] then Some((c.org, c.tipo, Email(c))) else None
  }

  /** `uq_contact_docid_nonempty`: (org, documento_id) among contacts with a document id. */
  function DocumentKey(c: Contact): Option<(OrgId, string)>
  {
    if DocumentId(c) != [] then Some((c.org, DocumentId(c))) else None
  }

  predicate ContactsUnique(cs: seq<Contact>)
  {
    UniqueOn(cs, EmailKey) && UniqueOn(cs, DocumentKey)
  }

  /** Contacts without email or document id never clash, however many there are. */
  lemma BlankContactsNeverClash(cs: seq<Contact>)
    requires forall i :: 0 <= i < |cs| ==> Email(cs[i]) == [] && DocumentId(cs[i]) == []
    ensures ContactsUnique(cs)
  {
    assert forall i :: 0 <= i < |cs| ==> EmailKey(cs[i]).None? && DocumentKey(cs[i]).None?;
  }

  /** The same email may be used by a client and a supplier of one organization. */
  lemma EmailSharedAcrossTypes(a: Contact, b: Contact)
    requires a.org == b.org && Email(a) == Email(b) && a.tipo != b.tipo
    requires DocumentId(a) == [] && DocumentId(b) == []
    ensures ContactsUnique([a, b])
  {
  }

  /** An `Attachment` row, reduced to what its constraint reads. */
  datatype AttachmentRow = AttachmentRow(contact: ContactId, categoria: string, periodoNomina: Option<Date>)

  /**
   * `unique_payslip_per_month`: (contact, categoria, periodo_nomina) among
   * attachments of category "nomina". A NULL period never equals another.
   */
  function PayslipKey(a: AttachmentRow): Option<(ContactId, Date)>
  {
    if a.categoria == "nomina" && a.periodoNomina.Some? then Some((a.contact, a.periodoNomina.value)) else None
  }

  /** A second payslip of one contact for one month is refused. */
  lemma SecondPayslipRefused(rows: seq<AttachmentRow>, c: ContactId, month: Date)
    requires AttachmentRow(c, "nomina", Some(month)) in rows
    ensures InsertUnique(rows, PayslipKey, AttachmentRow(c, "nomina", Some(month))).Err?
  {
    var i :| 0 <= i < |rows| && rows[i] == AttachmentRow(c, "nomina", Some(month));
    assert PayslipKey(rows[i]) == Some((c, month));
  }

  /** Other categories may repeat a period freely. */
  lemma OtherCategoriesUnconstrained(rows: seq<AttachmentRow>, a: AttachmentRow)
    requires a.categoria != "nomina"
    ensures InsertUnique(rows, PayslipKey, a) == Ok(rows + [a])
  {
  }

  /** `EmployeeHours`: unique per (contact, fecha, referencia). */
  datatype HoursRow = HoursRow(contact: ContactId, fecha: Date, referencia: string, horasTotales: Hundredths)

  function HoursKey(h: HoursRow): Option<(ContactId, Date, string)>
  {
    Some((h.contact, h.fecha, h.referencia))
  }

  /** `LocationRevenue`: unique per (location, periodo). */
  datatype RevenueRow = RevenueRow(location: nat, periodo: Date, ingresos: Cents)

  function RevenueKey(r: RevenueRow): Option<(nat, Date)>
  {
    Some((r.location, r.periodo))
  }

  /** Under a total key, uniqueness means no two rows share the key columns. */
  lemma HoursUniqueMeansNoRepeat(rows: seq<HoursRow>, i: nat, j: nat)
    requires UniqueOn(rows, HoursKey) && i < j < |rows|
    ensures (rows[i].contact, rows[i].fecha, rows[i].referencia) != (rows[j].contact, rows[j].fecha, rows[j].referencia)
  {
    assert HoursKey(rows[i]).Some?;
  }

  lemma RevenueUniqueMeansNoRepeat(rows: seq<RevenueRow>, i: nat, j: nat)
    requires UniqueOn(rows, RevenueKey) && i < j < |rows|
    ensures (rows[i].location, rows[i].periodo) != (rows[j].location, rows[j].periodo)
  {
    assert RevenueKey(rows[i]).Some?;
  }

  // --- Range validators ------------------------------------------------------------

  /** `MinValueValidator(lo)` followed by `MaxValueValidator(hi)`. */
  function ValidateRange(v: int, lo: int, hi: int): (r: Outcome)
    ensures r.Done? <==> lo <= v <= hi
    ensures r.Fail? ==> r.error.Validation?
  {
    if v < lo then Fail(Validation("Ensure this value is greater than or equal to " + IntToString(lo) + "."))
    else if v > hi then Fail(Validation("Ensure this value is less than or equal to " + IntToString(hi) + "."))
    else Done
  }

  /** `retencion` in hundredths: 0 to 100 percent, default 0. */
  const RetencionDefault: Hundredths := 0
  function ValidateRetencion(v: Hundredths): (r: Outcome)
    ensures r.Done? <==> 0 <= v <= 10000
  {
    ValidateRange(v, 0, 10000)
  }

  /** `ClientProfile.rating` and `SupplierProfile.calidad_rating`: 1 to 5, default 3. */
  const RatingDefault := 3
  function ValidateRating(v: int): (r: Outcome)
    ensures r.Done? <==> 1 <= v <= 5
  {
    ValidateRange(v, 1, 5)
  }

  /** The declared defaults pass their own validators. */
  lemma DefaultsValid()
    ensures ValidateRetencion(RetencionDefault) == Done
    ensures ValidateRating(RatingDefault) == Done
  {
  }

  /**
   * `EmployeeCompensation`: one pay period of an employee, from `inicio` to
   * `fin` inclusive; a null `fin` is still in force.
   */
  datatype Compensation = Compensation(
    contact: ContactId, inicio: Date, fin: Option<Date>,
    salarioAnual: Cents, costePct: Hundredths, plusMensual: Cents, tarifaHora: Option<Cents>)

  /** The declared defaults of `coste_empresa_pct` (30.00) and `plus_mensual` (0). */
  const CostePctDefault: Hundredths := 3000
  const PlusMensualDefault: Cents := 0
}
