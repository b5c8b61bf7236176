// The CSV contact import job: every data row is normalised, given a contact
// type, matched against the organization's contacts by document id and then
// by email, and either creates a contact or updates the match. A failing row
// is recorded with its line number and changes nothing. Reading the file is
// not modelled: the job receives the rows.

module ContactImport {
  import opened Common
  import opened Text
  import opened ContactModels

  /** `CSV_COLUMNS`: the columns the import accepts. */
  const CsvColumns: seq<string> := [
    "tipo", "es_persona", "nombre", "apellidos", "razon_social", "nombre_comercial",
    "email", "telefono", "movil", "web", "documento_id",
    "condiciones_pago", "iban", "moneda_preferida", "retencion",
    "marketing_opt_in", "rgpd_aceptado", "rgpd_version_texto",
    "etiquetas", "segmento", "origen", "vendedor_responsable",
    "notas", "activo", "bloqueado", "motivo_bloqueo"]

  /** The columns converted with `_norm_bool`. */
  const BoolColumns: seq<string> := ["es_persona", "marketing_opt_in", "rgpd_aceptado", "activo", "bloqueado"]

  /** The words `_norm_bool` reads as true. */
  const TrueWords: seq<string> := ["1", "true", "t", "yes", "y", "si", "sí"]

  /** `v or ""` */
  function OrEmpty(v: Option<string>): string
  {
    if v.Some? then v.value else ""
  }

  /** `_norm_bool`: a missing value is false; otherwise one of `TrueWords`, ignoring case and surrounding whitespace. */
  function NormBool(v: Option<string>): (r: bool)
    ensures r ==> v.Some? && Strip(v.value) != []
  {
    Lower(Strip(OrEmpty(v))) in TrueWords
  }

  /** `_norm_bool` does not depend on letter case. */
  lemma NormBoolIgnoresCase(s: string)
    ensures NormBool(Some(Upper(s))) == NormBool(Some(s))
  {
    StripUpper(s);
    LowerUpper(Strip(s));
  }

  /** A missing or blank value is false. */
  lemma NormBoolBlank(s: string)
    requires forall k :: 0 <= k < |s| ==> IsSpace(s[k])
    ensures !NormBool(None) && !NormBool(Some(s))
  {
  }

  // --- Row normalisation ------------------------------------------------------------

  /** The items of one `csv.DictReader` row: header and value, `None` for a missing value. */
  type RawRow = seq<(string, Option<string>)>

  function StripValue(v: Option<string>): Option<string>
  {
    if v.Some? then Some(Strip(v.value)) else None
  }

  /**
   * `{k.lower(): v.strip() ...  for k, v in row.items() if k}`: keys are
   * lower-cased, an empty header is dropped, and a later key wins.
   */
  function NormalizeRow(row: RawRow): map<string, Option<string>>
  {
    if row == [] then map[]
    else
      var d := NormalizeRow(row[..|row| - 1]);
      var last := row[|row| - 1];
      if last.0 == [] then d else d[Lower(last.0) := StripValue(last.1)]
  }

  /** The normalised keys are the lower-cased non-empty headers. */
  lemma {:induction false} NormalizeRowKeys(row: RawRow)
    ensures forall k :: k in NormalizeRow(row) <==> exists i :: 0 <= i < |row| && row[i].0 != [] && Lower(row[i].0) == k
  {
    if row != [] {
      var init := row[..|row| - 1];
      NormalizeRowKeys(init);
      assert forall i :: 0 <= i < |init| ==> init[i] == row[i];
      forall k | k in NormalizeRow(row)
        ensures exists i :: 0 <= i < |row| && row[i].0 != [] && Lower(row[i].0) == k
      {
        if k !in NormalizeRow(init) {
          assert Lower(row[|row| - 1].0) == k;
        }
      }
    }
  }

  /** A key's value comes from the last item with that key, stripped. */
  lemma {:induction false} NormalizeRowLastWins(row: RawRow, i: nat)
    requires i < |row| && row[i].0 != []
    requires forall j :: i < j < |row| && row[j].0 != [] ==> Lower(row[j].0) != Lower(row[i].0)
    ensures Lower(row[i].0) in NormalizeRow(row)
    ensures NormalizeRow(row)[Lower(row[i].0)] == StripValue(row[i].1)
    decreases |row|
  {
    if i < |row| - 1 {
      var init := row[..|row| - 1];
      assert init[i] == row[i];
      forall j | i < j < |init| && init[j].0 != []
        ensures Lower(init[j].0) != Lower(init[i].0)
      {
        assert init[j] == row[j];
      }
      NormalizeRowLastWins(init, i);
    }
  }

  /** `data.get(key) or ""` */
  function Get(data: map<string, Option<string>>, key: string): string
  {
    if key in data then OrEmpty(data[key]) else ""
  }

  /** `(data.get("tipo") or default_tipo or "").strip().lower()` */
  function TipoOf(data: map<string, Option<string>>, defaultTipo: Option<string>): string
  {
    var given := Get(data, "tipo");
    Lower(Strip(if given != [] then given else OrEmpty(defaultTipo)))
  }

  /** A row's own type wins over the default type: the default is read only when the row's is blank. */
  lemma TipoFromRowFirst(data: map<string, Option<string>>, defaultTipo: Option<string>, t: string)
    requires "tipo" in data && data["tipo"] == Some(t) && t != []
    ensures TipoOf(data, defaultTipo) == Lower(Strip(t))
  {
  }

  // --- Payload ---------------------------------------------------------------------

  /** A non-empty text with no whitespace at either end, as `strip` leaves it. */
  predicate Stripped(t: string)
  {
    t != [] && !IsSpace(t[0]) && !IsSpace(t[|t| - 1])
  }

  /** `e.strip()` for every piece, dropping the empty ones. */
  function StripAll(parts: seq<string>): (r: seq<string>)
    ensures forall k :: 0 <= k < |r| ==> Stripped(r[k])
  {
    if parts == [] then []
    else
      var t := Strip(parts[0]);
      (if t != [] then [t] else []) + StripAll(parts[1..])
  }

  /** The tag list `[e.strip() for e in s.split(",") if e.strip()]`. */
  function SplitTags(s: string): (r: seq<string>)
    ensures forall k :: 0 <= k < |r| ==> r[k] != [] && ',' !in r[k]
  {
    var r := StripAll(Split(s, ','));
    assert forall k :: 0 <= k < |r| ==> ',' !in r[k] by {
      StripAllFrom(Split(s, ','), ',');
    }
    r
  }

  lemma {:induction false} StripAllFrom(parts: seq<string>, c: char)
    requires forall k :: 0 <= k < |parts| ==> c !in parts[k]
    ensures forall k :: 0 <= k < |StripAll(parts)| ==> c !in StripAll(parts)[k]
  {
    if parts != [] {
      StripAllFrom(parts[1..], c);
      StripInside(parts[0]);
    }
  }

  lemma StripInside(s: string)
    ensures forall c :: c in Strip(s) ==> c in s
  {
    var l := StripLeft(s);
    assert forall c :: c in StripRight(l) ==> c in l;
  }

  /** Tags that are non-empty, comma-free and stripped come back out of their comma-joined text. */
  lemma TagsRoundTrip(tags: seq<string>)
    requires forall k :: 0 <= k < |tags| ==> Stripped(tags[k]) && ',' !in tags[k]
    ensures SplitTags(Join(tags, ',')) == tags
  {
    if tags == [] {
      assert Split([], ',') == [[]];
    } else {
      SplitJoin(tags, ',');
      StripAllFixed(tags);
    }
  }

  lemma {:induction false} StripAllFixed(parts: seq<string>)
    requires forall k :: 0 <= k < |parts| ==> Stripped(parts[k])
    ensures StripAll(parts) == parts
  {
    if parts != [] {
      assert Stripped(parts[0]);
      StripFixed(parts[0]);
      assert forall k :: 0 <= k < |parts| - 1 ==> parts[1..][k] == parts[k + 1];
      StripAllFixed(parts[1..]);
      assert StripAll(parts) == [parts[0]] + StripAll(parts[1..]);
      HeadTail(parts);
    }
  }

  /** A column value as first copied: the text, or SQL NULL for a missing value. */
  function Raw(v: Option<string>): FieldValue
  {
    if v.Some? then Text(v.value) else Null
  }

  /** The value a payload column ends with once booleans and tags are converted. */
  function ColumnValue(c: string, v: Option<string>): FieldValue
  {
    if c in BoolColumns then Flag(NormBool(v))
    else if c == "etiquetas" && OrEmpty(v) != [] then Tags(SplitTags(OrEmpty(v)))
    else Raw(v)
  }

  /** The text a copied value holds; a converted value no longer matters here. */
  function AsText(f: FieldValue): Option<string>
  {
    if f.Text? then Some(f.text) else None
  }

  /** The first pass: every column of `cols` but "tipo" that the row has, copied. */
  function CopyColumns(data: map<string, Option<string>>, cols: seq<string>): map<string, FieldValue>
  {
    if cols == [] then map[]
    else
      var p := CopyColumns(data, cols[..|cols| - 1]);
      var c := cols[|cols| - 1];
      if c != "tipo" && c in data then p[c := Raw(data[c])] else p
  }

  /** The second pass: the columns of `bs` that the payload has, read as booleans. */
  function ConvertBools(p: map<string, FieldValue>, bs: seq<string>): map<string, FieldValue>
  {
    if bs == [] then p
    else
      var q := ConvertBools(p, bs[..|bs| - 1]);
      var b := bs[|bs| - 1];
      if b in q then q[b := Flag(NormBool(AsText(q[b])))] else q
  }

  /** The third pass: a non-empty "etiquetas" text becomes its tag list. */
  function SplitTagColumn(p: map<string, FieldValue>): map<string, FieldValue>
  {
    if "etiquetas" in p && p["etiquetas"].Text? && p["etiquetas"].text != [] then
      p["etiquetas" := Tags(SplitTags(p["etiquetas"].text))]
    else p
  }

  /** The payload a row is saved with. */
  function Payload(data: map<string, Option<string>>): map<string, FieldValue>
  {
    SplitTagColumn(ConvertBools(CopyColumns(data, CsvColumns), BoolColumns))
  }

  lemma {:induction false} CopyColumnsHolds(data: map<string, Option<string>>, cols: seq<string>)
    ensures forall c :: c in CopyColumns(data, cols) <==> c in data && c in cols && c != "tipo"
    ensures forall c :: c in CopyColumns(data, cols) ==> CopyColumns(data, cols)[c] == Raw(data[c])
  {
    if cols != [] {
      CopyColumnsHolds(data, cols[..|cols| - 1]);
      assert cols == cols[..|cols| - 1] + [cols[|cols| - 1]];
    }
  }

  lemma {:induction false} ConvertBoolsHolds(p: map<string, FieldValue>, bs: seq<string>)
    requires forall k, l :: 0 <= k < l < |bs| ==> bs[k] != bs[l]
    ensures ConvertBools(p, bs).Keys == p.Keys
    ensures forall c :: c in p ==> ConvertBools(p, bs)[c] == if c in bs then Flag(NormBool(AsText(p[c]))) else p[c]
  {
    if bs != [] {
      var init, b := bs[..|bs| - 1], bs[|bs| - 1];
      forall k, l | 0 <= k < l < |init|
        ensures init[k] != init[l]
      {
        assert init[k] == bs[k] && init[l] == bs[l];
      }
      ConvertBoolsHolds(p, init);
      forall k | 0 <= k < |init|
        ensures init[k] != b
      {
        assert init[k] == bs[k];
      }
      forall c | c in p
        ensures ConvertBools(p, bs)[c] == if c in bs then Flag(NormBool(AsText(p[c]))) else p[c]
      {
        var q := ConvertBools(p, init);
        assert bs == init + [b];
        assert c in bs <==> c in init || c == b;
        if c == b {
          assert q[b] == p[b];
          assert ConvertBools(p, bs)[c] == Flag(NormBool(AsText(q[b])));
        } else {
          assert ConvertBools(p, bs)[c] == q[c];
        }
      }
    }
  }

  /** No column is listed twice among the booleans, and the tag column is not one of them. */
  lemma BoolColumnsDistinct()
    ensures forall k, l :: 0 <= k < l < |BoolColumns| ==> BoolColumns[k] != BoolColumns[l]
    ensures "etiquetas" !in BoolColumns
  {
  }

  /**
   * The payload holds exactly the accepted columns but "tipo" that the row
   * has; booleans are read with `_norm_bool`, a non-empty tag text is split,
   * and every other column keeps its text, or NULL.
   */
  lemma PayloadColumns(data: map<string, Option<string>>)
    ensures forall c :: c in Payload(data) <==> c in data && c in CsvColumns && c != "tipo"
    ensures forall c :: c in Payload(data) ==> Payload(data)[c] == ColumnValue(c, data[c])
  {
    BoolColumnsDistinct();
    PassesOf(data, CsvColumns, BoolColumns);
  }

  /** The three passes over any column lists, the booleans distinct and not the tag column. */
  lemma PassesOf(data: map<string, Option<string>>, cols: seq<string>, bs: seq<string>)
    requires forall k, l :: 0 <= k < l < |bs| ==> bs[k] != bs[l]
    requires "etiquetas" !in bs
    ensures var p := SplitTagColumn(ConvertBools(CopyColumns(data, cols), bs));
      forall c :: c in p <==> c in data && c in cols && c != "tipo"
    ensures var p := SplitTagColumn(ConvertBools(CopyColumns(data, cols), bs));
      forall c :: c in p ==>
        p[c] == (if c in bs then Flag(NormBool(data[c]))
                 else if c == "etiquetas" && OrEmpty(data[c]) != [] then Tags(SplitTags(OrEmpty(data[c])))
                 else Raw(data[c]))
  {
    var copied := CopyColumns(data, cols);
    CopyColumnsHolds(data, cols);
    ConvertBoolsHolds(copied, bs);
    var conv := ConvertBools(copied, bs);
    var p := SplitTagColumn(conv);
    forall c | c in p
      ensures p[c] ==
        if c in bs then Flag(NormBool(data[c]))
        else if c == "etiquetas" && OrEmpty(data[c]) != [] then Tags(SplitTags(OrEmpty(data[c])))
        else Raw(data[c])
    {
      assert c in copied && copied[c] == Raw(data[c]);
      assert AsText(Raw(data[c])) == data[c];
      if c in bs {
        assert c != "etiquetas";
        assert conv[c] == Flag(NormBool(data[c]));
      } else {
        assert conv[c] == Raw(data[c]);
      }
    }
  }

  /** The three passes that build `payload`: copy the columns, convert booleans, split tags. */
  method BuildPayload(data: map<string, Option<string>>) returns (payload: map<string, FieldValue>)
    ensures payload == Payload(data)
  {
    payload := CopyPass(data, CsvColumns);
    payload := BoolPass(payload, BoolColumns);
    if "etiquetas" in payload && payload["etiquetas"].Text? && payload["etiquetas"].text != [] {
      payload := payload["etiquetas" := Tags(SplitTags(payload["etiquetas"].text))];
    }
  }

  /** The loop over the accepted columns. */
  method CopyPass(data: map<string, Option<string>>, cols: seq<string>) returns (payload: map<string, FieldValue>)
    ensures payload == CopyColumns(data, cols)
  {
    payload := map[];
    for i := 0 to |cols|
      invariant payload == CopyColumns(data, cols[..i])
    {
      var c := cols[i];
      assert cols[..i + 1][..i] == cols[..i];
      if c != "tipo" && c in data {
        payload := payload[c := Raw(data[c])];
      }
    }
    assert cols[..|cols|] == cols;
  }

  /** The loop over the boolean columns. */
  method BoolPass(p: map<string, FieldValue>, bs: seq<string>) returns (payload: map<string, FieldValue>)
    ensures payload == ConvertBools(p, bs)
  {
    payload := p;
    for j := 0 to |bs|
      invariant payload == ConvertBools(p, bs[..j])
    {
      var b := bs[j];
      ConvertBoolsSnoc(p, bs, j);
      if b in payload {
        payload := payload[b := Flag(NormBool(AsText(payload[b])))];
      }
    }
    assert bs[..|bs|] == bs;
  }

  lemma ConvertBoolsSnoc(p: map<string, FieldValue>, bs: seq<string>, j: nat)
    requires j < |bs|
    ensures var q := ConvertBools(p, bs[..j]);
      ConvertBools(p, bs[..j + 1]) == if bs[j] in q then q[bs[j] := Flag(NormBool(AsText(q[bs[j]])))] else q
  {
    assert bs[..j + 1][..j] == bs[..j];
  }

  // --- Matching and saving --------------------------------------------------------------

  /** The filter `org_id=org, <column>=value`. */
  predicate Matches(c: Contact, org: OrgId, column: string, value: string)
  {
    c.org == org && TextColumn(c, column) == value
  }

  /** `Contact.objects.filter(org_id=org, <column>=value).first()`: the lowest-id match. */
  function FirstMatch(cs: seq<Contact>, org: OrgId, column: string, value: string): (r: Option<nat>)
    ensures r.None? <==> forall i :: 0 <= i < |cs| ==> !Matches(cs[i], org, column, value)
    ensures r.Some? ==> r.value < |cs| && Matches(cs[r.value], org, column, value)
    ensures r.Some? ==> forall i :: 0 <= i < r.value ==> !Matches(cs[i], org, column, value)
  {
    if cs == [] then None
    else if Matches(cs[0], org, column, value) then Some(0)
    else match FirstMatch(cs[1..], org, column, value)
      case None => None
      case Some(i) => Some(i + 1)
  }

  /** The existing contact a row updates: by document id if it has one, else (or if none matches) by email. */
  function FindExisting(cs: seq<Contact>, org: OrgId, docid: string, email: string): (r: Option<nat>)
    ensures r.Some? ==> r.value < |cs| && cs[r.value].org == org
  {
    var byDoc := if docid != [] then FirstMatch(cs, org, "documento_id", docid) else None;
    if byDoc.None? && email != [] then FirstMatch(cs, org, "email", email) else byDoc
  }

  /** A document id that is on file always decides the match, whatever the email says. */
  lemma MatchPrefersDocument(cs: seq<Contact>, org: OrgId, docid: string, email: string, k: nat)
    requires docid != [] && k < |cs| && cs[k].org == org && DocumentId(cs[k]) == docid
    ensures FindExisting(cs, org, docid, email).Some?
    ensures DocumentId(cs[FindExisting(cs, org, docid, email).value]) == docid
  {
  }

  /** Without a document id or an email, a row always creates a new contact. */
  lemma NoKeysNoMatch(cs: seq<Contact>, org: OrgId)
    ensures FindExisting(cs, org, [], []).None?
  {
  }

  /** A change one row makes: a new contact, or the contact at an index rewritten. */
  datatype RowChange = Created(contact: Contact) | Updated(index: nat, contact: Contact)

  const TipoError := ValueError("Columna 'tipo' inválida o vacía (usa client|employee|supplier)")
  const UserFieldError := ValueError("Contact.vendedor_responsable must be a User instance")
  const NullError := Integrity("not null")
  const UniqueError := Integrity("unique")

  /** A payload column other than the nullable `vendedor_responsable` set to NULL. */
  predicate HasNull(payload: map<string, FieldValue>)
  {
    exists c :: c in payload && c != "vendedor_responsable" && payload[c].Null?
  }

  /** Whether saving `c` beside `others` breaks one of the two unique constraints. */
  predicate BreaksUnique(others: seq<Contact>, c: Contact)
  {
    Clashes(others, EmailKey, c) || Clashes(others, DocumentKey, c)
  }

  /**
   * The `transaction.atomic()` block: a text for the `vendedor_responsable`
   * foreign key is refused before anything is written, then the INSERT or
   * UPDATE is checked against the NOT NULL columns and the unique constraints.
   */
  function SaveRow(cs: seq<Contact>, nextId: ContactId, org: OrgId, user: UserId, tipo: string,
                   existing: Option<nat>, payload: map<string, FieldValue>): (r: Result<RowChange>)
    requires existing.Some? ==> existing.value < |cs|
    ensures r.Ok? && r.value.Created? ==> existing.None? && r.value.contact == Contact(nextId, org, tipo, payload, user, user)
    ensures r.Ok? && r.value.Updated? ==> existing == Some(r.value.index)
    ensures r.Ok? && r.value.Updated? ==> r.value.contact == cs[r.value.index].(tipo := tipo, fields := cs[r.value.index].fields + payload, updatedBy := user)
    ensures (existing.None? || cs[existing.value].org == org) ==> Fits(cs, nextId, org, r)
    ensures "vendedor_responsable" in payload && !payload["vendedor_responsable"].Null? ==> r == Err(UserFieldError)
    ensures r.Ok? ==> r.value.contact.tipo == tipo
    ensures r.Ok? ==> !HasNull(payload) && ("vendedor_responsable" in payload ==> payload["vendedor_responsable"].Null?)
  {
    if "vendedor_responsable" in payload && !payload["vendedor_responsable"].Null? then Err(UserFieldError)
    else if HasNull(payload) then Err(NullError)
    else match existing
      case None =>
        var c := Contact(nextId, org, tipo, payload, user, user);
        if BreaksUnique(cs, c) then Err(UniqueError) else Ok(Created(c))
      case Some(j) =>
        var c := cs[j].(tipo := tipo, fields := cs[j].fields + payload, updatedBy := user);
        if BreaksUnique(Others(cs, j), c) then Err(UniqueError) else Ok(Updated(j, c))
  }

  /**
   * What a saved change keeps: it belongs to the organization, a new contact
   * takes the next id, an update keeps the id of the contact it rewrites,
   * and neither clashes with the other contacts on a unique constraint.
   */
  predicate Fits(cs: seq<Contact>, nextId: ContactId, org: OrgId, r: Result<RowChange>)
  {
    r.Ok? ==> r.value.contact.org == org && match r.value
      case Created(c) => c.id == nextId && !BreaksUnique(cs, c)
      case Updated(j, c) => j < |cs| && cs[j].org == org && c.id == cs[j].id && !BreaksUnique(Others(cs, j), c)
  }

  /** The body of the loop for one row, from normalisation to the saved change. */
  function ImportRow(cs: seq<Contact>, nextId: ContactId, org: OrgId, user: UserId,
                     defaultTipo: Option<string>, row: RawRow): (r: Result<RowChange>)
    ensures Fits(cs, nextId, org, r)
    ensures r.Ok? ==> ParseContactType(r.value.contact.tipo).Some?
  {
    var data := NormalizeRow(row);
    var tipo := TipoOf(data, defaultTipo);
    if ParseContactType(tipo).None? then Err(TipoError)
    else
      var existing := FindExisting(cs, org, Get(data, "documento_id"), Get(data, "email"));
      SaveRow(cs, nextId, org, user, tipo, existing, Payload(data))
  }

  /** A row whose type is missing or unknown fails with the type error, whatever else it holds. */
  lemma BadTipoRejected(cs: seq<Contact>, nextId: ContactId, org: OrgId, user: UserId,
                        defaultTipo: Option<string>, row: RawRow)
    requires ParseContactType(TipoOf(NormalizeRow(row), defaultTipo)).None?
    ensures ImportRow(cs, nextId, org, user, defaultTipo, row) == Err(TipoError)
  {
  }

  // --- The whole job -----------------------------------------------------------------------

  /** `{"row": i, "error": str(e)}` */
  datatype RowError = RowError(row: nat, error: Error)

  /** The contacts table and the job's counters part-way through the file. */
  datatype ImportState = ImportState(
    contacts: seq<Contact>, nextId: ContactId, created: nat, updated: nat, errors: seq<RowError>)

  /**
   * The work done for one row, given the table as it stands and the next id.
   * The loop below depends on nothing else about it.
   */
  type RowJob = (seq<Contact>, ContactId, RawRow) -> Result<RowChange>

  /** The job's own row work. */
  function JobFor(org: OrgId, user: UserId, defaultTipo: Option<string>): RowJob
  {
    (cs: seq<Contact>, nextId: ContactId, row: RawRow) => ImportRow(cs, nextId, org, user, defaultTipo, row)
  }

  /** Every change the row work can produce fits the table it was computed on. */
  ghost predicate AlwaysFits(job: RowJob, org: OrgId)
  {
    forall cs, nextId, row :: Fits(cs, nextId, org, job(cs, nextId, row))
  }

  lemma JobForFits(org: OrgId, user: UserId, defaultTipo: Option<string>)
    ensures AlwaysFits(JobFor(org, user, defaultTipo), org)
  {
    forall cs, nextId, row
      ensures Fits(cs, nextId, org, JobFor(org, user, defaultTipo)(cs, nextId, row))
    {
      var r := ImportRow(cs, nextId, org, user, defaultTipo, row);
    }
  }

  /**
   * The counters and the table after one row's outcome, the row being line
   * `line` of the file. An update names a contact of the table; an index
   * outside it, which `Fits` rules out, changes no contact.
   */
  function Apply(st: ImportState, line: nat, r: Result<RowChange>): ImportState
  {
    match r
      case Err(e) => st.(errors := st.errors + [RowError(line, e)])
      case Ok(Created(c)) => st.(contacts := st.contacts + [c], nextId := st.nextId + 1, created := st.created + 1)
      case Ok(Updated(j, c)) =>
        st.(contacts := if j < |st.contacts| then st.contacts[j := c] else st.contacts, updated := st.updated + 1)
  }

  /** The rows in order, the first data row being line 2. */
  function Run(st: ImportState, job: RowJob, rows: seq<RawRow>): ImportState
  {
    if rows == [] then st
    else
      var prev := Run(st, job, rows[..|rows| - 1]);
      Apply(prev, |rows| + 1, job(prev.contacts, prev.nextId, rows[|rows| - 1]))
  }

  /** Every row is counted exactly once: as created, as updated or as an error. */
  lemma {:induction false} RunCounts(st: ImportState, job: RowJob, rows: seq<RawRow>)
    ensures var fin := Run(st, job, rows);
      fin.created + fin.updated + |fin.errors| == st.created + st.updated + |st.errors| + |rows| &&
      |fin.contacts| == |st.contacts| + fin.created - st.created
  {
    if rows != [] {
      RunCounts(st, job, rows[..|rows| - 1]);
    }
  }

  /** Line numbers that grow strictly and lie between 2 and `last`. */
  predicate LinesAscending(e: seq<RowError>, last: nat)
  {
    (forall k :: 0 <= k < |e| ==> 2 <= e[k].row <= last) &&
    (forall k, l :: 0 <= k < l < |e| ==> e[k].row < e[l].row)
  }

  /** Error line numbers grow strictly and lie between 2 and the last data line. */
  lemma {:induction false} RunErrorLines(st: ImportState, job: RowJob, rows: seq<RawRow>)
    requires st.errors == []
    ensures LinesAscending(Run(st, job, rows).errors, |rows| + 1)
  {
    if rows != [] {
      var prev := Run(st, job, rows[..|rows| - 1]);
      RunErrorLines(st, job, rows[..|rows| - 1]);
      var r := job(prev.contacts, prev.nextId, rows[|rows| - 1]);
      var e := Apply(prev, |rows| + 1, r).errors;
      if r.Ok? {
        assert e == prev.errors;
      } else {
        assert e == prev.errors + [RowError(|rows| + 1, r.error)];
        forall k, l | 0 <= k < l < |e|
          ensures e[k].row < e[l].row
        {
          assert e[k] == prev.errors[k];
          if l < |prev.errors| {
            assert e[l] == prev.errors[l];
          }
        }
        forall k | 0 <= k < |e|
          ensures 2 <= e[k].row <= |rows| + 1
        {
          if k < |prev.errors| {
            assert e[k] == prev.errors[k];
          }
        }
      }
    }
  }

  /** The table invariant: both unique constraints, and ids ascending and below the next id. */
  predicate TableValid(cs: seq<Contact>, nextId: ContactId)
  {
    ContactsUnique(cs) &&
    (forall i, j :: 0 <= i < j < |cs| ==> cs[i].id < cs[j].id) &&
    (forall i :: 0 <= i < |cs| ==> cs[i].id < nextId)
  }

  /** A change that fits the table keeps it valid. */
  lemma ApplyValid(st: ImportState, org: OrgId, line: nat, r: Result<RowChange>)
    requires TableValid(st.contacts, st.nextId) && Fits(st.contacts, st.nextId, org, r)
    ensures var n := Apply(st, line, r); TableValid(n.contacts, n.nextId)
  {
    match r
      case Err(_) =>
      case Ok(Created(c)) =>
        UniqueAppend(st.contacts, EmailKey, c);
        UniqueAppend(st.contacts, DocumentKey, c);
      case Ok(Updated(j, c)) =>
        UniqueReplace(st.contacts, EmailKey, j, c);
        UniqueReplace(st.contacts, DocumentKey, j, c);
  }

  /** An import never breaks the unique constraints nor the id order. */
  lemma {:induction false} RunValid(st: ImportState, org: OrgId, job: RowJob, rows: seq<RawRow>)
    requires TableValid(st.contacts, st.nextId) && AlwaysFits(job, org)
    ensures var fin := Run(st, job, rows); TableValid(fin.contacts, fin.nextId)
  {
    if rows != [] {
      var prev := Run(st, job, rows[..|rows| - 1]);
      RunValid(st, org, job, rows[..|rows| - 1]);
      ApplyValid(prev, org, |rows| + 1, job(prev.contacts, prev.nextId, rows[|rows| - 1]));
    }
  }

  /** Contacts of other organizations come out of an import unchanged. */
  lemma {:induction false} RunKeepsOtherOrgs(st: ImportState, org: OrgId, job: RowJob, rows: seq<RawRow>, i: nat)
    requires AlwaysFits(job, org) && i < |st.contacts| && st.contacts[i].org != org
    ensures i < |Run(st, job, rows).contacts| && Run(st, job, rows).contacts[i] == st.contacts[i]
  {
    if rows != [] {
      var prev := Run(st, job, rows[..|rows| - 1]);
      RunKeepsOtherOrgs(st, org, job, rows[..|rows| - 1], i);
      assert Fits(prev.contacts, prev.nextId, org, job(prev.contacts, prev.nextId, rows[|rows| - 1]));
    }
  }

  /** What the job returns. */
  datatype ImportReport =
    | Rejected                                      // {"ok": False, ...}: unknown org or user
    | Report(processed: nat, created: nat, updated: nat, errors: seq<RowError>)

  /** `errors[:n]` */
  function Take<T>(s: seq<T>, n: nat): (r: seq<T>)
    ensures |r| <= n && |r| <= |s| && r == s[..|r|]
    ensures |s| <= n ==> r == s
  {
    if |s| <= n then s else s[..n]
  }

  const MaxReportedErrors := 2000

  /** The body of the `try` for one row: normalise, type, match, build the payload, save. */
  method ProcessRow(cs: seq<Contact>, nextId: ContactId, org: OrgId, user: UserId,
                    defaultTipo: Option<string>, row: RawRow) returns (outcome: Result<RowChange>)
    ensures outcome == ImportRow(cs, nextId, org, user, defaultTipo, row)
    ensures Fits(cs, nextId, org, outcome)
  {
    var data := NormalizeRow(row);
    var tipo := TipoOf(data, defaultTipo);
    if ParseContactType(tipo).None? {
      return Err(TipoError);
    }
    var existing := FindExisting(cs, org, Get(data, "documento_id"), Get(data, "email"));
    var payload := BuildPayload(data);
    outcome := SaveRow(cs, nextId, org, user, tipo, existing, payload);
  }

  /** Running one more row is applying that row's outcome. */
  lemma RunOneMore(st: ImportState, job: RowJob, rows: seq<RawRow>, i: nat)
    requires i < |rows|
    ensures var prev := Run(st, job, rows[..i]);
      Run(st, job, rows[..i + 1]) == Apply(prev, i + 2, job(prev.contacts, prev.nextId, rows[i]))
  {
    assert rows[..i + 1][..i] == rows[..i];
  }

  /** The counters and the table after one row's outcome is recorded. */
  method Record(cs: seq<Contact>, next: ContactId, created: nat, updated: nat, errors: seq<RowError>,
                line: nat, outcome: Result<RowChange>)
    returns (cs': seq<Contact>, next': ContactId, created': nat, updated': nat, errors': seq<RowError>)
    requires outcome.Ok? && outcome.value.Updated? ==> outcome.value.index < |cs|
    ensures ImportState(cs', next', created', updated', errors') ==
      Apply(ImportState(cs, next, created, updated, errors), line, outcome)
  {
    cs', next', created', updated', errors' := cs, next, created, updated, errors;
    match outcome
    case Err(e) =>
      errors' := errors + [RowError(line, e)];
    case Ok(Created(c)) =>
      cs' := cs + [c];
      next' := next + 1;
      created' := created + 1;
    case Ok(Updated(j, c)) =>
      cs' := cs[j := c];
      updated' := updated + 1;
  }

  /** The loop over the data rows, with the job's counters. */
  method ImportRows(contacts: seq<Contact>, nextId: ContactId, org: OrgId, user: UserId,
                    defaultTipo: Option<string>, rows: seq<RawRow>)
    returns (cs: seq<Contact>, next: ContactId, created: nat, updated: nat, errors: seq<RowError>)
    ensures ImportState(cs, next, created, updated, errors) ==
      Run(ImportState(contacts, nextId, 0, 0, []), JobFor(org, user, defaultTipo), rows)
  {
    ghost var st0 := ImportState(contacts, nextId, 0, 0, []);
    ghost var job := JobFor(org, user, defaultTipo);
    cs, next := contacts, nextId;
    created, updated, errors := 0, 0, [];
    assert rows[..0] == [];
    for i := 0 to |rows|
      invariant ImportState(cs, next, created, updated, errors) == Run(st0, job, rows[..i])
    {
      var outcome := ProcessRow(cs, next, org, user, defaultTipo, rows[i]);
      assert outcome == job(cs, next, rows[i]);
      RunOneMore(st0, job, rows, i);
      cs, next, created, updated, errors := Record(cs, next, created, updated, errors, i + 2, outcome);
    }
    assert rows[..|rows|] == rows;
  }

  /** The contacts table the job writes to. */
  class ContactTable {
    var contacts: seq<Contact>
    var nextId: ContactId

    ghost predicate Valid()
      reads this
    {
      TableValid(contacts, nextId)
    }

    constructor ()
      ensures contacts == [] && nextId == 1 && Valid()
    {
      contacts := [];
      nextId := 1;
    }

    /**
     * `import_contacts_job` on rows already read from the file. The org and
     * user lookups are the two flags.
     */
    method ImportContacts(org: OrgId, user: UserId, orgExists: bool, userExists: bool,
                          defaultTipo: Option<string>, rows: seq<RawRow>) returns (r: ImportReport)
      requires Valid()
      modifies this
      ensures Valid()
      ensures !(orgExists && userExists) ==> r == Rejected && contacts == old(contacts) && nextId == old(nextId)
      ensures orgExists && userExists ==>
        var fin := Run(ImportState(old(contacts), old(nextId), 0, 0, []), JobFor(org, user, defaultTipo), rows);
        contacts == fin.contacts && nextId == fin.nextId &&
        r == Report(|rows|, fin.created, fin.updated, Take(fin.errors, MaxReportedErrors))
    {
      if !(orgExists && userExists) {
        return Rejected;
      }
      JobForFits(org, user, defaultTipo);
      RunValid(ImportState(contacts, nextId, 0, 0, []), org, JobFor(org, user, defaultTipo), rows);
      var cs, next, created, updated, errors := ImportRows(contacts, nextId, org, user, defaultTipo, rows);
      contacts, nextId := cs, next;
      r := Report(|rows|, created, updated, Take(errors, MaxReportedErrors));
    }
  }

  /** The report's counters add up, and at most 2000 errors are listed. */
  lemma ReportCounts(cs: seq<Contact>, nextId: ContactId, job: RowJob, rows: seq<RawRow>)
    ensures var fin := Run(ImportState(cs, nextId, 0, 0, []), job, rows);
      fin.created + fin.updated + |fin.errors| == |rows| &&
      |Take(fin.errors, MaxReportedErrors)| <= MaxReportedErrors
  {
    RunCounts(ImportState(cs, nextId, 0, 0, []), job, rows);
  }
}
