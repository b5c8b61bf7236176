// The agenda's read queries, as filters over the organization's rows:
// events in a range, notes visible to the requester, the alerts banner and
// unpaid invoices shown as calendar markers. Rows are listed in the table's
// default order; query-string parsing is reduced to the values it yields.

module AgendaViews {
  import opened Common
  import opened Text
  import opened Dates
  import opened Money
  import opened SalesModels
  import opened AgendaModels

  /** `[x for x in s if p(x)]`: the order of `s` is kept. */
  function Filter<T>(p: T -> bool, s: seq<T>): (r: seq<T>)
    ensures |r| <= |s|
    ensures forall i :: 0 <= i < |r| ==> r[i] in s && p(r[i])
    ensures forall i :: 0 <= i < |s| && p(s[i]) ==> s[i] in r
  {
    if s == [] then [] else (if p(s[0]) then [s[0]] else []) + Filter(p, s[1..])
  }

  lemma FilterKeeps<T>(p: T -> bool, s: seq<T>, x: T)
    requires x in s && p(x)
    ensures x in Filter(p, s)
  {
    var i :| 0 <= i < |s| && s[i] == x;
  }

  lemma FilterMember<T>(p: T -> bool, s: seq<T>, x: T)
    requires x in Filter(p, s)
    ensures x in s && p(x)
  {
    var r := Filter(p, s);
    var i :| 0 <= i < |r| && r[i] == x;
  }

  // ----- Events -----------------------------------------------------------

  /** The query parameters of the event list; `None` stands for absent or empty. */
  datatype EventQuery = EventQuery(
    start: Option<DateTime>,
    end: Option<DateTime>,
    status: Option<string>,
    important: Option<string>,
    contact: Option<ContactId>)

  /** `start__lt=end, end__gte=start` or `start__gte=start, start__lt=end`. */
  predicate InRange(e: Event, start: DateTime, end: DateTime)
  {
    (DateTimeBefore(e.start, end) && e.end.Some? && DateTimeNotAfter(start, e.end.value)) ||
    (DateTimeNotAfter(start, e.start) && DateTimeBefore(e.start, end))
  }

  /** One `filter(...)` of the event list. */
  datatype EventTest =
    | SameOrg(org: OrgId)
    | Overlaps(start: DateTime, end: DateTime)
    | HasStatus(status: string)
    | FlaggedImportant
    | ForContact(contact: ContactId)

  predicate Passes(t: EventTest, e: Event)
  {
    match t
      case SameOrg(org) => e.org == org
      case Overlaps(start, end) => InRange(e, start, end)
      case HasStatus(status) => e.status == status
      case FlaggedImportant => e.isImportant
      case ForContact(c) => e.contact == Some(c)
  }

  function Narrow(t: EventTest, s: seq<Event>): seq<Event>
  {
    Filter((e: Event) => Passes(t, e), s)
  }

  lemma NarrowMember(t: EventTest, s: seq<Event>, e: Event)
    ensures e in Narrow(t, s) <==> e in s && Passes(t, e)
  {
  }

  /** Everything the event list asks of one row, stated at once. */
  predicate EventMatches(e: Event, org: OrgId, q: EventQuery)
  {
    e.org == org &&
    (q.start.Some? && q.end.Some? ==> InRange(e, q.start.value, q.end.value)) &&
    (q.status.Some? && q.status.value != [] ==> e.status == q.status.value) &&
    (q.important == Some("true") ==> e.isImportant) &&
    (q.contact.Some? ==> e.contact == q.contact)
  }

  /** `EventViewSet.get_queryset`: the filters applied one after another. */
  function ListEvents(events: seq<Event>, org: OrgId, q: EventQuery): seq<Event>
  {
    var inOrg := Narrow(SameOrg(org), events);
    var ranged := if q.start.Some? && q.end.Some? then Narrow(Overlaps(q.start.value, q.end.value), inOrg) else inOrg;
    var byStatus := if q.status.Some? && q.status.value != [] then Narrow(HasStatus(q.status.value), ranged) else ranged;
    var byImportance := if q.important == Some("true") then Narrow(FlaggedImportant, byStatus) else byStatus;
    if q.contact.Some? then Narrow(ForContact(q.contact.value), byImportance) else byImportance
  }

  /** A filter applied only when its parameter is given. */
  lemma StageMember(t: EventTest, apply: bool, s: seq<Event>, e: Event)
    ensures e in (if apply then Narrow(t, s) else s) <==> e in s && (apply ==> Passes(t, e))
  {
    if apply {
      NarrowMember(t, s, e);
    }
  }

  /** The filters the query applies, each passed by the row. */
  predicate PassesApplied(e: Event, org: OrgId, q: EventQuery)
  {
    Passes(SameOrg(org), e) &&
    (q.start.Some? && q.end.Some? ==> Passes(Overlaps(q.start.value, q.end.value), e)) &&
    (q.status.Some? && q.status.value != [] ==> Passes(HasStatus(q.status.value), e)) &&
    (q.important == Some("true") ==> Passes(FlaggedImportant, e)) &&
    (q.contact.Some? ==> Passes(ForContact(q.contact.value), e))
  }

  lemma ListedIffPassesApplied(events: seq<Event>, org: OrgId, q: EventQuery, e: Event)
    ensures e in ListEvents(events, org, q) <==> e in events && PassesApplied(e, org, q)
  {
    var inOrg := Narrow(SameOrg(org), events);
    NarrowMember(SameOrg(org), events, e);
    var useRange := q.start.Some? && q.end.Some?;
    var range := if useRange then Overlaps(q.start.value, q.end.value) else FlaggedImportant;
    var ranged := if useRange then Narrow(range, inOrg) else inOrg;
    StageMember(range, useRange, inOrg, e);
    var useStatus := q.status.Some? && q.status.value != [];
    var status := if useStatus then HasStatus(q.status.value) else FlaggedImportant;
    var byStatus := if useStatus then Narrow(status, ranged) else ranged;
    StageMember(status, useStatus, ranged, e);
    var useImportant := q.important == Some("true");
    var byImportance := if useImportant then Narrow(FlaggedImportant, byStatus) else byStatus;
    StageMember(FlaggedImportant, useImportant, byStatus, e);
    var useContact := q.contact.Some?;
    var contact := if useContact then ForContact(q.contact.value) else FlaggedImportant;
    StageMember(contact, useContact, byImportance, e);
    assert ListEvents(events, org, q) == if useContact then Narrow(contact, byImportance) else byImportance;
  }

  /** An event is listed iff it is one of the organization's rows that passes every requested filter. */
  lemma ListEventsMatches(events: seq<Event>, org: OrgId, q: EventQuery, e: Event)
    ensures e in ListEvents(events, org, q) <==> e in events && EventMatches(e, org, q)
  {
    ListedIffPassesApplied(events, org, q, e);
    PassesAppliedIsMatch(e, org, q);
  }

  lemma PassesAppliedIsMatch(e: Event, org: OrgId, q: EventQuery)
    ensures PassesApplied(e, org, q) <==> EventMatches(e, org, q)
  {
  }

  /** An event with no end is in range only when it starts in the range. */
  lemma OpenEventNeedsStartInRange(e: Event, start: DateTime, end: DateTime)
    requires e.end.None?
    ensures InRange(e, start, end) <==> DateTimeNotAfter(start, e.start) && DateTimeBefore(e.start, end)
  {
  }

  /** An event that began before the range and is still going at its start is listed. */
  lemma OngoingEventInRange(e: Event, start: DateTime, end: DateTime)
    requires DateTimeBefore(e.start, start) && DateTimeNotAfter(start, end) && e.end.Some? && DateTimeNotAfter(start, e.end.value)
    requires start != end
    ensures InRange(e, start, end)
  {
    assert DateTimeBefore(start, end);
    assert DateTimeBefore(e.start, end) by { DateTimeTransitive(e.start, start, end); }
  }

  lemma DateTimeTransitive(a: DateTime, b: DateTime, c: DateTime)
    requires DateTimeBefore(a, b) && DateTimeBefore(b, c)
    ensures DateTimeBefore(a, c)
  {
    if Before(a.date, b.date) && Before(b.date, c.date) {
      BeforeIsStrictOrder(a.date, b.date, c.date);
    }
  }

  // ----- Notes ------------------------------------------------------------

  /** `Q(visibility="org") | Q(visibility="private", owner=user)`. */
  predicate Visible(n: Note, user: UserId)
  {
    n.visibility == "org" || (n.visibility == "private" && n.owner == Some(user))
  }

  /** The date a range bound names: the text before the first "T", read as a date. */
  function BoundDate(s: string): Option<Date>
  {
    ParseIsoDate(Split(s, 'T')[0])
  }

  /** The query parameters of the note list; an empty bound counts as absent. */
  datatype NoteQuery = NoteQuery(
    start: Option<string>,
    end: Option<string>,
    includeUndated: Option<string>,
    contact: Option<ContactId>)

  predicate HasRange(q: NoteQuery)
  {
    q.start.Some? && q.start.value != [] && q.end.Some? && q.end.value != []
  }

  predicate DueIn(n: Note, from: Date, to: Date)
  {
    n.dueDate.Some? && NotAfter(from, n.dueDate.value) && Before(n.dueDate.value, to)
  }

  /**
   * `NoteViewSet.get_queryset`. A bound that is not a date makes the query
   * fail, which is `None` here.
   */
  function ListNotes(notes: seq<Note>, org: OrgId, user: UserId, q: NoteQuery): (r: Option<seq<Note>>)
    ensures r.None? <==> HasRange(q) && (BoundDate(q.start.value).None? || BoundDate(q.end.value).None?)
  {
    var visible := Filter((n: Note) => n.org == org && Visible(n, user), notes);
    var ranged: Option<seq<Note>> :=
      if !HasRange(q) then Some(visible)
      else
        var from := BoundDate(q.start.value);
        var to := BoundDate(q.end.value);
        if from.None? || to.None? then None
        else if q.includeUndated == Some("true") then
          Some(Filter((n: Note) => DueIn(n, from.value, to.value) || n.dueDate.None?, visible))
        else Some(Filter((n: Note) => DueIn(n, from.value, to.value), visible));
    if ranged.None? then None
    else if q.contact.Some? then Some(Filter((n: Note) => n.contact == q.contact, ranged.value))
    else ranged
  }

  /** Every listed note belongs to the organization and is visible to the requester. */
  lemma ListedNotesVisible(notes: seq<Note>, org: OrgId, user: UserId, q: NoteQuery, n: Note)
    requires ListNotes(notes, org, user, q).Some? && n in ListNotes(notes, org, user, q).value
    ensures n in notes && n.org == org && Visible(n, user)
    ensures q.contact.Some? ==> n.contact == q.contact
  {
    var visible := Filter((n: Note) => n.org == org && Visible(n, user), notes);
    var r := ListNotes(notes, org, user, q).value;
    var ranged: seq<Note>;
    if !HasRange(q) {
      ranged := visible;
    } else {
      var from, to := BoundDate(q.start.value).value, BoundDate(q.end.value).value;
      if q.includeUndated == Some("true") {
        ranged := Filter((n: Note) => DueIn(n, from, to) || n.dueDate.None?, visible);
        assert n in ranged ==> n in visible by {
          if n in ranged { FilterMember((n: Note) => DueIn(n, from, to) || n.dueDate.None?, visible, n); }
        }
      } else {
        ranged := Filter((n: Note) => DueIn(n, from, to), visible);
        assert n in ranged ==> n in visible by {
          if n in ranged { FilterMember((n: Note) => DueIn(n, from, to), visible, n); }
        }
      }
    }
    if q.contact.Some? {
      assert r == Filter((n: Note) => n.contact == q.contact, ranged);
      FilterMember((n: Note) => n.contact == q.contact, ranged, n);
    } else {
      assert r == ranged;
    }
    FilterMember((n: Note) => n.org == org && Visible(n, user), notes, n);
  }

  /** Another user's private note is never listed. */
  lemma OthersPrivateNotesHidden(notes: seq<Note>, org: OrgId, user: UserId, q: NoteQuery, n: Note)
    requires n.visibility == "private" && n.owner != Some(user)
    requires ListNotes(notes, org, user, q).Some?
    ensures n !in ListNotes(notes, org, user, q).value
  {
    if n in ListNotes(notes, org, user, q).value {
      ListedNotesVisible(notes, org, user, q, n);
    }
  }

  /** With a range, an undated note is listed only when `include_undated` is exactly "true". */
  lemma UndatedNeedsFlag(notes: seq<Note>, org: OrgId, user: UserId, q: NoteQuery, n: Note)
    requires HasRange(q) && n.dueDate.None? && q.includeUndated != Some("true")
    requires ListNotes(notes, org, user, q).Some?
    ensures n !in ListNotes(notes, org, user, q).value
  {
  }

  /** With a range, a visible dated note of the organization is listed iff its date is in `[start, end)`. */
  lemma DatedNoteInRange(notes: seq<Note>, org: OrgId, user: UserId, q: NoteQuery, n: Note)
    requires HasRange(q) && q.contact.None? && n in notes && n.org == org && Visible(n, user) && n.dueDate.Some?
    requires ListNotes(notes, org, user, q).Some?
    ensures n in ListNotes(notes, org, user, q).value <==>
      DueIn(n, BoundDate(q.start.value).value, BoundDate(q.end.value).value)
  {
  }

  // ----- Sorting and limits ------------------------------------------------

  predicate SortedBy<T>(key: T -> int, s: seq<T>)
  {
    forall i, j :: 0 <= i < j < |s| ==> key(s[i]) <= key(s[j])
  }

  /** Insertion after every element with a key no larger, so equal keys keep their order. */
  function InsertBy<T>(key: T -> int, x: T, s: seq<T>): (r: seq<T>)
    requires SortedBy(key, s)
    ensures SortedBy(key, r)
    ensures multiset(r) == multiset(s) + multiset{x}
  {
    if s == [] then [x]
    else if key(x) < key(s[0]) then [x] + s
    else
      var rest := InsertBy(key, x, s[1..]);
      assert s == [s[0]] + s[1..];
      assert forall k :: 0 <= k < |rest| ==> key(s[0]) <= key(rest[k]) by {
        forall k | 0 <= k < |rest| ensures key(s[0]) <= key(rest[k]) {
          assert rest[k] in multiset(rest);
          if rest[k] != x {
            assert rest[k] in multiset(s[1..]);
            var j :| 0 <= j < |s[1..]| && s[1..][j] == rest[k];
            assert s[j + 1] == rest[k];
          }
        }
      }
      [s[0]] + rest
  }

  /** `order_by(key)`: ascending by the key, a permutation of the input. */
  function SortBy<T>(key: T -> int, s: seq<T>): (r: seq<T>)
    ensures SortedBy(key, r)
    ensures multiset(r) == multiset(s)
  {
    if s == [] then []
    else
      assert s == s[..|s| - 1] + [s[|s| - 1]];
      InsertBy(key, s[|s| - 1], SortBy(key, s[..|s| - 1]))
  }

  /** `qs[:n]`. */
  function Prefix<T>(s: seq<T>, n: nat): (r: seq<T>)
    ensures |r| == if |s| <= n then |s| else n
    ensures r == s[..|r|]
  {
    if |s| <= n then s else s[..n]
  }

  /** The first `n` of a sorted list have the smallest keys: nothing left out has a smaller one. */
  lemma PrefixOfSortedIsSmallest<T>(key: T -> int, s: seq<T>, n: nat)
    requires SortedBy(key, s)
    ensures forall i, j :: 0 <= i < |Prefix(s, n)| <= j < |s| ==> key(s[i]) <= key(s[j])
  {
  }

  // ----- Alerts -----------------------------------------------------------

  /** The four lists of the alerts banner. */
  datatype Alerts = Alerts(pinned: seq<Note>, today: seq<Event>, tomorrow: seq<Event>, overdue: seq<Note>)

  const MaxPinned := 8

  /** Newest update first. */
  function NewestFirst(n: Note): int { -n.updatedAt }

  predicate OverdueTask(n: Note, org: OrgId, today: Date)
  {
    n.org == org && n.isImportant && n.dueDate.Some? && Before(n.dueDate.value, today) && n.status == "pending"
  }

  /** The pinned notes of the banner: the organisation's pinned notes, newest first, at most `MaxPinned`. */
  function PinnedBanner(notes: seq<Note>, org: OrgId): (r: seq<Note>)
    ensures |r| <= MaxPinned
    ensures forall n :: n in r ==> n in notes && n.org == org && n.isPinned
    ensures forall i, j :: 0 <= i < j < |r| ==> r[j].updatedAt <= r[i].updatedAt
  {
    var mine := Filter((n: Note) => n.org == org && n.isPinned, notes);
    var pinned := SortBy(NewestFirst, mine);
    var top := Prefix(pinned, MaxPinned);
    PinnedTopFacts(mine, pinned, top);
    top
  }

  lemma PinnedTopFacts(mine: seq<Note>, pinned: seq<Note>, top: seq<Note>)
    requires SortedBy(NewestFirst, pinned) && multiset(pinned) == multiset(mine)
    requires |top| <= |pinned| && top == pinned[..|top|]
    ensures forall n :: n in top ==> n in mine
    ensures forall i, j :: 0 <= i < j < |top| ==> top[j].updatedAt <= top[i].updatedAt
  {
    forall n | n in top ensures n in mine {
      assert n in pinned;
      assert n in multiset(mine);
    }
    forall i, j | 0 <= i < j < |top| ensures top[j].updatedAt <= top[i].updatedAt {
      assert top[i] == pinned[i] && top[j] == pinned[j];
      assert NewestFirst(pinned[i]) <= NewestFirst(pinned[j]);
    }
  }

  /** `AlertsViewSet.list`, with `timezone.localdate()` as the parameter `today`. */
  function ListAlerts(notes: seq<Note>, events: seq<Event>, org: OrgId, today: Date): (r: Alerts)
    requires ValidDate(today)
    ensures |r.pinned| <= MaxPinned
    ensures forall n :: n in r.pinned ==> n in notes && n.org == org && n.isPinned
    ensures forall i, j :: 0 <= i < j < |r.pinned| ==> r.pinned[j].updatedAt <= r.pinned[i].updatedAt
    ensures forall e :: e in r.today <==> e in events && e.org == org && e.isImportant && e.start.date == today
    ensures forall e :: e in r.tomorrow <==> e in events && e.org == org && e.isImportant && e.start.date == NextDay(today)
    ensures forall n :: n in r.overdue <==> n in notes && OverdueTask(n, org, today)
  {
    var tomorrow := NextDay(today);
    Alerts(
      PinnedBanner(notes, org),
      Filter((e: Event) => e.org == org && e.isImportant && e.start.date == today, events),
      Filter((e: Event) => e.org == org && e.isImportant && e.start.date == tomorrow, events),
      Filter((n: Note) => OverdueTask(n, org, today), notes))
  }

  /** No pinned note left out of the banner was updated after one shown in it. */
  lemma PinnedAreNewest(notes: seq<Note>, events: seq<Event>, org: OrgId, today: Date)
    requires ValidDate(today)
    ensures var pinned := SortBy(NewestFirst, Filter((n: Note) => n.org == org && n.isPinned, notes));
      ListAlerts(notes, events, org, today).pinned == Prefix(pinned, MaxPinned) &&
      forall i, j :: 0 <= i < |Prefix(pinned, MaxPinned)| <= j < |pinned| ==> pinned[j].updatedAt <= pinned[i].updatedAt
  {
    var pinned := SortBy(NewestFirst, Filter((n: Note) => n.org == org && n.isPinned, notes));
    PrefixOfSortedIsSmallest(NewestFirst, pinned, MaxPinned);
  }

  /**
   * The banner's queries have no visibility filter: another user's private
   * note that is overdue is listed whoever asks, although the note list
   * hides it from them.
   */
  lemma AlertsShowOthersPrivateNotes(notes: seq<Note>, events: seq<Event>, org: OrgId, today: Date,
                                     user: UserId, n: Note)
    requires ValidDate(today) && n in notes && OverdueTask(n, org, today)
    requires n.visibility == "private" && n.owner != Some(user)
    ensures !Visible(n, user) && n in ListAlerts(notes, events, org, today).overdue
  {
  }

  /** The banner over the notes the requester may see, as the note list selects them. */
  function VisibleAlerts(notes: seq<Note>, events: seq<Event>, org: OrgId, today: Date, user: UserId): (r: Alerts)
    requires ValidDate(today)
  {
    ListAlerts(Filter((n: Note) => Visible(n, user), notes), events, org, today)
  }

  /** With the visibility filter every note of the banner is one the requester may see, and no visible one is lost. */
  lemma VisibleAlertsHidePrivate(notes: seq<Note>, events: seq<Event>, org: OrgId, today: Date, user: UserId, n: Note)
    requires ValidDate(today)
    ensures n in VisibleAlerts(notes, events, org, today, user).pinned ==> n in notes && Visible(n, user)
    ensures n in VisibleAlerts(notes, events, org, today, user).overdue <==>
              n in notes && Visible(n, user) && OverdueTask(n, org, today)
  {
    var visible := Filter((m: Note) => Visible(m, user), notes);
    assert VisibleAlerts(notes, events, org, today, user) == ListAlerts(visible, events, org, today);
    if n in visible {
      FilterMember((m: Note) => Visible(m, user), notes, n);
    }
    if n in notes && Visible(n, user) {
      FilterKeeps((m: Note) => Visible(m, user), notes, n);
    }
  }

  /** A note due today is not yet overdue. */
  lemma DueTodayNotOverdue(n: Note, org: OrgId, today: Date)
    requires n.dueDate == Some(today)
    ensures !OverdueTask(n, org, today)
  {
  }

  // ----- Invoice markers ---------------------------------------------------

  /** The invoice fields the overlay shows. */
  datatype InvoiceRow = InvoiceRow(
    id: nat,
    org: OrgId,
    number: Option<nat>,
    dateIssue: Date,
    total: Cents,
    currency: string,
    paymentStatus: PaymentStatus)

  /** One calendar marker for an invoice that is not fully paid. */
  datatype InvoiceDue = InvoiceDue(
    id: string,
    title: string,
    date: Date,
    invoiceId: nat,
    amount: Cents,
    currency: string,
    status: PaymentStatus,
    kind: string)

  const MaxInvoiceDues := 200
  const InvoiceDueKind := "invoice_due_stub"

  /** A date's place in calendar order, for valid dates. */
  function DateKey(d: Date): int
  {
    (d.year * 13 + d.month) * 32 + d.day
  }

  lemma DateKeyOrder(a: Date, b: Date)
    requires ValidDate(a) && ValidDate(b)
    ensures Before(a, b) <==> DateKey(a) < DateKey(b)
  {
  }

  function IssueKey(inv: InvoiceRow): int { DateKey(inv.dateIssue) }

  /** `f"{inv.number}"` of a nullable number: a draft shows "None". */
  function NumberText(n: Option<nat>): string
  {
    if n.Some? then NatToString(n.value) else "None"
  }

  function Marker(inv: InvoiceRow): (m: InvoiceDue)
    ensures m.id == "inv-" + NatToString(inv.id) && m.invoiceId == inv.id && m.date == inv.dateIssue
  {
    InvoiceDue("inv-" + NatToString(inv.id), "Factura " + NumberText(inv.number) + " pendiente", inv.dateIssue,
               inv.id, inv.total, inv.currency, inv.paymentStatus, InvoiceDueKind)
  }

  function Map<A, B>(f: A -> B, s: seq<A>): (r: seq<B>)
    ensures |r| == |s| && forall i :: 0 <= i < |s| ==> r[i] == f(s[i])
  {
    if s == [] then [] else [f(s[0])] + Map(f, s[1..])
  }

  predicate DueCandidate(inv: InvoiceRow, org: OrgId)
  {
    inv.org == org && inv.paymentStatus != Paid
  }

  /** The invoices the query selects before ordering and cutting: not fully paid, in the range if one is given. */
  function DuePool(invoices: seq<InvoiceRow>, org: OrgId, start: Option<string>, end: Option<string>): Option<seq<InvoiceRow>>
  {
    var open := Filter((inv: InvoiceRow) => DueCandidate(inv, org), invoices);
    if start.None? || start.value == [] || end.None? || end.value == [] then Some(open)
    else
      var from := BoundDate(start.value);
      var to := BoundDate(end.value);
      if from.None? || to.None? then None
      else Some(Filter((inv: InvoiceRow) => NotAfter(from.value, inv.dateIssue) && Before(inv.dateIssue, to.value), open))
  }

  /** The invoices the overlay shows, before the markers are made. */
  function DueInvoices(invoices: seq<InvoiceRow>, org: OrgId, start: Option<string>, end: Option<string>): Option<seq<InvoiceRow>>
  {
    var pool := DuePool(invoices, org, start, end);
    if pool.None? then None else Some(Prefix(SortBy(IssueKey, pool.value), MaxInvoiceDues))
  }

  /**
   * `OverlaysViewSet.invoice_dues`: unpaid and partly paid invoices, drafts
   * included, in order of issue date, at most 200.
   */
  function InvoiceDues(invoices: seq<InvoiceRow>, org: OrgId, start: Option<string>, end: Option<string>): (r: Option<seq<InvoiceDue>>)
    ensures r.Some? <==> DueInvoices(invoices, org, start, end).Some?
    ensures r.Some? ==> var shown := DueInvoices(invoices, org, start, end).value;
      |r.value| == |shown| <= MaxInvoiceDues &&
      (forall i :: 0 <= i < |shown| ==> r.value[i] == Marker(shown[i])) &&
      (forall inv :: inv in shown ==> inv in invoices && DueCandidate(inv, org)) &&
      (forall i, j :: 0 <= i < j < |shown| ==> IssueKey(shown[i]) <= IssueKey(shown[j]))
  {
    var shown := DueInvoices(invoices, org, start, end);
    if shown.None? then None
    else
      DueInvoicesFacts(invoices, org, start, end);
      Some(Map(Marker, shown.value))
  }

  /** The first 200 of the list sorted by issue date are in order and come from the list. */
  lemma ShownPrefixFacts(pool: seq<InvoiceRow>)
    ensures var shown := Prefix(SortBy(IssueKey, pool), MaxInvoiceDues);
      |shown| <= MaxInvoiceDues &&
      (forall inv :: inv in shown ==> inv in pool) &&
      (forall i, j :: 0 <= i < j < |shown| ==> IssueKey(shown[i]) <= IssueKey(shown[j]))
  {
    var sorted := SortBy(IssueKey, pool);
    var shown := Prefix(sorted, MaxInvoiceDues);
    forall inv | inv in shown ensures inv in pool {
      var k :| 0 <= k < |shown| && shown[k] == inv;
      assert sorted[k] == inv;
      assert inv in multiset(sorted);
    }
  }

  lemma DueInvoicesFacts(invoices: seq<InvoiceRow>, org: OrgId, start: Option<string>, end: Option<string>)
    requires DueInvoices(invoices, org, start, end).Some?
    ensures var shown := DueInvoices(invoices, org, start, end).value;
      |shown| <= MaxInvoiceDues &&
      (forall inv :: inv in shown ==> inv in invoices && DueCandidate(inv, org)) &&
      (forall i, j :: 0 <= i < j < |shown| ==> IssueKey(shown[i]) <= IssueKey(shown[j]))
  {
    var open := Filter((inv: InvoiceRow) => DueCandidate(inv, org), invoices);
    var pool := open;
    var ranged := !(start.None? || start.value == [] || end.None? || end.value == []);
    var from, to;
    if ranged {
      from, to := BoundDate(start.value).value, BoundDate(end.value).value;
      pool := Filter((inv: InvoiceRow) => NotAfter(from, inv.dateIssue) && Before(inv.dateIssue, to), open);
    }
    assert DueInvoices(invoices, org, start, end).value == Prefix(SortBy(IssueKey, pool), MaxInvoiceDues);
    ShownPrefixFacts(pool);
    forall inv | inv in pool ensures inv in invoices && DueCandidate(inv, org) {
      if ranged {
        FilterMember((inv: InvoiceRow) => NotAfter(from, inv.dateIssue) && Before(inv.dateIssue, to), open, inv);
      }
      FilterMember((inv: InvoiceRow) => DueCandidate(inv, org), invoices, inv);
    }
  }

  /**
   * The 200 markers are the earliest: no selected invoice left out has an
   * earlier issue date than one that is shown (`DateKeyOrder` makes the key
   * calendar order).
   */
  lemma EarliestDuesShown(invoices: seq<InvoiceRow>, org: OrgId, start: Option<string>, end: Option<string>)
    requires DuePool(invoices, org, start, end).Some?
    ensures var sorted := SortBy(IssueKey, DuePool(invoices, org, start, end).value);
      DueInvoices(invoices, org, start, end) == Some(Prefix(sorted, MaxInvoiceDues)) &&
      multiset(sorted) == multiset(DuePool(invoices, org, start, end).value) &&
      forall i, j :: 0 <= i < |Prefix(sorted, MaxInvoiceDues)| <= j < |sorted| ==>
        IssueKey(sorted[i]) <= IssueKey(sorted[j])
  {
    var sorted := SortBy(IssueKey, DuePool(invoices, org, start, end).value);
    PrefixOfSortedIsSmallest(IssueKey, sorted, MaxInvoiceDues);
  }

  /** A fully paid invoice is never shown. */
  lemma PaidInvoicesNeverShown(invoices: seq<InvoiceRow>, org: OrgId, start: Option<string>, end: Option<string>, inv: InvoiceRow)
    requires inv.paymentStatus == Paid
    requires InvoiceDues(invoices, org, start, end).Some?
    ensures inv !in DueInvoices(invoices, org, start, end).value
  {
    DueInvoicesFacts(invoices, org, start, end);
  }

  /** Without a range, and with at most 200 candidates, every unpaid invoice of the organization is shown. */
  lemma UnrangedDuesComplete(invoices: seq<InvoiceRow>, org: OrgId, inv: InvoiceRow)
    requires inv in invoices && DueCandidate(inv, org)
    requires |Filter((i: InvoiceRow) => DueCandidate(i, org), invoices)| <= MaxInvoiceDues
    ensures DueInvoices(invoices, org, None, None).Some?
    ensures inv in DueInvoices(invoices, org, None, None).value
  {
    var open := Filter((i: InvoiceRow) => DueCandidate(i, org), invoices);
    var sorted := SortBy(IssueKey, open);
    assert DueInvoices(invoices, org, None, None) == Some(Prefix(sorted, MaxInvoiceDues));
    FilterKeeps((i: InvoiceRow) => DueCandidate(i, org), invoices, inv);
    PermutationKeeps(open, sorted, inv);
    assert Prefix(sorted, MaxInvoiceDues) == sorted;
  }

  /** A permutation keeps the members and the length. */
  lemma PermutationKeeps<T>(s: seq<T>, t: seq<T>, x: T)
    requires multiset(t) == multiset(s) && x in s
    ensures x in t && |t| == |s|
  {
    assert x in multiset(s);
    assert |t| == |multiset(t)| == |multiset(s)| == |s|;
  }
}
