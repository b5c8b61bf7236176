// The agenda serializers: a linked contact must belong to the request's
// organization, and the organization, owner and timestamps of a new row
// come from the request, never from the submitted data.

module AgendaSerializers {
  import opened Common
  import opened AgendaModels

  /** A contact a payload links to, with the organization it belongs to. */
  datatype ContactRef = ContactRef(id: ContactId, org: OrgId)

  /**
   * The submitted fields the rules touch. `org`, `createdAt` and `updatedAt`
   * are read-only and `owner` is a hidden field; the rest travel untouched in
   * `other`.
   */
  datatype Payload = Payload(
    org: Option<OrgId>,
    owner: Option<UserId>,
    createdAt: Option<Time>,
    updatedAt: Option<Time>,
    contact: Option<ContactRef>,
    other: map<string, string>)

  const ForeignContact := Validation("El contacto no pertenece a tu organización.")

  /** `OrgContactValidatorMixin.validate`. */
  function ValidateContact(attrs: Payload, org: OrgId): (r: Result<Payload>)
    ensures r.Err? <==> attrs.contact.Some? && attrs.contact.value.org != org
    ensures r.Ok? ==> r.value == attrs
    ensures r.Err? ==> r.error == ForeignContact
  {
    if attrs.contact.Some? && attrs.contact.value.org != org then Err(ForeignContact) else Ok(attrs)
  }

  /** Read-only fields are dropped from the input; the hidden `owner` is the requesting user. */
  function Accepted(p: Payload, user: UserId, hiddenOwner: bool): (r: Payload)
    ensures r.org.None? && r.createdAt.None? && r.updatedAt.None?
    ensures r.contact == p.contact && r.other == p.other
    ensures r.owner == if hiddenOwner then Some(user) else p.owner
  {
    Payload(None, if hiddenOwner then Some(user) else p.owner, None, None, p.contact, p.other)
  }

  /** The values a create saves: the validated data with the organization and owner the view supplies. */
  datatype Saved = Saved(org: OrgId, owner: Option<UserId>, contact: Option<ContactRef>, other: map<string, string>)

  /** `EventSerializer` then `perform_create(serializer.save(org=self.org))`; events have no owner. */
  function CreateEvent(p: Payload, org: OrgId, user: UserId): (r: Result<Saved>)
    ensures r.Err? <==> p.contact.Some? && p.contact.value.org != org
    ensures r.Ok? ==> r.value == Saved(org, None, p.contact, p.other)
  {
    var v := ValidateContact(Accepted(p, user, false), org);
    if v.Err? then Err(v.error) else Ok(Saved(org, None, v.value.contact, v.value.other))
  }

  /** `NoteSerializer.create`: `org` and `owner` are set from the request over whatever the data held. */
  function CreateNote(p: Payload, org: OrgId, user: UserId): (r: Result<Saved>)
    ensures r.Err? <==> p.contact.Some? && p.contact.value.org != org
    ensures r.Ok? ==> r.value == Saved(org, Some(user), p.contact, p.other)
  {
    var v := ValidateContact(Accepted(p, user, true), org);
    if v.Err? then Err(v.error) else Ok(Saved(org, Some(user), v.value.contact, v.value.other))
  }

  /** Whatever organization and owner a note payload names, the saved note is the requester's, in the request's organization. */
  lemma NoteOwnershipForced(p: Payload, q: Payload, org: OrgId, user: UserId)
    requires p.contact == q.contact && p.other == q.other
    ensures CreateNote(p, org, user) == CreateNote(q, org, user)
  {
  }

  /** A payload without a contact always passes the organization check. */
  lemma NoContactAccepted(p: Payload, org: OrgId, user: UserId)
    requires p.contact.None?
    ensures CreateNote(p, org, user).Ok? && CreateEvent(p, org, user).Ok?
  {
  }
}
