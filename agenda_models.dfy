// The agenda records: appointments (events) and light notes or tasks that
// can be placed on a date. Only the fields the agenda queries read are kept.

module AgendaModels {
  import opened Common
  import opened Dates

  /** `created_at`/`updated_at`: an instant, only ever compared. */
  type Time = int

  /** `Event`: `end` may be null; `status` is scheduled, done or cancelled. */
  datatype Event = Event(
    id: nat,
    org: OrgId,
    start: DateTime,
    end: Option<DateTime>,
    isImportant: bool,
    contact: Option<ContactId>,
    status: string)

  /** `Note`: `due_date` may be null; `visibility` is "private" or "org". */
  datatype Note = Note(
    id: nat,
    org: OrgId,
    status: string,
    dueDate: Option<Date>,
    isImportant: bool,
    isPinned: bool,
    contact: Option<ContactId>,
    owner: Option<UserId>,
    visibility: string,
    createdAt: Time,
    updatedAt: Time)

  const EventStatusDefault := "scheduled"
  const NoteStatusDefault := "pending"
  const VisibilityDefault := "org"
}
