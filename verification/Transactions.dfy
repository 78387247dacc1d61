/**
  The database transactions of the gateway, each as a function of the stored state
  (apps/meetings/services.py, apps/meetings/tasks.py, apps/meetings/admin.py).
 */
module Transactions {
  import opened Wrappers
  import opened Configuration
  import opened Models
  import opened Text
  import opened Rooms
  import opened Provider

  /** The validated body of a creation request. */
  datatype Values = Values(classId: string, details: Details, startAt: int, endAt: int)

  // ---------------------------------------------------------------------------------------------
  // register
  // ---------------------------------------------------------------------------------------------

  function DraftRow(client: ClientId, values: Values): Meeting {
    Meeting(client, values.classId, values.details, Some(values.startAt), Some(values.endAt), None, None, false,
            NO_PROVIDER_FIELDS, None, Draft, None, 0)
  }

  function RowsOf(meetings: Meetings, client: ClientId, classId: string): set<MeetingId> {
    set id | id in meetings && meetings[id].client == client && meetings[id].classId == classId
  }

  predicate SameRequest(row: Meeting, values: Values) {
    && row.details == values.details
    && (row.startAt.Some? ==> row.startAt.value == values.startAt)
    && (row.endAt.Some? ==> row.endAt.value == values.endAt)
  }

  datatype Registration = Found(db: Db, id: MeetingId, created: bool) | RegistrationRefused(code: Refusal)

  /** `register`: get the row of (client, class) or create it under the new id. */
  function Register(db: Db, client: ClientId, values: Values, newId: MeetingId): Registration
    requires newId !in db.meetings
  {
    var rows := RowsOf(db.meetings, client, values.classId);
    if rows == {} then
      match Save(db, newId, DraftRow(client, values))
      case Saved(after) => Found(after, newId, true)
      case _ => RegistrationRefused(ServerError)
    else if exists id | id in rows :: rows == {id} then
      var id :| id in rows && rows == {id};
      if SameRequest(db.meetings[id], values) then Found(db, id, false)
      else RegistrationRefused(ExistingMeetingMismatch)
    else
      RegistrationRefused(ExistingMeetingRequiresReview)
  }

  // ---------------------------------------------------------------------------------------------
  // provision: the first transaction
  // ---------------------------------------------------------------------------------------------

  datatype Beginning = Replayed | Begun(db: Db, retrying: bool) | BeginRefused(code: Refusal)

  function DateOf(cfg: Settings, instant: int): int {
    (instant + cfg.utcOffset) / 1440
  }

  /** The title replaces whatever the presets say; `meetingTitle` is never sent. */
  function FinalPayload(base: Dict, title: string): Dict {
    (base - {"meetingTitle"})["title" := JStr(title)]
  }

  /** The reservation step of a creation: a retry resumes its own hold, everything else allocates. */
  function Reserve(cfg: Settings, db: Db, id: MeetingId, startAt: int, endAt: int): (r: Result<Db, Refusal>)
    requires id in db.meetings
    ensures r.Ok? ==> id in r.value.meetings && r.value.meetings[id].room.Some?
  {
    var locked := db.meetings[id];
    if locked.status == RetryableFailed && locked.active && locked.room.Some? then Ok(db)
    else
      match Save(db, id, locked.(status := Draft))
      case Saved(draft) => AllocateAnyRoom(cfg, draft, id, startAt, endAt)
      case _ => Err(ServerError)
  }

  function BasePayload(cfg: Settings, db: Db, row: Meeting, retrying: bool): Option<Dict>
    requires row.room.Some?
  {
    if retrying && row.payload.Some? then row.payload
    else if row.room.value in db.rooms then ResolveFor(cfg, db, row.client, db.rooms[row.room.value])
    else None
  }

  function Prepare(cfg: Settings, db: Db, id: MeetingId, retrying: bool): (r: Beginning)
    requires id in db.meetings && db.meetings[id].room.Some?
    ensures r.Begun? ==> id in r.db.meetings && r.db.meetings[id].room.Some? && r.db.meetings[id].payload.Some?
  {
    var row := db.meetings[id];
    var base := BasePayload(cfg, db, row, retrying);
    if base.None? then BeginRefused(ServerError)
    else
      var payload := FinalPayload(base.value, row.details.title);
      if "meetingType" !in payload then BeginRefused(ServerError)
      else if payload["meetingType"] == JStr("scheduled") then BeginRefused(ProviderContractUnconfirmed)
      else
        match Save(db, id, row.(payload := Some(payload), status := Provisioning))
        case Saved(after) => Begun(after, retrying)
        case _ => BeginRefused(ServerError)
  }

  /** `provision`, up to the commit before the provider is called. A refusal rolls everything back. */
  function Begin(cfg: Settings, db: Db, id: MeetingId, startAt: int, endAt: int): (r: Beginning)
    requires id in db.meetings
    ensures r.Begun? ==> id in r.db.meetings && r.db.meetings[id].room.Some? && r.db.meetings[id].payload.Some?
  {
    var locked := db.meetings[id];
    match locked.status
    case Ready => Replayed
    case Live => Replayed
    case Reserved => BeginRefused(CreationInProgress)
    case Provisioning => BeginRefused(CreationInProgress)
    case ProviderStateUnknown => BeginRefused(ProviderReconciliationRequired)
    case ProviderResponseInvalid => BeginRefused(ProviderReconciliationRequired)
    case Ended => BeginRefused(ClassAlreadyCompleted)
    case NonRetryableFailed => BeginRefused(PreviousCreationFailed)
    case Failed => BeginRefused(PreviousCreationFailed)
    case Cancelled => BeginRefused(ClassCancelled)
    case _ =>
      var retrying := locked.status == RetryableFailed;
      if retrying && AnyTruthy(locked.provider) then BeginRefused(ProviderReconciliationRequired)
      else if DateOf(cfg, startAt) != locked.details.classDate then BeginRefused(ClassDateMismatch)
      else
        var reserved := Reserve(cfg, db, id, startAt, endAt);
        if reserved.Err? then BeginRefused(reserved.error)
        else Prepare(cfg, reserved.value, id, retrying)
  }

  // ---------------------------------------------------------------------------------------------
  // provision: the second transaction
  // ---------------------------------------------------------------------------------------------

  function FailureStatus(error: ProviderError): Status {
    if error.ambiguous then ProviderStateUnknown
    else if error.code in {Unavailable, RateLimited, AuthBusy} then RetryableFailed
    else NonRetryableFailed
  }

  /** The row of the error commit. It does not look at the status it overwrites. */
  function FailedRow(row: Meeting, error: ProviderError): Meeting {
    var noted := match error.knownCreated
      case Some(result) =>
        row.(status := ProviderResponseInvalid, active := true,
             provider := row.provider.(calendarId := Some(result.calendarId), uniqueId := result.uniqueId,
                                       panelAddress := result.panelAddress))
      case None =>
        row.(status := FailureStatus(error), active := error.ambiguous || FailureStatus(error) == RetryableFailed);
    noted.(lastError := Some(error.code))
  }

  function CommitFailure(db: Db, id: MeetingId, error: ProviderError): SaveResult
    requires id in db.meetings
  {
    Save(db, id, FailedRow(db.meetings[id], error))
  }

  function Coalesce(stored: Option<string>, reported: Option<string>): Option<string> {
    if Truthy(stored) then stored else reported
  }

  /** The success commit still accepts the row. */
  predicate AcceptsSuccess(row: Meeting) {
    row.status in {Provisioning, ProviderStateUnknown}
  }

  function ReadyRow(row: Meeting, data: MeetingResult): Meeting {
    row.(provider := ProviderFields(
           Coalesce(row.provider.calendarId, Some(data.calendarId)),
           Coalesce(row.provider.uniqueId, data.uniqueId),
           Coalesce(row.provider.panelAddress, data.panelAddress),
           if row.provider.startUrl.Some? then row.provider.startUrl
           else if Truthy(data.startUrl) then data.startUrl else None),
         status := Ready, lastError := None)
  }

  function CommitSuccess(db: Db, id: MeetingId, data: MeetingResult): SaveResult
    requires id in db.meetings && AcceptsSuccess(db.meetings[id])
  {
    Save(db, id, ReadyRow(db.meetings[id], data))
  }

  // ---------------------------------------------------------------------------------------------
  // cancel, the stale sweep and the operator actions
  // ---------------------------------------------------------------------------------------------

  predicate Cancellable(status: Status) {
    status in {Draft, Reserved, Failed, RetryableFailed, NonRetryableFailed}
  }

  function CancelledRow(row: Meeting): Meeting {
    row.(status := Cancelled, active := false)
  }

  /** `cancel`: Err is the refusal; a cancelled row stays as it is. */
  function Cancel(db: Db, id: MeetingId): Result<SaveResult, Refusal>
    requires id in db.meetings
  {
    var row := db.meetings[id];
    if row.status == Cancelled then Ok(Saved(db))
    else if !Cancellable(row.status) then Err(ProviderReconciliationRequired)
    else Ok(Save(db, id, CancelledRow(row)))
  }

  const STALE_MINUTES := 10

  predicate Stale(row: Meeting, now: int) {
    row.status == Provisioning && row.updatedAt < now - STALE_MINUTES
  }

  function UnknownRow(row: Meeting): Meeting {
    row.(status := ProviderStateUnknown, lastError := Some(Interrupted))
  }

  predicate Releasable(status: Status) {
    status in {Ready, Live, ProviderResponseInvalid, ProviderStateUnknown}
  }

  function EndedRow(row: Meeting): Meeting {
    row.(status := Ended, active := false)
  }

  /** The recovery form as it is submitted. */
  datatype RecoveryForm = RecoveryForm(calendarId: string, panelAddress: string, startUrl: string)

  /**
    `clean` over the row as it is now, for a form whose instance was loaded earlier: None is a form
    error, Some says whether the values were validated. The calendar id and the panel address are
    fields of the form only when the loaded row was UNKNOWN, and then they are required. A row that is
    not UNKNOWN is let through without looking at the values.
   */
  function CheckRecovery(cfg: Settings, loaded: Meeting, row: Meeting, form: RecoveryForm): Option<bool> {
    var editable := loaded.status == ProviderStateUnknown;
    if editable && (Strip(form.calendarId) == "" || Strip(form.panelAddress) == "") then None
    else if row.status != ProviderStateUnknown then Some(false)
    else if !editable || Strip(form.startUrl) == "" then None
    else if Truthy(row.provider.calendarId) && row.provider.calendarId.value != Strip(form.calendarId) then None
    else if !TrustedUrl(cfg, Strip(form.startUrl)) then None
    else Some(true)
  }

  /** The instance of the form: the loaded row with the fields that the form could edit. */
  function EditedRow(loaded: Meeting, form: RecoveryForm): Meeting {
    if loaded.status == ProviderStateUnknown then
      loaded.(provider := loaded.provider.(calendarId := Some(Strip(form.calendarId)),
                                           panelAddress := Some(Strip(form.panelAddress))))
    else loaded
  }

  /** The UNKNOWN branch of `save_model` goes on: the check under the lock. */
  predicate RecoveryAccepted(row: Meeting, loaded: Meeting, form: RecoveryForm) {
    && row.status == ProviderStateUnknown
    && (Truthy(row.provider.calendarId) ==> row.provider.calendarId == EditedRow(loaded, form).provider.calendarId)
  }

  /** What the UNKNOWN branch writes: the whole instance, with the submitted start URL. */
  function RecoveredRow(loaded: Meeting, form: RecoveryForm): Meeting {
    var row := EditedRow(loaded, form);
    row.(provider := row.provider.(startUrl := Some(Strip(form.startUrl))),
         status := Ready, active := true, lastError := None)
  }
}
