/**
  The meeting-creation protocol as a state machine. Every database transaction is one step; a
  request between its two transactions is a live provider phase; crashes, the stale sweep,
  operators, internal cancellation, administrators and the clock interleave freely.
 */
module Protocol {
  import opened Wrappers
  import opened Configuration
  import opened Models
  import opened Rooms
  import opened Provider
  import opened Transactions

  type RequestId = nat
  type FormId = nat

  /** Where a request is inside its provider phase. */
  datatype Progress =
    | FirstToken                                                   // before the first creation call
    | SecondToken                                                  // after a confirmed 401
    | Finished(outcome: Result<MeetingResult, ProviderError>)      // before the second transaction

  datatype Stage =
    | Registered
    | Calling(retrying: bool, room: PublicId, payload: Dict, progress: Progress)
    | Replying
    | Answered(code: int)
    | Refused(refusal: Refusal)
    | Gone

  datatype Request =
    | Unregistered(code: Refusal)
    | Request(client: ClientId, values: Values, id: MeetingId, created: bool, stage: Stage)

  /** One creation call as it leaves the gateway. */
  datatype CallRecord = CallRecord(id: MeetingId, room: PublicId, slot: Option<Range>, payload: Dict)

  /** One meeting that came into being at the provider. */
  datatype Creation = Creation(id: MeetingId, client: ClientId, classId: string)

  /** An operator's recovery form: the row its instance was loaded from, and what `clean` said. */
  datatype Page = Page(id: MeetingId, form: RecoveryForm, loaded: Meeting, checked: Option<bool>)

  /** `requests` keeps answered requests; `calls` and `creations` record what the provider saw. */
  datatype State = State(
    db: Db,
    requests: map<RequestId, Request>,
    forms: map<FormId, Page>,
    calls: seq<CallRecord>,
    creations: seq<Creation>
  )

  datatype Event =
    | Post(req: RequestId, client: ClientId, values: Values, newId: MeetingId)
    | BeginProvision(req: RequestId)
    | TokenFails(req: RequestId, error: ProviderError)
    | Call(req: RequestId, exchange: Exchange, creates: bool)
    | Commit(req: RequestId)
    | Reply(req: RequestId, delivered: bool)
    | Crash(req: RequestId)
    | Sweep(id: MeetingId)
    | OpenForm(page: FormId, id: MeetingId, form: RecoveryForm)
    | CheckForm(page: FormId)
    | SaveForm(page: FormId)
    | Release(id: MeetingId)
    | CancelMeeting(id: MeetingId)
    | Administer(rooms: map<PublicId, Room>, presets: Presets)
    | Tick(now: int)

  predicate HasStage(s: State, req: RequestId) {
    req in s.requests && s.requests[req].Request? && s.requests[req].id in s.db.meetings
  }

  /** The request is between its two transactions. */
  predicate IsLive(s: State, req: RequestId) {
    HasStage(s, req) && s.requests[req].stage.Calling?
  }

  predicate LiveOn(s: State, req: RequestId, id: MeetingId) {
    IsLive(s, req) && s.requests[req].id == id
  }

  predicate HasForm(s: State, page: FormId) {
    page in s.forms && s.forms[page].id in s.db.meetings
  }

  predicate Unsettled(stage: Stage) {
    stage.Registered? || stage.Calling? || stage.Replying?
  }

  function SetStage(s: State, req: RequestId, stage: Stage): State
    requires HasStage(s, req)
  {
    s.(requests := s.requests[req := s.requests[req].(stage := stage)])
  }

  function Written(s: State, result: SaveResult): State {
    match result
    case Saved(after) => s.(db := after)
    case _ => s
  }

  function PostStep(s: State, req: RequestId, client: ClientId, values: Values, newId: MeetingId): State
    requires req !in s.requests && newId !in s.db.meetings
  {
    if values.startAt >= values.endAt then s.(requests := s.requests[req := Unregistered(InvalidRequest)])
    else
      match Register(s.db, client, values, newId)
      case RegistrationRefused(code) => s.(requests := s.requests[req := Unregistered(code)])
      case Found(after, id, created) =>
        s.(db := after, requests := s.requests[req := Request(client, values, id, created, Stage.Registered)])
  }

  function BeginStep(cfg: Settings, s: State, req: RequestId): State
    requires HasStage(s, req)
  {
    var request := s.requests[req];
    match Begin(cfg, s.db, request.id, request.values.startAt, request.values.endAt)
    case Replayed => SetStage(s, req, Replying)
    case BeginRefused(code) => SetStage(s, req, Refused(code))
    case Begun(after, retrying) =>
      var row := after.meetings[request.id];
      SetStage(s, req, Calling(retrying, row.room.value, row.payload.value, FirstToken)).(db := after)
  }

  /** The progress after one creation call: only the first confirmed 401 is repeated. */
  function AfterCall(progress: Progress, outcome: Result<MeetingResult, ProviderError>): Progress {
    if progress.FirstToken? && outcome.Err? && outcome.error.statusCode == Some(401) then SecondToken
    else Finished(outcome)
  }

  function CallStep(cfg: Settings, s: State, req: RequestId, exchange: Exchange, creates: bool): State
    requires IsLive(s, req)
  {
    var request := s.requests[req];
    var stage, row := request.stage, s.db.meetings[request.id];
    var next := stage.(progress := AfterCall(stage.progress, StartMeeting(cfg, exchange)));
    SetStage(s, req, next).(
      calls := s.calls + [CallRecord(request.id, stage.room, row.reservation, stage.payload)],
      creations := if creates then s.creations + [Creation(request.id, row.client, row.classId)] else s.creations)
  }

  function CommitStep(s: State, req: RequestId): State
    requires IsLive(s, req) && s.requests[req].stage.progress.Finished?
  {
    var request := s.requests[req];
    match request.stage.progress.outcome
    case Err(error) =>
      // An aborted error commit surfaces as a server error and leaves the row alone.
      var result := CommitFailure(s.db, request.id, error);
      SetStage(Written(s, result), req, Refused(if result.Saved? then ProviderRefusal else ServerError))
    case Ok(data) =>
      if !AcceptsSuccess(s.db.meetings[request.id]) then SetStage(s, req, Refused(ProviderReconciliationRequired))
      else
        var result := CommitSuccess(s.db, request.id, data);
        SetStage(Written(s, result), req, if result.Saved? then Replying else Refused(ServerError))
  }

  /** `clean` reads the row again, without a lock; a form error ends the attempt. */
  function CheckStep(cfg: Settings, s: State, page: FormId): State
    requires HasForm(s, page)
  {
    var p := s.forms[page];
    var checked := CheckRecovery(cfg, p.loaded, s.db.meetings[p.id], p.form);
    s.(forms := if checked.None? then s.forms - {page} else s.forms[page := p.(checked := checked)])
  }

  /** `save_model` under the row lock, for a row that is UNKNOWN by now. */
  function SaveStep(s: State, page: FormId): State
    requires HasForm(s, page)
  {
    var p := s.forms[page];
    var left := s.(forms := s.forms - {page});
    if RecoveryAccepted(s.db.meetings[p.id], p.loaded, p.form)
    then Written(left, Save(s.db, p.id, RecoveredRow(p.loaded, p.form))) else left
  }

  predicate Enabled(s: State, event: Event) {
    match event
    case Post(req, _, _, newId) => req !in s.requests && newId !in s.db.meetings
    case BeginProvision(req) => HasStage(s, req) && s.requests[req].stage.Registered?
    case TokenFails(req, error) => IsLive(s, req) && !s.requests[req].stage.progress.Finished? && Definite(error)
    // The one assumption about the provider: a definite refusal created nothing.
    case Call(req, exchange, creates) =>
      IsLive(s, req) && !s.requests[req].stage.progress.Finished? && (creates ==> !DefiniteRefusal(exchange))
    case Commit(req) => IsLive(s, req) && s.requests[req].stage.progress.Finished?
    case Reply(req, _) => HasStage(s, req) && s.requests[req].stage.Replying?
    case Crash(req) => HasStage(s, req) && Unsettled(s.requests[req].stage)
    case Sweep(id) => id in s.db.meetings && Stale(s.db.meetings[id], s.db.now)
    case OpenForm(page, id, _) => page !in s.forms && id in s.db.meetings
    case CheckForm(page) => HasForm(s, page) && s.forms[page].checked.None?
    // Only the UNKNOWN branch of the save.
    case SaveForm(page) =>
      HasForm(s, page) && s.forms[page].checked.Some? && s.db.meetings[s.forms[page].id].status == ProviderStateUnknown
    case Release(id) => id in s.db.meetings && Releasable(s.db.meetings[id].status)
    case CancelMeeting(id) => id in s.db.meetings
    case Administer(rooms, _) => s.db.rooms.Keys <= rooms.Keys
    case Tick(now) => s.db.now <= now
  }

  /** One step; an event that is not enabled changes nothing. */
  function Next(cfg: Settings, s: State, event: Event): State {
    if !Enabled(s, event) then s
    else
      match event
      case Post(req, client, values, newId) => PostStep(s, req, client, values, newId)
      case BeginProvision(req) => BeginStep(cfg, s, req)
      case TokenFails(req, error) => SetStage(s, req, s.requests[req].stage.(progress := Finished(Err(error))))
      case Call(req, exchange, creates) => CallStep(cfg, s, req, exchange, creates)
      case Commit(req) => CommitStep(s, req)
      case Reply(req, delivered) =>
        var code := if s.requests[req].created then 201 else 200;
        SetStage(s, req, if delivered then Stage.Answered(code) else Refused(ServerError))
      case Crash(req) => SetStage(s, req, Gone)
      case Sweep(id) => Written(s, Save(s.db, id, UnknownRow(s.db.meetings[id])))
      case OpenForm(page, id, form) => s.(forms := s.forms[page := Page(id, form, s.db.meetings[id], None)])
      case CheckForm(page) => CheckStep(cfg, s, page)
      case SaveForm(page) => SaveStep(s, page)
      case Release(id) => Written(s, Save(s.db, id, EndedRow(s.db.meetings[id])))
      case CancelMeeting(id) =>
        (match Cancel(s.db, id)
         case Ok(result) => Written(s, result)
         case Err(_) => s)
      case Administer(rooms, presets) => s.(db := s.db.(rooms := rooms, presets := presets))
      case Tick(now) => s.(db := s.db.(now := now))
  }

  /** The state after a whole run. */
  function Execute(cfg: Settings, start: State, events: seq<Event>): State {
    if events == [] then start
    else Next(cfg, Execute(cfg, start, events[..|events| - 1]), events[|events| - 1])
  }

  /** A gateway without meetings; rooms, presets and the clock are arbitrary. */
  predicate Initial(s: State) {
    s.db.meetings == map[] && s.requests == map[] && s.forms == map[] && s.calls == [] && s.creations == []
  }

  /**
    The documented discipline (docs/architecture.md): operators reconcile an UNKNOWN row only after
    its creating request has finished.
   */
  ghost predicate Disciplined(s: State, event: Event) {
    match event
    case SaveForm(page) => page in s.forms ==> forall req :: !LiveOn(s, req, s.forms[page].id)
    case Release(id) =>
      id in s.db.meetings && s.db.meetings[id].status == ProviderStateUnknown ==> forall req :: !LiveOn(s, req, id)
    case _ => true
  }

  ghost predicate DisciplinedRun(cfg: Settings, start: State, events: seq<Event>) {
    forall i | 0 <= i < |events| :: Disciplined(Execute(cfg, start, events[..i]), events[i])
  }
}
