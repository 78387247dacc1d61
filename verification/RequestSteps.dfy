/**
  What each step of a request does, spelled out over the state before and after it.
 */
module RequestSteps {
  import opened Wrappers
  import opened Configuration
  import opened Models
  import opened Rooms
  import opened AllocatorProofs
  import opened Transactions
  import opened Protocol
  import opened Invariants
  import opened StepProofs
  import opened TierA
  import opened Eligibility

  /** The step changes the stage of one request and nothing else about requests, calls, forms or creations. */
  predicate OnlyStage(s: State, s': State, req: RequestId) {
    && req in s.requests && s.requests[req].Request? && req in s'.requests && s'.requests[req].Request?
    && s'.requests == s.requests[req := s.requests[req].(stage := s'.requests[req].stage)]
    && s'.calls == s.calls && s'.creations == s.creations && s'.forms == s.forms
  }

  // ---------------------------------------------------------------------------------------------
  // Registration
  // ---------------------------------------------------------------------------------------------

  predicate IsOf(row: Meeting, client: ClientId, classId: string) {
    row.client == client && row.classId == classId
  }

  /** The row stores exactly the data of the request. */
  predicate StoresRequest(row: Meeting, values: Values) {
    row.details == values.details && row.startAt == Some(values.startAt) && row.endAt == Some(values.endAt)
  }

  predicate NewDraft(row: Meeting, client: ClientId, values: Values, now: int) {
    && IsOf(row, client, values.classId) && StoresRequest(row, values) && row.status == Draft && !row.active
    && row.room.None? && row.reservation.None? && row.payload.None? && row.lastError.None?
    && row.provider == ProviderFields(None, None, None, None) && row.updatedAt == now
  }

  predicate NobodyIs(meetings: Meetings, client: ClientId, classId: string) {
    forall id | id in meetings :: !IsOf(meetings[id], client, classId)
  }

  lemma PostCreates(cfg: Settings, s: State, req: RequestId, client: ClientId, values: Values, newId: MeetingId)
    requires DbInv(cfg, s.db) && req !in s.requests && newId !in s.db.meetings && values.startAt < values.endAt
    requires NobodyIs(s.db.meetings, client, values.classId)
    ensures var s' := PostStep(s, req, client, values, newId);
      && newId in s'.db.meetings && NewDraft(s'.db.meetings[newId], client, values, s.db.now)
      && s' == s.(db := s.db.(meetings := s.db.meetings[newId := s'.db.meetings[newId]]),
                  requests := s.requests[req := Request(client, values, newId, true, Stage.Registered)])
  {
    assert RowsOf(s.db.meetings, client, values.classId) == {};
    DraftIsSaved(cfg, s.db, client, values, newId);
  }

  lemma PostFinds(
    cfg: Settings, s: State, req: RequestId, client: ClientId, values: Values, newId: MeetingId, id: MeetingId)
    requires DbInv(cfg, s.db) && req !in s.requests && newId !in s.db.meetings && values.startAt < values.endAt
    requires id in s.db.meetings && IsOf(s.db.meetings[id], client, values.classId)
    ensures PostStep(s, req, client, values, newId)
         == s.(requests := s.requests[req := if StoresRequest(s.db.meetings[id], values)
                                             then Request(client, values, id, false, Stage.Registered)
                                             else Unregistered(ExistingMeetingMismatch)])
  {
    OneRowPerKey(cfg, s.db, client, values.classId, id);
    assert RowOk(cfg, s.db.meetings[id]);
  }

  lemma PostIsAStep(cfg: Settings, s: State, req: RequestId, client: ClientId, values: Values, newId: MeetingId)
    requires Enabled(s, Post(req, client, values, newId))
    ensures Next(cfg, s, Post(req, client, values, newId)) == PostStep(s, req, client, values, newId)
  {
  }

  /**
    A POST finds the row of its (client, class) when it stores the same data, is refused as a mismatch
    when it stores other data, and creates a DRAFT when there is none. An empty interval is refused.
   */
  lemma PostAnswers(cfg: Settings, s: State, req: RequestId, client: ClientId, values: Values, newId: MeetingId)
    requires Inv(cfg, s) && Enabled(s, Post(req, client, values, newId))
    ensures var s' := Next(cfg, s, Post(req, client, values, newId));
      && s'.calls == s.calls && s'.creations == s.creations && s'.forms == s.forms
      && req in s'.requests && s'.requests == s.requests[req := s'.requests[req]]
      && (values.startAt >= values.endAt ==> s'.db == s.db && s'.requests[req] == Unregistered(InvalidRequest))
      && (values.startAt < values.endAt ==>
            && (forall id | id in s.db.meetings && IsOf(s.db.meetings[id], client, values.classId) ::
                  && s'.db == s.db
                  && s'.requests[req] == if StoresRequest(s.db.meetings[id], values)
                                         then Request(client, values, id, false, Stage.Registered)
                                         else Unregistered(ExistingMeetingMismatch))
            && (NobodyIs(s.db.meetings, client, values.classId) ==>
                  && s'.requests[req] == Request(client, values, newId, true, Stage.Registered)
                  && newId in s'.db.meetings && NewDraft(s'.db.meetings[newId], client, values, s.db.now)
                  && s'.db == s.db.(meetings := s.db.meetings[newId := s'.db.meetings[newId]])))
  {
    PostIsAStep(cfg, s, req, client, values, newId);
    if values.startAt < values.endAt {
      if NobodyIs(s.db.meetings, client, values.classId) {
        PostCreates(cfg, s, req, client, values, newId);
      } else {
        forall id | id in s.db.meetings && IsOf(s.db.meetings[id], client, values.classId)
          ensures PostStep(s, req, client, values, newId)
               == s.(requests := s.requests[req := if StoresRequest(s.db.meetings[id], values)
                                                   then Request(client, values, id, false, Stage.Registered)
                                                   else Unregistered(ExistingMeetingMismatch)])
        {
          PostFinds(cfg, s, req, client, values, newId, id);
        }
      }
    }
  }

  // ---------------------------------------------------------------------------------------------
  // The first transaction
  // ---------------------------------------------------------------------------------------------

  /** The start lies on the class date, in days of the service time zone. */
  predicate OnClassDate(cfg: Settings, values: Values) {
    values.details.classDate * 1440 <= values.startAt + cfg.utcOffset < (values.details.classDate + 1) * 1440
  }

  predicate HasProviderField(fields: ProviderFields) {
    || (fields.calendarId.Some? && fields.calendarId.value != "")
    || (fields.uniqueId.Some? && fields.uniqueId.value != "")
    || (fields.panelAddress.Some? && fields.panelAddress.value != "") || fields.startUrl.Some?
  }

  predicate TimesFit(cfg: Settings, values: Values) {
    && values.startAt < values.endAt
    && cfg.earliest <= values.startAt - cfg.bufferBefore && values.endAt + cfg.bufferAfter <= cfg.latest
  }

  function SlotOf(cfg: Settings, values: Values): Range {
    Range(values.startAt - cfg.bufferBefore, values.endAt + cfg.bufferAfter)
  }

  ghost predicate SomeRoomIsOpen(cfg: Settings, db: Db, client: ClientId, slot: Range) {
    exists room :: OpenFor(cfg, db, client, room, slot)
  }

  predicate SomeRoomIsActive(db: Db) {
    exists room :: room in db.rooms && db.rooms[room].isActive
  }

  /** The stage that the first transaction gives its request, by the status of the locked row. */
  ghost predicate BeginStage(cfg: Settings, db: Db, request: Request, row: Meeting, stage: Stage)
    requires request.Request?
  {
    match row.status
    case Ready => stage == Replying
    case Live => stage == Replying
    case Reserved => stage == Refused(CreationInProgress)
    case Provisioning => stage == Refused(CreationInProgress)
    case ProviderStateUnknown => stage == Refused(ProviderReconciliationRequired)
    case ProviderResponseInvalid => stage == Refused(ProviderReconciliationRequired)
    case Ended => stage == Refused(ClassAlreadyCompleted)
    case NonRetryableFailed => stage == Refused(PreviousCreationFailed)
    case Failed => stage == Refused(PreviousCreationFailed)
    case Cancelled => stage == Refused(ClassCancelled)
    case RetryableFailed =>
      if HasProviderField(row.provider) then stage == Refused(ProviderReconciliationRequired)
      else if !OnClassDate(cfg, request.values) then stage == Refused(ClassDateMismatch)
      else stage.Calling? && stage.retrying
    case Draft =>
      if !OnClassDate(cfg, request.values) then stage == Refused(ClassDateMismatch)
      else if !TimesFit(cfg, request.values) then
        stage == Refused(if SomeRoomIsActive(db) then InvalidInterval else NoCapacityAvailable)
      else if !SomeRoomIsOpen(cfg, db, request.client, SlotOf(cfg, request.values)) then
        stage == Refused(NoCapacityAvailable)
      else stage.Calling? && !stage.retrying
  }

  lemma DateIsInDays(cfg: Settings, values: Values)
    ensures DateOf(cfg, values.startAt) == values.details.classDate <==> OnClassDate(cfg, values)
  {
  }

  lemma AvailableIffSomeRoomIsOpen(cfg: Settings, db: Db, client: ClientId, values: Values)
    requires DbInv(cfg, db)
    ensures Availability(cfg, db, client, values.startAt, values.endAt) == Ok(true)
       <==> TimesFit(cfg, values) && SomeRoomIsOpen(cfg, db, client, SlotOf(cfg, values))
  {
    forall room
      ensures Eligible(cfg, db, client, room, SlotOf(cfg, values))
         <==> OpenFor(cfg, db, client, room, SlotOf(cfg, values))
    {
      EligibleIffOpen(cfg, db, client, room, SlotOf(cfg, values));
    }
  }

  lemma ActiveRoomsExist(db: Db)
    ensures ActiveRooms(db.rooms) != {} <==> SomeRoomIsActive(db)
  {
    if SomeRoomIsActive(db) {
      var room :| room in db.rooms && db.rooms[room].isActive;
      assert room in ActiveRooms(db.rooms);
    }
  }

  lemma DraftAnswer(cfg: Settings, db: Db, id: MeetingId, values: Values)
    requires DbInv(cfg, db) && id in db.meetings && db.meetings[id].status == Draft
    requires MatchesRequest(db.meetings[id], db.meetings[id].client, values)
    ensures var result := Begin(cfg, db, id, values.startAt, values.endAt);
      var opens := TimesFit(cfg, values) && SomeRoomIsOpen(cfg, db, db.meetings[id].client, SlotOf(cfg, values));
      && !result.Replayed?
      && (result.Begun? <==> OnClassDate(cfg, values) && opens)
      && (result.BeginRefused? ==>
            result.code == if !OnClassDate(cfg, values) then ClassDateMismatch
                           else if !TimesFit(cfg, values) && SomeRoomIsActive(db) then InvalidInterval
                           else NoCapacityAvailable)
  {
    DateIsInDays(cfg, values);
    AvailableIffSomeRoomIsOpen(cfg, db, db.meetings[id].client, values);
    ActiveRoomsExist(db);
    DraftBeginsIffAvailable(cfg, db, id, values.startAt, values.endAt);
  }

  lemma DraftStage(cfg: Settings, s: State, req: RequestId)
    requires DbInv(cfg, s.db) && HasStage(s, req)
    requires s.db.meetings[s.requests[req].id].status == Draft
    requires MatchesRequest(s.db.meetings[s.requests[req].id], s.requests[req].client, s.requests[req].values)
    ensures BeginStage(cfg, s.db, s.requests[req], s.db.meetings[s.requests[req].id],
                       BeginStep(cfg, s, req).requests[req].stage)
    ensures !BeginStep(cfg, s, req).requests[req].stage.Calling? ==> BeginStep(cfg, s, req).db == s.db
  {
    DraftAnswer(cfg, s.db, s.requests[req].id, s.requests[req].values);
  }

  lemma RetryStage(cfg: Settings, s: State, req: RequestId)
    requires DbInv(cfg, s.db) && HasStage(s, req)
    requires s.db.meetings[s.requests[req].id].status == RetryableFailed
    requires MatchesRequest(s.db.meetings[s.requests[req].id], s.requests[req].client, s.requests[req].values)
    ensures BeginStage(cfg, s.db, s.requests[req], s.db.meetings[s.requests[req].id],
                       BeginStep(cfg, s, req).requests[req].stage)
    ensures !BeginStep(cfg, s, req).requests[req].stage.Calling? ==> BeginStep(cfg, s, req).db == s.db
  {
    DateIsInDays(cfg, s.requests[req].values);
    RetryResumes(cfg, s.db, s.requests[req].id, s.requests[req].values.startAt, s.requests[req].values.endAt);
  }

  lemma SettledStage(cfg: Settings, s: State, req: RequestId)
    requires HasStage(s, req) && s.db.meetings[s.requests[req].id].status !in {Draft, RetryableFailed}
    ensures BeginStage(cfg, s.db, s.requests[req], s.db.meetings[s.requests[req].id],
                       BeginStep(cfg, s, req).requests[req].stage)
    ensures BeginStep(cfg, s, req).db == s.db
  {
  }

  /**
    The first transaction by the status of its row: READY and LIVE are replayed, every other settled
    status has its own refusal, a failed row is resumed and a draft starts when a room is open. Without
    a start nothing is changed but the stage of the request.
   */
  lemma BeginAnswers(cfg: Settings, s: State, req: RequestId)
    requires Inv(cfg, s) && Enabled(s, BeginProvision(req))
    ensures var s' := Next(cfg, s, BeginProvision(req));
      && OnlyStage(s, s', req)
      && BeginStage(cfg, s.db, s.requests[req], s.db.meetings[s.requests[req].id], s'.requests[req].stage)
      && (!s'.requests[req].stage.Calling? ==> s'.db == s.db)
  {
    assert RequestOk(s, s.requests[req]);
    BeginIsAStep(cfg, s, req);
    match s.db.meetings[s.requests[req].id].status {
      case Draft => DraftStage(cfg, s, req);
      case RetryableFailed => RetryStage(cfg, s, req);
      case _ => SettledStage(cfg, s, req);
    }
  }

  lemma BeginIsAStep(cfg: Settings, s: State, req: RequestId)
    requires Enabled(s, BeginProvision(req))
    ensures Next(cfg, s, BeginProvision(req)) == BeginStep(cfg, s, req)
    ensures OnlyStage(s, BeginStep(cfg, s, req), req)
  {
  }

  /** A replay is exactly what a READY row answers with, and a completed class exactly an ENDED one. */
  lemma ReplayIffReady(cfg: Settings, s: State, req: RequestId)
    requires Inv(cfg, s) && Enabled(s, BeginProvision(req))
    ensures var stage, status :=
      Next(cfg, s, BeginProvision(req)).requests[req].stage, s.db.meetings[s.requests[req].id].status;
      && (stage == Replying <==> status == Ready)
      && (stage == Refused(ClassAlreadyCompleted) <==> status == Ended)
      && (stage == Refused(ClassCancelled) <==> status == Cancelled)
      && (stage == Refused(PreviousCreationFailed) <==> status == NonRetryableFailed)
      && (stage == Refused(CreationInProgress) <==> status == Provisioning)
      && (stage.Calling? ==> status in {Draft, RetryableFailed})
  {
    BeginAnswers(cfg, s, req);
    assert RequestOk(s, s.requests[req]) && RowOk(cfg, s.db.meetings[s.requests[req].id]);
  }

  /** A resumed row enters PROVISIONING, and nothing else about it changes. */
  lemma ResumedRow(cfg: Settings, s: State, req: RequestId)
    requires Inv(cfg, s) && Enabled(s, BeginProvision(req))
    requires s.db.meetings[s.requests[req].id].status == RetryableFailed
    requires Next(cfg, s, BeginProvision(req)).requests[req].stage.Calling?
    ensures var id := s.requests[req].id;
      var row, s' := s.db.meetings[id], Next(cfg, s, BeginProvision(req));
      && row.room.Some? && row.payload.Some?
      && s'.db == s.db.(meetings := s.db.meetings[id := row.(status := Provisioning, updatedAt := s.db.now)])
      && s'.requests[req].stage == Calling(true, row.room.value, row.payload.value, FirstToken)
  {
    var id, values := s.requests[req].id, s.requests[req].values;
    assert RowOk(cfg, s.db.meetings[id]);
    BeginIsAStep(cfg, s, req);
    RetryResumes(cfg, s.db, id, values.startAt, values.endAt);
    var row := Begin(cfg, s.db, id, values.startAt, values.endAt).db.meetings[id];
    assert row == s.db.meetings[id].(status := Provisioning, updatedAt := s.db.now);
  }

  /** (priority, public id) decides between two rooms. */
  predicate ComesFirst(rooms: map<PublicId, Room>, a: PublicId, b: PublicId)
    requires a in rooms && b in rooms
  {
    rooms[a].priority < rooms[b].priority || (rooms[a].priority == rooms[b].priority && a < b)
  }

  /** The first room of all that are open. */
  ghost predicate FirstOpenRoom(cfg: Settings, db: Db, client: ClientId, slot: Range, room: PublicId) {
    && OpenFor(cfg, db, client, room, slot)
    && forall other | OpenFor(cfg, db, client, other, slot) && other != room :: ComesFirst(db.rooms, room, other)
  }

  /** The payload is what the layers choose, under the given title. */
  ghost predicate ChosenPayload(cfg: Settings, p: Presetting, payload: Dict, title: string) {
    && Lookup(payload, "title") == Some(JStr(title)) && "meetingTitle" !in payload
    && Lookup(payload, "meetingType") == Some(ChosenType(cfg, p))
    && (forall key | key !in {"title", "meetingTitle", "meetingType", "config"} ::
          Lookup(payload, key) == Chosen(p, key))
    && (forall flag :: Lookup(FlagsOf(payload), flag) == ChosenFlag(p, flag))
  }

  lemma TitledPayloadFollows(cfg: Settings, p: Presetting, resolved: Dict, title: string)
    requires Follows(cfg, resolved, p)
    ensures ChosenPayload(cfg, p, FinalPayload(resolved, title), title)
  {
    assert |"title"| == 5 && |"meetingTitle"| == 12 && |"meetingType"| == 11 && |"config"| == 6;
  }

  /** The row of a creation that starts from a DRAFT. */
  ghost predicate StartedRow(cfg: Settings, db: Db, row: Meeting, row': Meeting, values: Values) {
    && row'.room.Some? && row'.room.value in db.rooms && row'.payload.Some?
    && FirstOpenRoom(cfg, db, row.client, SlotOf(cfg, values), row'.room.value)
    && row' == row.(room := row'.room, payload := row'.payload, reservation := Some(SlotOf(cfg, values)),
                    active := true, status := Provisioning, updatedAt := db.now)
    && exists p :: AppliesTo(db, row.client, db.rooms[row'.room.value], p)
                   && ChosenPayload(cfg, p, row'.payload.value, row.details.title)
  }

  lemma StartedInTheFirstOpenRoom(cfg: Settings, db: Db, id: MeetingId, slot: Range, room: PublicId)
    requires DbInv(cfg, db) && id in db.meetings
    requires LeastEligible(cfg, db.(meetings := db.meetings[id := db.meetings[id].(updatedAt := db.now)]),
                           db.meetings[id].client, slot, room)
    ensures FirstOpenRoom(cfg, db, db.meetings[id].client, slot, room)
  {
    var draft := db.(meetings := db.meetings[id := db.meetings[id].(updatedAt := db.now)]);
    StampChangesNoEligibility(cfg, db, draft, id, slot);
    forall other
      ensures Eligible(cfg, draft, db.meetings[id].client, other, slot)
         <==> OpenFor(cfg, db, db.meetings[id].client, other, slot)
    {
      EligibleIffOpen(cfg, db, db.meetings[id].client, other, slot);
    }
  }

  lemma FreshPayloadIsChosen(cfg: Settings, db: Db, client: ClientId, row: Meeting)
    requires FreshPayload(cfg, db, client, row)
    ensures exists p :: AppliesTo(db, client, db.rooms[row.room.value], p)
                        && ChosenPayload(cfg, p, row.payload.value, row.details.title)
  {
    var room := db.rooms[row.room.value];
    ValidLayersApply(cfg, db, client, room);
    ResolvesIffLayersAndTypeAreValid(cfg.defaultMeetingType, Layers(db.presets, client, room));
    var p :| AppliesTo(db, client, room, p) && ValidPresetting(p);
    ResolvedFollows(cfg, p, ResolveFor(cfg, db, client, room).value);
    TitledPayloadFollows(cfg, p, ResolveFor(cfg, db, client, room).value, row.details.title);
  }

  /**
    A creation that starts from a DRAFT takes the first open room by (priority, public id) with the
    buffered slot of its own times, and stores the payload that room, client and system presets choose.
   */
  lemma FreshRow(cfg: Settings, s: State, req: RequestId)
    requires Inv(cfg, s) && Enabled(s, BeginProvision(req))
    requires s.db.meetings[s.requests[req].id].status == Draft
    requires Next(cfg, s, BeginProvision(req)).requests[req].stage.Calling?
    ensures var id := s.requests[req].id;
      var s' := Next(cfg, s, BeginProvision(req));
      && id in s'.db.meetings && s'.db == s.db.(meetings := s.db.meetings[id := s'.db.meetings[id]])
      && StartedRow(cfg, s.db, s.db.meetings[id], s'.db.meetings[id], s.requests[req].values)
      && s'.requests[req].stage
         == Calling(false, s'.db.meetings[id].room.value, s'.db.meetings[id].payload.value, FirstToken)
  {
    var id, values := s.requests[req].id, s.requests[req].values;
    assert RequestOk(s, s.requests[req]) && RowOk(cfg, s.db.meetings[id]);
    BeginIsAStep(cfg, s, req);
    BeginShape(cfg, s.db, id, values.startAt, values.endAt);
    BegunIsStarted(cfg, s.db, id, values, Begin(cfg, s.db, id, values.startAt, values.endAt).db.meetings[id]);
  }

  lemma BegunIsStarted(cfg: Settings, db: Db, id: MeetingId, values: Values, row': Meeting)
    requires DbInv(cfg, db) && id in db.meetings && db.meetings[id].status == Draft
    requires MatchesRequest(db.meetings[id], db.meetings[id].client, values) && BegunRow(cfg, db, id, false, row')
    ensures StartedRow(cfg, db, db.meetings[id], row', values)
  {
    StartedInTheFirstOpenRoom(cfg, db, id, row'.reservation.value, row'.room.value);
    FreshPayloadIsChosen(cfg, db, db.meetings[id].client, row');
    BegunFields(cfg, db, id, values, row');
  }

  lemma BegunFields(cfg: Settings, db: Db, id: MeetingId, values: Values, row': Meeting)
    requires id in db.meetings && MatchesRequest(db.meetings[id], db.meetings[id].client, values)
    requires BegunRow(cfg, db, id, false, row')
    ensures row' == db.meetings[id].(
              room := row'.room, payload := row'.payload, reservation := Some(SlotOf(cfg, values)),
              active := true, status := Provisioning, updatedAt := db.now)
  {
  }
}
