/**
  Every event keeps the invariant, hence every run does.
 */
module StepProofs {
  import opened Wrappers
  import opened Configuration
  import opened Models
  import opened Rooms
  import opened AllocatorProofs
  import opened Provider
  import opened Transactions
  import opened Protocol
  import opened Invariants

  // ---------------------------------------------------------------------------------------------
  // The first transaction of provision
  // ---------------------------------------------------------------------------------------------

  /** The payload is what the presets and the room resolve to now, under the row's own title. */
  predicate FreshPayload(cfg: Settings, db: Db, client: ClientId, row: Meeting) {
    && row.room.Some? && row.room.value in db.rooms
    && var resolved := ResolveFor(cfg, db, client, db.rooms[row.room.value]);
    && resolved.Some? && row.payload == Some(FinalPayload(resolved.value, row.details.title))
  }

  /** What a successful first transaction did to its row. */
  ghost predicate BegunRow(cfg: Settings, db: Db, id: MeetingId, retrying: bool, row: Meeting)
    requires id in db.meetings
  {
    var locked := db.meetings[id];
    && RowOk(cfg, row) && RoomKnown(db, row) && SameIdentity(locked, row)
    && row.status == Provisioning && row.provider == locked.provider && row.lastError == locked.lastError
    && row.updatedAt == db.now
    && ExclusionHolds(db.meetings, id, row)
    && (if retrying then
          locked.status == RetryableFailed && SameCore(locked, row) && !AnyTruthy(locked.provider)
        else
          && locked.status == Draft && FreshPayload(cfg, db, locked.client, row)
          && LeastEligible(cfg, db.(meetings := db.meetings[id := locked.(updatedAt := db.now)]), locked.client,
                           row.reservation.value, row.room.value))
  }

  ghost predicate BegunFrom(cfg: Settings, db: Db, id: MeetingId, retrying: bool, after: Db)
    requires id in db.meetings
  {
    && id in after.meetings
    && Wrote(db, after, id, after.meetings[id])
    && BegunRow(cfg, db, id, retrying, after.meetings[id])
  }

  lemma FinalPayloadOk(base: Dict, title: string)
    requires IsInstant(base)
    ensures PayloadOk(FinalPayload(base, title), title)
  {
    assert "meetingType" != "meetingTitle" by { assert |"meetingType"| != |"meetingTitle"|; }
    assert "meetingType" != "title" by { assert |"meetingType"| != |"title"|; }
    assert "meetingTitle" != "title" by { assert |"meetingTitle"| != |"title"|; }
  }

  /** Preparing a stored payload again gives the same payload. */
  lemma FinalPayloadIsStable(payload: Dict, title: string)
    requires PayloadOk(payload, title)
    ensures FinalPayload(payload, title) == payload
  {
    assert payload - {"meetingTitle"} == payload;
  }

  lemma {:induction false} RetryResumes(cfg: Settings, db: Db, id: MeetingId, startAt: int, endAt: int)
    requires DbInv(cfg, db) && id in db.meetings && db.meetings[id].status == RetryableFailed
    ensures Begin(cfg, db, id, startAt, endAt).Begun?
       <==> !AnyTruthy(db.meetings[id].provider) && DateOf(cfg, startAt) == db.meetings[id].details.classDate
    ensures Begin(cfg, db, id, startAt, endAt).Begun? ==>
      var result := Begin(cfg, db, id, startAt, endAt);
      result.retrying && BegunFrom(cfg, db, id, true, result.db) && DbInv(cfg, result.db)
  {
    var locked := db.meetings[id];
    assert RowOk(cfg, locked);
    FinalPayloadIsStable(locked.payload.value, locked.details.title);
    var row := locked.(status := Provisioning);
    assert row == locked.(payload := Some(FinalPayload(locked.payload.value, locked.details.title)),
        status := Provisioning);
    KeptHoldIsFree(cfg, db, id, row);
    SaveKeepsDb(cfg, db, id, row);
    assert IsInstant(locked.payload.value);
    assert JStr("instant") != JStr("scheduled") by { assert |"instant"| != |"scheduled"|; }
    assert ExclusionHolds(db.meetings, id, row.(updatedAt := db.now));
  }

  /** The reservation of a new creation and its payload, in one transaction. */
  lemma {:induction false} FreshStartReserves(cfg: Settings, db: Db, id: MeetingId, startAt: int, endAt: int)
    requires DbInv(cfg, db) && id in db.meetings && db.meetings[id].status == Draft
    requires db.meetings[id].startAt == Some(startAt) && db.meetings[id].endAt == Some(endAt)
    requires Begin(cfg, db, id, startAt, endAt).Begun?
    ensures var result := Begin(cfg, db, id, startAt, endAt);
      !result.retrying && BegunFrom(cfg, db, id, false, result.db) && DbInv(cfg, result.db)
  {
    var locked := db.meetings[id];
    assert RowOk(cfg, locked);
    KeptHoldIsFree(cfg, db, id, locked);
    SaveKeepsDb(cfg, db, id, locked);
    var draft := Save(db, id, locked).db;
    assert Save(db, id, locked.(status := Draft)) == Saved(draft);
    var room := AllocationTakesTheLeast(cfg, draft, id, startAt, endAt);
    var reserved := AllocateAnyRoom(cfg, draft, id, startAt, endAt);
    assert Reserve(cfg, db, id, startAt, endAt) == reserved;
    var slot := Interval(cfg, startAt, endAt).value;
    var held := reserved.value.meetings[id];
    assert ReservedFrom(draft, reserved.value, id, room, slot, startAt, endAt);
    ReservedThenPrepared(cfg, db, draft, reserved.value, id, room, slot, startAt, endAt);
  }

  function PreparedRow(row: Meeting, base: Dict): Meeting {
    row.(payload := Some(FinalPayload(base, row.details.title)), status := Provisioning)
  }

  /** With an instant payload the only thing left to do is the save. */
  lemma PrepareIsASave(cfg: Settings, db: Db, id: MeetingId, retrying: bool, base: Dict)
    requires id in db.meetings && db.meetings[id].room.Some?
    requires BasePayload(cfg, db, db.meetings[id], retrying) == Some(base) && IsInstant(base)
    requires Save(db, id, PreparedRow(db.meetings[id], base)).Saved?
    ensures Prepare(cfg, db, id, retrying) == Begun(Save(db, id, PreparedRow(db.meetings[id], base)).db, retrying)
  {
    FinalPayloadOk(base, db.meetings[id].details.title);
    assert JStr("instant") != JStr("scheduled") by { assert |"instant"| != |"scheduled"|; }
  }

  /** Saving over the reserved row in the same transaction is saving over the original one. */
  lemma SecondSaveReplacesTheFirst(db: Db, middle: Db, id: MeetingId, row: Meeting)
    requires id in db.meetings && id in middle.meetings && Wrote(db, middle, id, middle.meetings[id])
    requires Save(db, id, row).Saved?
    ensures Save(middle, id, row) == Save(db, id, row)
  {
    assert middle.meetings[id := row.(updatedAt := db.now)] == db.meetings[id := row.(updatedAt := db.now)];
    forall other | other in middle.meetings && other != id
      ensures !SameKey(middle.meetings[other], row) && !Clash(middle.meetings[other], row)
    {
      assert !SameKey(db.meetings[other], row) && !Clash(db.meetings[other], row);
    }
  }

  /** A slot that nobody occupied before the stamped draft is free of clashes. */
  lemma UnoccupiedSlotIsFree(db: Db, draft: Db, id: MeetingId, room: PublicId, slot: Range, row: Meeting)
    requires id in db.meetings && Wrote(db, draft, id, db.meetings[id].(updatedAt := db.now))
    requires !SlotTaken(draft.meetings, room, slot) && row.room == Some(room) && row.reservation == Some(slot)
    ensures ExclusionHolds(db.meetings, id, row)
  {
    forall other | other in db.meetings && other != id
      ensures !Clash(db.meetings[other], row)
    {
      assert !Occupies(draft.meetings[other], room, slot);
    }
  }

  /** The row that the two saves of a new creation amount to. */
  lemma PreparedRowIsGood(
    cfg: Settings, locked: Meeting, held: Meeting, base: Dict, room: PublicId, slot: Range,
    startAt: int, endAt: int, now: int)
    requires RowOk(cfg, locked) && locked.status == Draft && IsInstant(base)
    requires locked.startAt == Some(startAt) && locked.endAt == Some(endAt) && Interval(cfg, startAt, endAt) == Ok(slot)
    requires held.(updatedAt := now) == ReservedRow(locked, room, slot, startAt, endAt).(updatedAt := now)
    ensures var row := PreparedRow(held, base);
      && RowOk(cfg, row) && SameIdentity(locked, row) && row.active && row.status == Provisioning
      && row.room == Some(room) && row.reservation == Some(slot)
      && row.provider == locked.provider && row.lastError == locked.lastError
  {
    FinalPayloadOk(base, locked.details.title);
  }

  lemma {:induction false} ReservedThenPrepared(
    cfg: Settings, db: Db, draft: Db, reserved: Db, id: MeetingId, room: PublicId, slot: Range,
    startAt: int, endAt: int)
    requires DbInv(cfg, db) && id in db.meetings && db.meetings[id].status == Draft
    requires db.meetings[id].startAt == Some(startAt) && db.meetings[id].endAt == Some(endAt)
    requires Wrote(db, draft, id, db.meetings[id].(updatedAt := db.now))
    requires Interval(cfg, startAt, endAt) == Ok(slot)
    requires LeastEligible(cfg, draft, db.meetings[id].client, slot, room)
    requires ReservedFrom(draft, reserved, id, room, slot, startAt, endAt)
    ensures var result := Prepare(cfg, reserved, id, false);
      result.Begun? && BegunFrom(cfg, db, id, false, result.db) && DbInv(cfg, result.db)
  {
    var locked, held := db.meetings[id], reserved.meetings[id];
    assert RowOk(cfg, locked);
    var base := EligibleRoomHasAPayload(cfg, draft, reserved, id, room, slot, startAt, endAt);
    PreparedRowIsGood(cfg, locked, held, base, room, slot, startAt, endAt, db.now);
    BegunInTheLeastRoom(cfg, db, draft, id, room, slot, base, PreparedRow(held, base));
    PreparedReplacesReserved(cfg, db, reserved, id, base);
  }

  /** The room that was eligible for the draft resolves to an instant payload after the reservation too. */
  lemma EligibleRoomHasAPayload(
    cfg: Settings, draft: Db, reserved: Db, id: MeetingId, room: PublicId, slot: Range, startAt: int, endAt: int)
    returns (base: Dict)
    requires id in draft.meetings && Eligible(cfg, draft, draft.meetings[id].client, room, slot)
    requires ReservedFrom(draft, reserved, id, room, slot, startAt, endAt)
    ensures BasePayload(cfg, reserved, reserved.meetings[id], false) == Some(base) && IsInstant(base)
    ensures ResolveFor(cfg, draft, draft.meetings[id].client, draft.rooms[room]) == Some(base)
  {
    base := ResolveFor(cfg, draft, draft.meetings[id].client, draft.rooms[room]).value;
  }

  /** A good row in the least eligible room is what a fresh start leaves. */
  lemma BegunInTheLeastRoom(
    cfg: Settings, db: Db, draft: Db, id: MeetingId, room: PublicId, slot: Range, base: Dict, row: Meeting)
    requires id in db.meetings && db.meetings[id].status == Draft
    requires Wrote(db, draft, id, db.meetings[id].(updatedAt := db.now))
    requires LeastEligible(cfg, draft, db.meetings[id].client, slot, room)
    requires RowOk(cfg, row) && SameIdentity(db.meetings[id], row) && row.status == Provisioning
    requires row.room == Some(room) && row.reservation == Some(slot)
    requires ResolveFor(cfg, draft, db.meetings[id].client, draft.rooms[room]) == Some(base)
    requires row.payload == Some(FinalPayload(base, row.details.title))
    requires row.provider == db.meetings[id].provider && row.lastError == db.meetings[id].lastError
    ensures ExclusionHolds(db.meetings, id, row) && RoomKnown(db, row)
    ensures BegunRow(cfg, db, id, false, row.(updatedAt := db.now))
  {
    UnoccupiedSlotIsFree(db, draft, id, room, slot, row);
    UnoccupiedSlotIsFree(db, draft, id, room, slot, row.(updatedAt := db.now));
  }

  /** The two saves of the transaction amount to one over the original row. */
  lemma PreparedReplacesReserved(cfg: Settings, db: Db, reserved: Db, id: MeetingId, base: Dict)
    requires DbInv(cfg, db) && id in db.meetings && id in reserved.meetings
    requires Wrote(db, reserved, id, reserved.meetings[id]) && reserved.meetings[id].room.Some?
    requires BasePayload(cfg, reserved, reserved.meetings[id], false) == Some(base) && IsInstant(base)
    requires var row := PreparedRow(reserved.meetings[id], base);
      && RowOk(cfg, row) && RoomKnown(db, row) && SameIdentity(db.meetings[id], row)
      && ExclusionHolds(db.meetings, id, row)
    ensures var row, result := PreparedRow(reserved.meetings[id], base), Prepare(cfg, reserved, id, false);
      && result.Begun? && !result.retrying && Wrote(db, result.db, id, row.(updatedAt := db.now))
      && DbInv(cfg, result.db)
  {
    var row := PreparedRow(reserved.meetings[id], base);
    SaveKeepsDb(cfg, db, id, row);
    SecondSaveReplacesTheFirst(db, reserved, id, row);
    PrepareIsASave(cfg, reserved, id, false, base);
  }

  /** Every successful first transaction, fresh or resumed. */
  lemma {:induction false} BeginShape(cfg: Settings, db: Db, id: MeetingId, startAt: int, endAt: int)
    requires DbInv(cfg, db) && id in db.meetings
    requires db.meetings[id].startAt == Some(startAt) && db.meetings[id].endAt == Some(endAt)
    requires Begin(cfg, db, id, startAt, endAt).Begun?
    ensures var result := Begin(cfg, db, id, startAt, endAt);
      BegunFrom(cfg, db, id, result.retrying, result.db) && DbInv(cfg, result.db)
  {
    assert RowOk(cfg, db.meetings[id]);
    if db.meetings[id].status == RetryableFailed {
      RetryResumes(cfg, db, id, startAt, endAt);
    } else {
      assert db.meetings[id].status == Draft;
      FreshStartReserves(cfg, db, id, startAt, endAt);
    }
  }

  // ---------------------------------------------------------------------------------------------
  // The steps of a request
  // ---------------------------------------------------------------------------------------------

  /** Adding one settled or freshly registered request keeps the request part of the invariant. */
  lemma NewRequestKeepsInv(cfg: Settings, s: State, req: RequestId, request: Request)
    requires Inv(cfg, s) && req !in s.requests && RequestOk(s, request)
    requires request.Request? ==> !request.stage.Calling?
    requires request.Request? && request.created ==>
      forall r :: !(ClaimsCreation(s, r) && s.requests[r].id == request.id)
    ensures Inv(cfg, s.(requests := s.requests[req := request]))
  {
    var after := s.(requests := s.requests[req := request]);
    NewRequestJoins(s, req, request);
    RowsStay(s);
    HistoryCarries(s, after);
  }

  lemma NewRequestJoins(s: State, req: RequestId, request: Request)
    requires RequestsInv(s) && req !in s.requests && RequestOk(s, request)
    requires request.Request? ==> !request.stage.Calling?
    requires request.Request? && request.created ==>
      forall r :: !(ClaimsCreation(s, r) && s.requests[r].id == request.id)
    ensures var after := s.(requests := s.requests[req := request]);
      && RequestsInv(after)
      && forall r :: IsLive(after, r) ==> IsLive(s, r) && after.requests[r] == s.requests[r]
  {
    var after := s.(requests := s.requests[req := request]);
    forall r | r in after.requests
      ensures RequestOk(after, after.requests[r])
    {
      if r != req { assert RequestOk(s, s.requests[r]); }
    }
    assert forall r :: IsLive(after, r) ==> IsLive(s, r) && after.requests[r] == s.requests[r];
    assert forall r | r != req && ClaimsCreation(after, r) ::
        ClaimsCreation(s, r) && after.requests[r] == s.requests[r];
  }

  lemma DraftKeepsDb(cfg: Settings, db: Db, newId: MeetingId, row: Meeting)
    requires DbInv(cfg, db) && newId !in db.meetings && RowOk(cfg, row) && row.status == Draft
    requires KeyIsFree(db.meetings, newId, row)
    ensures DbInv(cfg, db.(meetings := db.meetings[newId := row]))
  {
    var after := db.meetings[newId := row];
    forall a, b | a in after && b in after && a != b
      ensures !SameKey(after[a], after[b]) && !Clash(after[a], after[b])
    {
      if a in db.meetings && b in db.meetings {
        assert !SameKey(db.meetings[a], db.meetings[b]) && !Clash(db.meetings[a], db.meetings[b]);
      } else if a == newId {
        assert !SameKey(db.meetings[b], row);
      } else {
        assert !SameKey(db.meetings[a], row);
      }
    }
  }

  lemma DraftIsSaved(cfg: Settings, db: Db, client: ClientId, values: Values, newId: MeetingId)
    requires DbInv(cfg, db) && newId !in db.meetings && values.startAt < values.endAt
    requires RowsOf(db.meetings, client, values.classId) == {}
    ensures Save(db, newId, DraftRow(client, values)).Saved?
    ensures var after := Save(db, newId, DraftRow(client, values)).db;
      Wrote(db, after, newId, DraftRow(client, values).(updatedAt := db.now)) && DbInv(cfg, after)
  {
    var row := DraftRow(client, values);
    forall other | other in db.meetings
      ensures !SameKey(db.meetings[other], row)
    {
      assert other !in RowsOf(db.meetings, client, values.classId);
    }
    DraftKeepsDb(cfg, db, newId, row.(updatedAt := db.now));
  }

  /** A new draft row touches nothing that exists. */
  lemma DraftKeepsInv(cfg: Settings, s: State, client: ClientId, values: Values, newId: MeetingId)
    requires Inv(cfg, s) && newId !in s.db.meetings && values.startAt < values.endAt
    requires RowsOf(s.db.meetings, client, values.classId) == {}
    ensures Save(s.db, newId, DraftRow(client, values)).Saved?
    ensures var after := Save(s.db, newId, DraftRow(client, values)).db;
      && Wrote(s.db, after, newId, DraftRow(client, values).(updatedAt := s.db.now))
      && Inv(cfg, s.(db := after))
      && forall r :: ClaimsCreation(s.(db := after), r) ==> s.requests[r].id != newId
  {
    DraftIsSaved(cfg, s.db, client, values, newId);
    var after := Save(s.db, newId, DraftRow(client, values)).db;
    RequestsIgnoreDrafts(s, after, newId, after.meetings[newId]);
    HistoryIgnoresDrafts(s, after, newId, after.meetings[newId]);
  }

  lemma HistoryIgnoresDrafts(s: State, after: Db, newId: MeetingId, row: Meeting)
    requires HistoryInv(s) && newId !in s.db.meetings && Wrote(s.db, after, newId, row)
    requires forall r :: IsLive(s.(db := after), r) ==> IsLive(s, r)
    ensures HistoryInv(s.(db := after))
  {
    RowsStay(s);
    HistoryCarries(s, s.(db := after));
  }

  /** A new row is nobody's request. */
  lemma RequestsIgnoreDrafts(s: State, after: Db, newId: MeetingId, row: Meeting)
    requires RequestsInv(s) && newId !in s.db.meetings && Wrote(s.db, after, newId, row)
    ensures RequestsInv(s.(db := after))
    ensures forall r :: IsLive(s.(db := after), r) ==> IsLive(s, r)
    ensures forall r :: ClaimsCreation(s.(db := after), r) ==> s.requests[r].id != newId
  {
    var s' := s.(db := after);
    forall r | r in s.requests
      ensures RequestOk(s', s.requests[r])
      ensures s.requests[r].Request? ==> s.requests[r].id != newId
    {
      assert RequestOk(s, s.requests[r]);
    }
    assert forall r :: IsLive(s', r) ==> IsLive(s, r);
    assert forall r :: ClaimsCreation(s', r) ==> ClaimsCreation(s, r);
  }

  lemma PostKeepsInv(cfg: Settings, s: State, req: RequestId, client: ClientId, values: Values, newId: MeetingId)
    requires Inv(cfg, s) && req !in s.requests && newId !in s.db.meetings
    ensures Inv(cfg, PostStep(s, req, client, values, newId))
  {
    if values.startAt >= values.endAt {
      NewRequestKeepsInv(cfg, s, req, Unregistered(InvalidRequest));
    } else {
      var rows := RowsOf(s.db.meetings, client, values.classId);
      match Register(s.db, client, values, newId) {
        case RegistrationRefused(code) =>
          if rows == {} {
            DraftKeepsInv(cfg, s, client, values, newId);
          }
          NewRequestKeepsInv(cfg, s, req, Unregistered(code));
        case Found(after, id, created) =>
          var request := Request(client, values, id, created, Stage.Registered);
          if rows == {} {
            DraftKeepsInv(cfg, s, client, values, newId);
            NewRequestKeepsInv(cfg, s.(db := after), req, request);
          } else {
            assert id in rows && RowOk(cfg, s.db.meetings[id]);
            NewRequestKeepsInv(cfg, s, req, request);
          }
      }
    }
  }

  /** While a request is live on a row, that row accepts no second start. */
  lemma LiveRowsDoNotBegin(cfg: Settings, s: State, req: RequestId, id: MeetingId, startAt: int, endAt: int)
    requires Inv(cfg, s) && LiveOn(s, req, id)
    ensures !Begin(cfg, s.db, id, startAt, endAt).Begun?
  {
    assert RequestOk(s, s.requests[req]);
  }

  lemma BeginKeepsInv(cfg: Settings, s: State, req: RequestId)
    requires Inv(cfg, s) && HasStage(s, req) && s.requests[req].stage.Registered?
    ensures Inv(cfg, BeginStep(cfg, s, req))
  {
    var request := s.requests[req];
    var id := request.id;
    assert RequestOk(s, request);
    match Begin(cfg, s.db, id, request.values.startAt, request.values.endAt) {
      case Replayed => OutsidePhaseKeepsInv(cfg, s, req, Replying);
      case BeginRefused(code) => OutsidePhaseKeepsInv(cfg, s, req, Refused(code));
      case Begun(db', retrying) =>
        BeginShape(cfg, s.db, id, request.values.startAt, request.values.endAt);
        BegunKeepsInv(cfg, s, req, db', retrying);
    }
  }

  function Entered(s: State, req: RequestId, after: Db, retrying: bool): State
    requires HasStage(s, req) && s.requests[req].id in after.meetings
    requires after.meetings[s.requests[req].id].room.Some? && after.meetings[s.requests[req].id].payload.Some?
  {
    var row := after.meetings[s.requests[req].id];
    SetStage(s, req, Calling(retrying, row.room.value, row.payload.value, FirstToken)).(db := after)
  }

  /** One request enters its provider phase on a row that has no live request. */
  lemma EnteringKeepsRequests(s: State, req: RequestId, after: Db, retrying: bool, row: Meeting)
    requires RequestsInv(s) && HasStage(s, req)
    requires var id := s.requests[req].id;
      && Wrote(s.db, after, id, row) && SameIdentity(s.db.meetings[id], row)
      && row.status == Provisioning && row.room.Some? && row.payload.Some?
      && !LiveStatus(s.db.meetings[id].status)
    ensures RequestsInv(Entered(s, req, after, retrying))
    ensures forall r | IsLive(Entered(s, req, after, retrying), r) && r != req ::
      IsLive(s, r) && Entered(s, req, after, retrying).requests[r] == s.requests[r]
  {
    var id, s' := s.requests[req].id, Entered(s, req, after, retrying);
    forall r | r in s'.requests
      ensures RequestOk(s', s'.requests[r])
    {
      assert RequestOk(s, s.requests[r]);
    }
    forall r | IsLive(s, r)
      ensures s.requests[r].id != id
    {
      assert RequestOk(s, s.requests[r]);
    }
    assert forall r :: IsLive(s', r) && r != req ==> IsLive(s, r) && s'.requests[r] == s.requests[r];
    assert forall r :: ClaimsCreation(s', r) ==> ClaimsCreation(s, r) && s'.requests[r].id == s.requests[r].id;
  }

  /** The row entering PROVISIONING together with its request entering the provider phase. */
  lemma BegunKeepsInv(cfg: Settings, s: State, req: RequestId, after: Db, retrying: bool)
    requires Inv(cfg, s) && HasStage(s, req)
    requires DbInv(cfg, after) && BegunFrom(cfg, s.db, s.requests[req].id, retrying, after)
    ensures Inv(cfg, Entered(s, req, after, retrying))
  {
    var id := s.requests[req].id;
    var locked, row := s.db.meetings[id], after.meetings[id];
    assert RowOk(cfg, locked);
    EnteringKeepsRequests(s, req, after, retrying, row);
    CreatedOrNever(s, id);
    OneRowCarries(s, after, id, row);
    HistoryCarries(s, Entered(s, req, after, retrying));
  }

  lemma CallKeepsInv(cfg: Settings, s: State, req: RequestId, exchange: Exchange, creates: bool)
    requires Inv(cfg, s) && Enabled(s, Call(req, exchange, creates))
    ensures Inv(cfg, CallStep(cfg, s, req, exchange, creates))
  {
    var request := s.requests[req];
    var outcome := StartMeeting(cfg, exchange);
    DefiniteIffRefused(cfg, exchange);
    var progress := AfterCall(request.stage.progress, outcome);
    assert RequestOk(s, request);
    var call := CallRecord(request.id, request.stage.room, s.db.meetings[request.id].reservation,
        request.stage.payload);
    assert CallMatches(s.db, call);
    ProgressKeepsInv(cfg, s, req, progress, [call], creates);
  }

  /** A request that leaves its provider phase leaves no other one behind. */
  lemma PhaseIsOver(s: State, req: RequestId, id: MeetingId, stage: Stage)
    requires SinglePhase(s) && LiveOn(s, req, id) && !stage.Calling?
    ensures forall r :: !LiveOn(SetStage(s, req, stage), r, id)
  {
    assert forall r :: LiveOn(SetStage(s, req, stage), r, id) ==> IsLive(s, r) && LiveOn(s, r, id);
  }

  /** After its own commit the request no longer stands in the way of the row it writes. */
  lemma CommittedRowIsGood(cfg: Settings, s: State, req: RequestId, row: Meeting)
    requires Inv(cfg, s) && IsLive(s, req)
    requires RowOk(cfg, row) && SameCore(s.db.meetings[s.requests[req].id], row)
    requires CreatedStatus(row.status) || NeverCreated(s, s.requests[req].id)
    ensures forall stage: Stage | !stage.Calling? :: GoodWrite(cfg, SetStage(s, req, stage), s.requests[req].id, row)
  {
    forall stage: Stage | !stage.Calling?
      ensures GoodWrite(cfg, SetStage(s, req, stage), s.requests[req].id, row)
    {
      PhaseIsOver(s, req, s.requests[req].id, stage);
    }
  }

  lemma FailedRowOk(cfg: Settings, row: Meeting, error: ProviderError)
    requires RowOk(cfg, row) && LiveStatus(row.status)
    ensures RowOk(cfg, FailedRow(row, error)) && SameCore(row, FailedRow(row, error))
    ensures !Definite(error) ==> CreatedStatus(FailedRow(row, error).status)
  {
  }

  lemma ReadyRowOk(cfg: Settings, row: Meeting, data: MeetingResult)
    requires RowOk(cfg, row) && AcceptsSuccess(row)
    ensures RowOk(cfg, ReadyRow(row, data)) && SameCore(row, ReadyRow(row, data))
  {
  }

  lemma CommitKeepsInv(cfg: Settings, s: State, req: RequestId)
    requires Inv(cfg, s) && Enabled(s, Commit(req))
    ensures Inv(cfg, CommitStep(s, req))
  {
    var request := s.requests[req];
    var id := request.id;
    var row := s.db.meetings[id];
    assert RequestOk(s, request) && RowOk(cfg, row);
    match request.stage.progress.outcome {
      case Err(error) =>
        var result := CommitFailure(s.db, id, error);
        FailureKeepsInv(cfg, s, req, error, Refused(if result.Saved? then ProviderRefusal else ServerError));
      case Ok(data) =>
        if AcceptsSuccess(row) {
          SuccessKeepsInv(cfg, s, req, data);
        } else {
          OutsidePhaseKeepsInv(cfg, s, req, Refused(ProviderReconciliationRequired));
        }
    }
  }

  lemma FailureKeepsInv(cfg: Settings, s: State, req: RequestId, error: ProviderError, stage: Stage)
    requires Inv(cfg, s) && IsLive(s, req) && s.requests[req].stage.progress == Finished(Err(error)) && stage.Refused?
    ensures Inv(cfg, Written(SetStage(s, req, stage), CommitFailure(s.db, s.requests[req].id, error)))
  {
    var id := s.requests[req].id;
    var row, left := s.db.meetings[id], SetStage(s, req, stage);
    assert RequestOk(s, s.requests[req]) && RowOk(cfg, row);
    FailedRowOk(cfg, row, error);
    CommittedRowIsGood(cfg, s, req, FailedRow(row, error));
    OutsidePhaseKeepsInv(cfg, s, req, stage);
    if CommitFailure(s.db, id, error).Saved? {
      StatusWriteKeepsInv(cfg, left, id, FailedRow(row, error));
    }
  }

  lemma SuccessKeepsInv(cfg: Settings, s: State, req: RequestId, data: MeetingResult)
    requires Inv(cfg, s) && IsLive(s, req) && AcceptsSuccess(s.db.meetings[s.requests[req].id])
    ensures CommitSuccess(s.db, s.requests[req].id, data).Saved?
    ensures Inv(cfg, Written(SetStage(s, req, Replying), CommitSuccess(s.db, s.requests[req].id, data)))
  {
    var id := s.requests[req].id;
    var row := s.db.meetings[id];
    assert RequestOk(s, s.requests[req]) && RowOk(cfg, row);
    ReadyRowOk(cfg, row, data);
    CommittedRowIsGood(cfg, s, req, ReadyRow(row, data));
    KeptHoldIsFree(cfg, s.db, id, ReadyRow(row, data));
    OutsidePhaseKeepsInv(cfg, s, req, Replying);
    StatusWriteKeepsInv(cfg, SetStage(s, req, Replying), id, ReadyRow(row, data));
  }

  // ---------------------------------------------------------------------------------------------
  // The other actors
  // ---------------------------------------------------------------------------------------------

  /** A row that only gives up or keeps its hold, moved by someone other than its creating request. */
  lemma OutsiderKeepsInv(cfg: Settings, s: State, id: MeetingId, row: Meeting)
    requires Inv(cfg, s) && id in s.db.meetings
    requires RowOk(cfg, row) && SameCore(s.db.meetings[id], row)
    requires row.active ==> s.db.meetings[id].active
    requires LiveStatus(s.db.meetings[id].status) ==> LiveStatus(row.status)
    requires CreatedStatus(s.db.meetings[id].status) ==> CreatedStatus(row.status)
    ensures Save(s.db, id, row).Saved?
    ensures Wrote(s.db, Save(s.db, id, row).db, id, row.(updatedAt := s.db.now))
    ensures Inv(cfg, Written(s, Save(s.db, id, row)))
  {
    forall req | LiveOn(s, req, id)
      ensures LiveStatus(row.status)
    {
      assert RequestOk(s, s.requests[req]);
    }
    if !CreatedStatus(row.status) {
      forall i | 0 <= i < |s.creations|
        ensures s.creations[i].id != id
      {
        assert CreationMatches(s.db, s.creations[i]);
      }
    }
    KeptHoldIsFree(cfg, s.db, id, row);
    StatusWriteKeepsInv(cfg, s, id, row);
  }

  // The rows the stale sweep, the operators and `cancel` write.

  lemma SweepKeepsInv(cfg: Settings, s: State, id: MeetingId)
    requires Inv(cfg, s) && id in s.db.meetings && s.db.meetings[id].status == Provisioning
    ensures Inv(cfg, Written(s, Save(s.db, id, UnknownRow(s.db.meetings[id]))))
  {
    assert RowOk(cfg, s.db.meetings[id]);
    OutsiderKeepsInv(cfg, s, id, UnknownRow(s.db.meetings[id]));
  }

  lemma ReleaseKeepsInv(cfg: Settings, s: State, id: MeetingId)
    requires Inv(cfg, s) && id in s.db.meetings && Releasable(s.db.meetings[id].status)
    ensures Inv(cfg, Written(s, Save(s.db, id, EndedRow(s.db.meetings[id]))))
  {
    assert RowOk(cfg, s.db.meetings[id]);
    OutsiderKeepsInv(cfg, s, id, EndedRow(s.db.meetings[id]));
  }

  lemma CancelKeepsInv(cfg: Settings, s: State, id: MeetingId)
    requires Inv(cfg, s) && id in s.db.meetings && Cancellable(s.db.meetings[id].status)
    ensures Inv(cfg, Written(s, Save(s.db, id, CancelledRow(s.db.meetings[id]))))
  {
    assert RowOk(cfg, s.db.meetings[id]);
    OutsiderKeepsInv(cfg, s, id, CancelledRow(s.db.meetings[id]));
  }

  lemma RecoveredRowOk(cfg: Settings, row: Meeting, loaded: Meeting, form: RecoveryForm)
    requires RowOk(cfg, row) && RecoveryAccepted(row, loaded, form) && SameCore(row, loaded)
    ensures RowOk(cfg, RecoveredRow(loaded, form)) && SameCore(row, RecoveredRow(loaded, form)) && row.active
  {
  }

  /** Forms are opened, checked and closed without touching anything else. */
  lemma FormsKeepInv(cfg: Settings, s: State, forms: map<FormId, Page>)
    requires Inv(cfg, s) && forall page | page in forms :: FormFits(s.db, forms[page])
    ensures Inv(cfg, s.(forms := forms))
  {
    var after := s.(forms := forms);
    assert forall r :: IsLive(after, r) <==> IsLive(s, r);
    assert forall r :: ClaimsCreation(after, r) <==> ClaimsCreation(s, r);
    assert forall r | r in s.requests :: RequestOk(s, s.requests[r]) ==> RequestOk(after, s.requests[r]);
    assert forall id :: NeverCreated(s, id) ==> NeverCreated(after, id);
  }

  lemma OpenFormKeepsInv(cfg: Settings, s: State, page: FormId, id: MeetingId, form: RecoveryForm)
    requires Inv(cfg, s) && id in s.db.meetings
    ensures Inv(cfg, s.(forms := s.forms[page := Page(id, form, s.db.meetings[id], None)]))
  {
    assert forall other | other in s.forms :: FormFits(s.db, s.forms[other]);
    FormsKeepInv(cfg, s, s.forms[page := Page(id, form, s.db.meetings[id], None)]);
  }

  lemma ClosedFormKeepsInv(cfg: Settings, s: State, page: FormId)
    requires Inv(cfg, s)
    ensures Inv(cfg, s.(forms := s.forms - {page}))
  {
    assert forall other | other in s.forms :: FormFits(s.db, s.forms[other]);
    FormsKeepInv(cfg, s, s.forms - {page});
  }

  lemma CheckFormKeepsInv(cfg: Settings, s: State, page: FormId)
    requires Inv(cfg, s) && HasForm(s, page)
    ensures Inv(cfg, CheckStep(cfg, s, page))
  {
    var p := s.forms[page];
    var checked := CheckRecovery(cfg, p.loaded, s.db.meetings[p.id], p.form);
    assert forall other | other in s.forms :: FormFits(s.db, s.forms[other]);
    if checked.None? {
      ClosedFormKeepsInv(cfg, s, page);
    } else {
      FormsKeepInv(cfg, s, s.forms[page := p.(checked := checked)]);
    }
  }

  /** An instance without a room breaks `active_reservation_complete`, so it is never written. */
  lemma SaveFormKeepsInv(cfg: Settings, s: State, page: FormId)
    requires Inv(cfg, s) && Enabled(s, SaveForm(page))
    ensures Inv(cfg, SaveStep(s, page))
  {
    var p := s.forms[page];
    var row := s.db.meetings[p.id];
    var left := s.(forms := s.forms - {page});
    assert FormFits(s.db, p) && RowOk(cfg, row);
    ClosedFormKeepsInv(cfg, s, page);
    if RecoveryAccepted(row, p.loaded, p.form) && p.loaded.room.Some? {
      RecoveredRowOk(cfg, row, p.loaded, p.form);
      OutsiderKeepsInv(cfg, left, p.id, RecoveredRow(p.loaded, p.form));
    }
  }

  /** Administrators may change rooms and presets, and time passes; no room is ever deleted. */
  lemma SurroundingsKeepInv(cfg: Settings, s: State, rooms: map<PublicId, Room>, presets: Presets, now: int)
    requires Inv(cfg, s) && s.db.rooms.Keys <= rooms.Keys
    ensures Inv(cfg, s.(db := Db(s.db.meetings, rooms, presets, now)))
  {
    var after := s.(db := Db(s.db.meetings, rooms, presets, now));
    forall id | id in after.db.meetings
      ensures RoomKnown(after.db, after.db.meetings[id])
    {
      assert RoomKnown(s.db, s.db.meetings[id]);
    }
    forall r | r in after.requests
      ensures RequestOk(after, after.requests[r])
    {
      assert RequestOk(s, s.requests[r]);
    }
    assert forall r :: IsLive(after, r) <==> IsLive(s, r);
    assert forall r :: ClaimsCreation(after, r) <==> ClaimsCreation(s, r);
    RowsStay(s);
    HistoryCarries(s, after);
  }

  // ---------------------------------------------------------------------------------------------
  // Every step, every run
  // ---------------------------------------------------------------------------------------------

  /** The events of a request's own process. */
  predicate OfRequest(event: Event) {
    || event.Post? || event.BeginProvision? || event.TokenFails? || event.Call?
    || event.Commit? || event.Reply? || event.Crash?
  }

  lemma RequestStepKeepsInv(cfg: Settings, s: State, event: Event)
    requires Inv(cfg, s) && Enabled(s, event) && OfRequest(event)
    ensures Inv(cfg, Next(cfg, s, event))
  {
    match event {
      case Post(req, client, values, newId) => PostKeepsInv(cfg, s, req, client, values, newId);
      case BeginProvision(req) => BeginKeepsInv(cfg, s, req);
      case TokenFails(req, error) =>
        ProgressKeepsInv(cfg, s, req, Finished(Err(error)), [], false);
        assert s.calls + [] == s.calls;
      case Call(req, exchange, creates) => CallKeepsInv(cfg, s, req, exchange, creates);
      case Commit(req) => CommitKeepsInv(cfg, s, req);
      case Reply(req, delivered) =>
        OutsidePhaseKeepsInv(cfg, s, req, Next(cfg, s, event).requests[req].stage);
      case Crash(req) => OutsidePhaseKeepsInv(cfg, s, req, Gone);
    }
  }

  lemma OutsiderStepKeepsInv(cfg: Settings, s: State, event: Event)
    requires Inv(cfg, s) && Enabled(s, event) && !OfRequest(event)
    ensures Inv(cfg, Next(cfg, s, event))
  {
    match event {
      case Sweep(id) => SweepKeepsInv(cfg, s, id);
      case OpenForm(page, id, form) => OpenFormKeepsInv(cfg, s, page, id, form);
      case CheckForm(page) => CheckFormKeepsInv(cfg, s, page);
      case SaveForm(page) => SaveFormKeepsInv(cfg, s, page);
      case Release(id) => ReleaseKeepsInv(cfg, s, id);
      case CancelMeeting(id) => if Cancellable(s.db.meetings[id].status) { CancelKeepsInv(cfg, s, id); }
      case Administer(rooms, presets) => SurroundingsKeepInv(cfg, s, rooms, presets, s.db.now);
      case Tick(now) => SurroundingsKeepInv(cfg, s, s.db.rooms, s.db.presets, now);
    }
  }

  /** Every event keeps the invariant. */
  lemma {:induction false} StepKeepsInv(cfg: Settings, s: State, event: Event)
    requires Inv(cfg, s)
    ensures Inv(cfg, Next(cfg, s, event))
  {
    if Enabled(s, event) {
      if OfRequest(event) { RequestStepKeepsInv(cfg, s, event); } else { OutsiderStepKeepsInv(cfg, s, event); }
    }
  }

  lemma InitialInv(cfg: Settings, s: State)
    requires Initial(s)
    ensures Inv(cfg, s)
  {
  }

  /** The invariant holds in every reachable state. */
  lemma {:induction false} RunKeepsInv(cfg: Settings, start: State, events: seq<Event>)
    requires Initial(start)
    ensures Inv(cfg, Execute(cfg, start, events))
  {
    if events == [] {
      InitialInv(cfg, start);
    } else {
      RunKeepsInv(cfg, start, events[..|events| - 1]);
      StepKeepsInv(cfg, Execute(cfg, start, events[..|events| - 1]), events[|events| - 1]);
    }
  }
}
