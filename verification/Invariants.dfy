/**
  What every step of the protocol keeps.
 */
module Invariants {
  import opened Wrappers
  import opened Configuration
  import opened Models
  import opened Rooms
  import opened AllocatorProofs
  import opened Provider
  import opened Transactions
  import opened Protocol

  /** The statuses that hold a reservation. */
  predicate Holds(status: Status) {
    status in {Reserved, Provisioning, Ready, Live, RetryableFailed, ProviderResponseInvalid, ProviderStateUnknown}
  }

  /** The statuses a row can have while a request on it is between its two transactions. */
  predicate LiveStatus(status: Status) {
    status in {Provisioning, ProviderStateUnknown, Ready, Ended}
  }

  /** The statuses a row can have once its meeting exists at the provider. */
  predicate CreatedStatus(status: Status) {
    status in {Provisioning, ProviderStateUnknown, Ready, ProviderResponseInvalid, Ended}
  }

  predicate PayloadOk(payload: Dict, title: string) {
    "meetingTitle" !in payload && "title" in payload && payload["title"] == JStr(title) && IsInstant(payload)
  }

  predicate Pristine(row: Meeting) {
    row.room.None? && row.reservation.None? && row.payload.None? && row.provider == NO_PROVIDER_FIELDS
  }

  predicate Assigned(cfg: Settings, row: Meeting) {
    && row.startAt.Some? && row.endAt.Some?
    && row.room.Some?
    && row.reservation == Some(Range(row.startAt.value - cfg.bufferBefore, row.endAt.value + cfg.bufferAfter))
    && row.payload.Some? && PayloadOk(row.payload.value, row.details.title)
  }

  predicate RowOk(cfg: Settings, row: Meeting) {
    && row.startAt.Some? && row.endAt.Some? && row.startAt.value < row.endAt.value
    && row.status !in {Reserved, Live, Failed}
    && (row.active <==> Holds(row.status))
    && (Pristine(row) || Assigned(cfg, row))
    && (row.status == Draft ==> Pristine(row))
    && (row.status !in {Draft, Cancelled} ==> Assigned(cfg, row))
  }

  ghost predicate NoOverlap(meetings: Meetings) {
    forall a, b | a in meetings && b in meetings && a != b :: !Clash(meetings[a], meetings[b])
  }

  predicate RoomKnown(db: Db, row: Meeting) {
    row.room.Some? ==> row.room.value in db.rooms
  }

  ghost predicate DbInv(cfg: Settings, db: Db) {
    && (forall id | id in db.meetings :: RowOk(cfg, db.meetings[id]) && RoomKnown(db, db.meetings[id]))
    && UniqueKeys(db.meetings)
    && NoOverlap(db.meetings)
  }

  predicate MatchesRequest(row: Meeting, client: ClientId, values: Values) {
    && row.client == client && row.classId == values.classId && row.details == values.details
    && row.startAt == Some(values.startAt) && row.endAt == Some(values.endAt)
  }

  predicate PhaseMatches(row: Meeting, stage: Stage) {
    stage.Calling? ==>
      LiveStatus(row.status) && row.room == Some(stage.room) && row.payload == Some(stage.payload)
  }

  predicate RequestOk(s: State, request: Request) {
    request.Request? ==>
      && request.id in s.db.meetings
      && MatchesRequest(s.db.meetings[request.id], request.client, request.values)
      && PhaseMatches(s.db.meetings[request.id], request.stage)
      && AnswerFits(request.created, request.stage)
  }

  /** 201 is for the request that created the row, 200 for every other one. */
  predicate AnswerFits(created: bool, stage: Stage) {
    stage.Answered? ==> stage.code == if created then 201 else 200
  }

  ghost predicate RequestsInv(s: State) {
    && (forall req | req in s.requests :: RequestOk(s, s.requests[req]))
    && SinglePhase(s)
    && CreatedOnce(s)
  }

  /** At most one request per meeting is between its two transactions. */
  ghost predicate SinglePhase(s: State) {
    forall a, b | IsLive(s, a) && IsLive(s, b) && s.requests[a].id == s.requests[b].id :: a == b
  }

  predicate ClaimsCreation(s: State, req: RequestId) {
    req in s.requests && s.requests[req].Request? && s.requests[req].created
  }

  ghost predicate CreatedOnce(s: State) {
    forall a, b | ClaimsCreation(s, a) && ClaimsCreation(s, b) && s.requests[a].id == s.requests[b].id :: a == b
  }

  predicate CallMatches(db: Db, call: CallRecord) {
    && call.id in db.meetings
    && db.meetings[call.id].room == Some(call.room)
    && db.meetings[call.id].reservation == call.slot
    && db.meetings[call.id].payload == Some(call.payload)
  }

  predicate CreationMatches(db: Db, creation: Creation) {
    && creation.id in db.meetings
    && db.meetings[creation.id].client == creation.client
    && db.meetings[creation.id].classId == creation.classId
    && CreatedStatus(db.meetings[creation.id].status)
  }

  /** The live request has certainly created nothing so far. */
  predicate Quiet(progress: Progress) {
    progress.Finished? ==> progress.outcome.Err? && Definite(progress.outcome.error)
  }

  predicate NeverCreated(s: State, id: MeetingId) {
    forall i | 0 <= i < |s.creations| :: s.creations[i].id != id
  }

  /** The row a form was loaded from has at most gained its room, slot and payload since. */
  predicate FormFits(db: Db, page: Page) {
    && page.id in db.meetings
    && SameIdentity(db.meetings[page.id], page.loaded)
    && (page.loaded.room.Some? ==> SameCore(db.meetings[page.id], page.loaded))
  }

  ghost predicate FormsOk(s: State) {
    forall page | page in s.forms :: FormFits(s.db, s.forms[page])
  }

  ghost predicate HistoryInv(s: State) {
    && FormsOk(s)
    && (forall i | 0 <= i < |s.calls| :: CallMatches(s.db, s.calls[i]))
    && (forall i | 0 <= i < |s.creations| :: CreationMatches(s.db, s.creations[i]))
    && (forall i, j | 0 <= i < j < |s.creations| :: s.creations[i].id != s.creations[j].id)
    && (forall req | IsLive(s, req) && Quiet(s.requests[req].stage.progress) :: NeverCreated(s, s.requests[req].id))
  }

  ghost predicate Inv(cfg: Settings, s: State) {
    DbInv(cfg, s.db) && RequestsInv(s) && HistoryInv(s)
  }

  // ---------------------------------------------------------------------------------------------
  // Writing one row
  // ---------------------------------------------------------------------------------------------

  predicate SameIdentity(a: Meeting, b: Meeting) {
    && a.client == b.client && a.classId == b.classId && a.details == b.details
    && a.startAt == b.startAt && a.endAt == b.endAt
  }

  /** Everything but status, hold, provider fields, error note and time stamp. */
  predicate SameCore(a: Meeting, b: Meeting) {
    SameIdentity(a, b) && a.room == b.room && a.reservation == b.reservation && a.payload == b.payload
  }

  ghost predicate Wrote(before: Db, after: Db, id: MeetingId, row: Meeting) {
    after == before.(meetings := before.meetings[id := row])
  }

  /** A good row for an existing meeting is saved, and the stored state stays good. */
  lemma SaveKeepsDb(cfg: Settings, db: Db, id: MeetingId, row: Meeting)
    requires DbInv(cfg, db) && id in db.meetings
    requires RowOk(cfg, row) && RoomKnown(db, row) && SameIdentity(db.meetings[id], row)
    requires row.active ==> ExclusionHolds(db.meetings, id, row)
    ensures Save(db, id, row).Saved?
    ensures Wrote(db, Save(db, id, row).db, id, row.(updatedAt := db.now))
    ensures DbInv(cfg, Save(db, id, row).db)
  {
    assert KeyIsFree(db.meetings, id, row) by {
      forall other | other in db.meetings && other != id
        ensures !SameKey(db.meetings[other], row)
      {
        assert !SameKey(db.meetings[other], db.meetings[id]);
      }
    }
    var after := Save(db, id, row).db;
    forall a, b | a in after.meetings && b in after.meetings && a != b
      ensures !SameKey(after.meetings[a], after.meetings[b])
      ensures !Clash(after.meetings[a], after.meetings[b])
    {
      assert !SameKey(db.meetings[a], db.meetings[b]);
      assert !Clash(db.meetings[a], db.meetings[b]);
      if a == id { assert !Clash(db.meetings[b], row); }
      if b == id { assert !Clash(db.meetings[a], row); }
    }
  }

  /** A row that keeps its hold, or holds nothing, cannot break the exclusion constraint. */
  lemma KeptHoldIsFree(cfg: Settings, db: Db, id: MeetingId, row: Meeting)
    requires DbInv(cfg, db) && id in db.meetings
    requires row.active ==> db.meetings[id].active && SameCore(db.meetings[id], row)
    ensures ExclusionHolds(db.meetings, id, row)
  {
    forall other | other in db.meetings && other != id
      ensures !Clash(db.meetings[other], row)
    {
      assert !Clash(db.meetings[other], db.meetings[id]);
    }
  }

  /** Rows are never lost, keep their key, and keep what a call or a creation said about them. */
  ghost predicate RowsCarry(s: State, after: Db) {
    forall id | id in s.db.meetings ::
      && id in after.meetings
      && SameIdentity(s.db.meetings[id], after.meetings[id])
      && (s.db.meetings[id].room.Some? ==> SameCore(s.db.meetings[id], after.meetings[id]))
      && (CreatedStatus(after.meetings[id].status) || NeverCreated(s, id))
  }

  lemma HistoryCarries(s: State, after: State)
    requires HistoryInv(s) && RowsCarry(s, after.db)
    requires after.calls == s.calls && after.creations == s.creations && after.forms == s.forms
    requires forall r | IsLive(after, r) ::
      NeverCreated(s, after.requests[r].id) || (IsLive(s, r) && after.requests[r] == s.requests[r])
    ensures HistoryInv(after)
  {
    forall i | 0 <= i < |after.calls|
      ensures CallMatches(after.db, after.calls[i])
    {
      assert CallMatches(s.db, s.calls[i]);
    }
    forall i | 0 <= i < |after.creations|
      ensures CreationMatches(after.db, after.creations[i])
    {
      assert CreationMatches(s.db, s.creations[i]);
    }
    forall page | page in after.forms
      ensures FormFits(after.db, after.forms[page])
    {
      assert FormFits(s.db, s.forms[page]);
    }
    forall r | IsLive(after, r) && Quiet(after.requests[r].stage.progress)
      ensures NeverCreated(after, after.requests[r].id)
    {
      assert NeverCreated(s, after.requests[r].id);
    }
  }

  /** A row whose status says that nothing was created has no creation. */
  lemma CreatedOrNever(s: State, id: MeetingId)
    requires HistoryInv(s) && id in s.db.meetings
    ensures CreatedStatus(s.db.meetings[id].status) || NeverCreated(s, id)
  {
    forall i | 0 <= i < |s.creations| && s.creations[i].id == id
      ensures CreatedStatus(s.db.meetings[id].status)
    {
      assert CreationMatches(s.db, s.creations[i]);
    }
  }

  lemma OneRowCarries(s: State, after: Db, id: MeetingId, row: Meeting)
    requires HistoryInv(s) && id in s.db.meetings && Wrote(s.db, after, id, row)
    requires SameIdentity(s.db.meetings[id], row) && (s.db.meetings[id].room.Some? ==> SameCore(s.db.meetings[id], row))
    requires CreatedStatus(row.status) || NeverCreated(s, id)
    ensures RowsCarry(s, after)
  {
    forall other | other in s.db.meetings
      ensures CreatedStatus(after.meetings[other].status) || NeverCreated(s, other)
    {
      CreatedOrNever(s, other);
    }
  }

  /** The state is good and `row` may replace the row of `id`. */
  ghost predicate GoodWrite(cfg: Settings, s: State, id: MeetingId, row: Meeting) {
    && id in s.db.meetings
    && RowOk(cfg, row) && SameCore(s.db.meetings[id], row)
    && ((exists req :: LiveOn(s, req, id)) ==> LiveStatus(row.status))
    && (CreatedStatus(row.status) || NeverCreated(s, id))
  }

  /** Replacing status, hold and provider fields of one row keeps the invariant. */
  lemma StatusWriteKeepsInv(cfg: Settings, s: State, id: MeetingId, row: Meeting)
    requires Inv(cfg, s) && GoodWrite(cfg, s, id, row)
    requires row.active ==> ExclusionHolds(s.db.meetings, id, row)
    ensures Save(s.db, id, row).Saved?
    ensures Wrote(s.db, Save(s.db, id, row).db, id, row.(updatedAt := s.db.now))
    ensures Inv(cfg, Written(s, Save(s.db, id, row)))
  {
    SaveKeepsDb(cfg, s.db, id, row);
    var after := Written(s, Save(s.db, id, row));
    forall req | req in after.requests
      ensures RequestOk(after, after.requests[req])
    {
      assert RequestOk(s, s.requests[req]);
      if s.requests[req].Request? && s.requests[req].id == id && s.requests[req].stage.Calling? {
        assert LiveOn(s, req, id);
      }
    }
    assert forall req :: IsLive(after, req) <==> IsLive(s, req);
    assert forall req :: ClaimsCreation(after, req) <==> ClaimsCreation(s, req);
    OneRowCarries(s, after.db, id, row.(updatedAt := s.db.now));
    HistoryCarries(s, after);
  }

  lemma RowsStay(s: State)
    requires HistoryInv(s)
    ensures RowsCarry(s, s.db)
  {
    forall id | id in s.db.meetings
      ensures CreatedStatus(s.db.meetings[id].status) || NeverCreated(s, id)
    {
      CreatedOrNever(s, id);
    }
  }

  // ---------------------------------------------------------------------------------------------
  // Moving one request
  // ---------------------------------------------------------------------------------------------

  /** A request that leaves, or stays outside, its provider phase keeps the invariant. */
  lemma OutsidePhaseKeepsInv(cfg: Settings, s: State, req: RequestId, stage: Stage)
    requires Inv(cfg, s) && HasStage(s, req) && !stage.Calling? && AnswerFits(s.requests[req].created, stage)
    ensures Inv(cfg, SetStage(s, req, stage))
  {
    OutsidePhaseKeepsRequests(s, req, stage);
    RowsStay(s);
    HistoryCarries(s, SetStage(s, req, stage));
  }

  lemma OutsidePhaseKeepsRequests(s: State, req: RequestId, stage: Stage)
    requires RequestsInv(s) && HasStage(s, req) && !stage.Calling? && AnswerFits(s.requests[req].created, stage)
    ensures var after := SetStage(s, req, stage);
      && RequestsInv(after)
      && forall r :: IsLive(after, r) ==> IsLive(s, r) && after.requests[r] == s.requests[r]
  {
    var after := SetStage(s, req, stage);
    forall r | r in after.requests
      ensures RequestOk(after, after.requests[r])
    {
      assert RequestOk(s, s.requests[r]);
    }
    assert forall r :: IsLive(after, r) ==> IsLive(s, r) && after.requests[r] == s.requests[r];
    assert forall r :: ClaimsCreation(after, r) ==> ClaimsCreation(s, r) && after.requests[r].id == s.requests[r].id;
  }

  /** The state after progress inside a phase, with the calls and creations it adds. */
  function Progressed(s: State, req: RequestId, progress: Progress, calls: seq<CallRecord>, creates: bool): State
    requires IsLive(s, req)
  {
    var id := s.requests[req].id;
    var creation := Creation(id, s.db.meetings[id].client, s.db.meetings[id].classId);
    SetStage(s, req, s.requests[req].stage.(progress := progress)).(
      calls := s.calls + calls,
      creations := if creates then s.creations + [creation] else s.creations)
  }

  lemma ProgressKeepsRequests(s: State, req: RequestId, progress: Progress, calls: seq<CallRecord>, creates: bool)
    requires RequestsInv(s) && IsLive(s, req)
    ensures RequestsInv(Progressed(s, req, progress, calls, creates))
  {
    var after := Progressed(s, req, progress, calls, creates);
    forall r | r in after.requests
      ensures RequestOk(after, after.requests[r])
    {
      assert RequestOk(s, s.requests[r]);
    }
    assert forall r :: IsLive(after, r) ==> IsLive(s, r) && after.requests[r].id == s.requests[r].id;
    assert forall r :: ClaimsCreation(after, r) ==> ClaimsCreation(s, r) && after.requests[r].id == s.requests[r].id;
  }

  lemma ProgressKeepsInv(
    cfg: Settings, s: State, req: RequestId, progress: Progress, calls: seq<CallRecord>, creates: bool)
    requires Inv(cfg, s) && IsLive(s, req) && Quiet(s.requests[req].stage.progress)
    requires creates ==> !Quiet(progress)
    requires forall i | 0 <= i < |calls| :: CallMatches(s.db, calls[i])
    ensures Inv(cfg, Progressed(s, req, progress, calls, creates))
  {
    var id, after := s.requests[req].id, Progressed(s, req, progress, calls, creates);
    assert RequestOk(s, s.requests[req]);
    ProgressKeepsRequests(s, req, progress, calls, creates);
    forall i | 0 <= i < |after.calls|
      ensures CallMatches(after.db, after.calls[i])
    {
      if i < |s.calls| {
        assert CallMatches(s.db, s.calls[i]);
      } else {
        assert CallMatches(s.db, calls[i - |s.calls|]);
      }
    }
    assert NeverCreated(s, id);
    forall r | IsLive(after, r) && Quiet(after.requests[r].stage.progress)
      ensures NeverCreated(after, after.requests[r].id)
    {
      if r == req {
        assert after.creations == s.creations;
      } else {
        assert NeverCreated(s, s.requests[r].id);
        assert s.requests[r].id != id;
      }
    }
  }
}
