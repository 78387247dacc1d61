/**
  Tier A: what holds over every run, whatever operators do and whenever processes crash.
 */
module TierA {
  import opened Wrappers
  import opened Sets
  import opened Models
  import opened Rooms
  import opened AllocatorProofs
  import opened Provider
  import opened Transactions
  import opened Protocol
  import opened Invariants
  import opened StepProofs
  import opened Moves

  /**
    At-most-once creation: over every run the provider creates at most one meeting per
    (client, class), provided only that the definite refusals created nothing.
   */
  lemma {:induction false} AtMostOneCreation(cfg: Settings, start: State, events: seq<Event>, i: nat, j: nat)
    requires Initial(start)
    requires var s := Execute(cfg, start, events); i < |s.creations| && j < |s.creations|
    requires var s := Execute(cfg, start, events);
      s.creations[i].client == s.creations[j].client && s.creations[i].classId == s.creations[j].classId
    ensures i == j
  {
    RunKeepsInv(cfg, start, events);
    var s := Execute(cfg, start, events);
    var a, b := s.creations[i], s.creations[j];
    assert CreationMatches(s.db, a) && CreationMatches(s.db, b);
    assert SameKey(s.db.meetings[a.id], s.db.meetings[b.id]);
  }

  /**
    A created meeting is never given up: over every run the row of each meeting that exists at the
    provider holds its reservation or was ended by an operator. It is never CANCELLED or failed, so its
    slot is never given away and no creation for it starts again.
   */
  lemma {:induction false} CreatedMeetingsAreNeverGivenUp(cfg: Settings, start: State, events: seq<Event>, i: nat)
    requires Initial(start) && i < |Execute(cfg, start, events).creations|
    ensures var s := Execute(cfg, start, events);
      var id := s.creations[i].id;
      && id in s.db.meetings
      && (s.db.meetings[id].active || s.db.meetings[id].status == Ended)
      && s.db.meetings[id].status !in {Draft, Cancelled, RetryableFailed, NonRetryableFailed}
      && forall startAt, endAt :: !Begin(cfg, s.db, id, startAt, endAt).Begun?
  {
    RunKeepsInv(cfg, start, events);
    var s := Execute(cfg, start, events);
    assert CreationMatches(s.db, s.creations[i]);
    assert RowOk(cfg, s.db.meetings[s.creations[i].id]);
    forall startAt, endAt
      ensures !Begin(cfg, s.db, s.creations[i].id, startAt, endAt).Begun?
    {
      CreatedRowsDoNotBegin(cfg, s.db, s.creations[i].id, startAt, endAt);
    }
  }

  lemma CreatedRowsDoNotBegin(cfg: Settings, db: Db, id: MeetingId, startAt: int, endAt: int)
    requires id in db.meetings && CreatedStatus(db.meetings[id].status)
    ensures !Begin(cfg, db, id, startAt, endAt).Begun?
  {
  }

  /**
    Single live phase: two live requests on one meeting are the same request, its row is
    PROVISIONING, UNKNOWN, READY or ENDED, and no other request can start a creation on it.
   */
  lemma {:induction false} SingleLivePhase(cfg: Settings, start: State, events: seq<Event>, req: RequestId)
    requires Initial(start) && IsLive(Execute(cfg, start, events), req)
    ensures var s := Execute(cfg, start, events);
      var id := s.requests[req].id;
      && LiveStatus(s.db.meetings[id].status)
      && (forall other | LiveOn(s, other, id) :: other == req)
      && (forall startAt, endAt :: !Begin(cfg, s.db, id, startAt, endAt).Begun?)
  {
    RunKeepsInv(cfg, start, events);
    var s := Execute(cfg, start, events);
    assert RequestOk(s, s.requests[req]);
    forall startAt, endAt
      ensures !Begin(cfg, s.db, s.requests[req].id, startAt, endAt).Begun?
    {
      LiveRowsDoNotBegin(cfg, s, req, s.requests[req].id, startAt, endAt);
    }
  }

  /** Same payload, room and slot: all creation calls ever made for one meeting are equal. */
  lemma {:induction false} AllCallsOfAMeetingAreEqual(cfg: Settings, start: State, events: seq<Event>, i: nat, j: nat)
    requires Initial(start)
    requires var s := Execute(cfg, start, events);
      i < |s.calls| && j < |s.calls| && s.calls[i].id == s.calls[j].id
    ensures var s := Execute(cfg, start, events); s.calls[i] == s.calls[j]
    ensures var s := Execute(cfg, start, events);
      CallMatches(s.db, s.calls[i]) && PayloadOk(s.calls[i].payload, s.db.meetings[s.calls[i].id].details.title)
  {
    RunKeepsInv(cfg, start, events);
    var s := Execute(cfg, start, events);
    assert CallMatches(s.db, s.calls[i]) && CallMatches(s.db, s.calls[j]);
    assert RowOk(cfg, s.db.meetings[s.calls[i].id]);
  }

  /**
    Exact hold condition: a row holds its reservation exactly in the seven holding statuses, and a
    retry that starts keeps its own room, slot and payload.
   */
  lemma {:induction false} HoldCondition(cfg: Settings, start: State, events: seq<Event>, id: MeetingId)
    requires Initial(start) && id in Execute(cfg, start, events).db.meetings
    ensures var s := Execute(cfg, start, events);
      && (s.db.meetings[id].active <==> Holds(s.db.meetings[id].status))
      && forall startAt, endAt | s.db.meetings[id].status == RetryableFailed ::
        var retry := Begin(cfg, s.db, id, startAt, endAt);
           retry.Begun? ==> retry.retrying && SameCore(s.db.meetings[id], retry.db.meetings[id])
  {
    RunKeepsInv(cfg, start, events);
    var s := Execute(cfg, start, events);
    assert RowOk(cfg, s.db.meetings[id]);
    forall startAt, endAt | s.db.meetings[id].status == RetryableFailed && Begin(cfg, s.db, id, startAt, endAt).Begun?
      ensures var retry := Begin(cfg, s.db, id, startAt, endAt);
        retry.retrying && SameCore(s.db.meetings[id], retry.db.meetings[id])
    {
      RetryResumes(cfg, s.db, id, startAt, endAt);
    }
  }

  // ---------------------------------------------------------------------------------------------
  // No double booking
  // ---------------------------------------------------------------------------------------------

  /** The active reservations that cover an instant. */
  ghost function CoveringAt(meetings: Meetings, instant: int): set<MeetingId> {
    set id | id in meetings && meetings[id].active && meetings[id].reservation.Some?
             && Covers(meetings[id].reservation.value, instant)
  }

  /** The requested times of two holders of one room are at least both buffers apart. */
  ghost predicate BuffersApart(cfg: Settings, a: Meeting, b: Meeting) {
    && a.startAt.Some? && a.endAt.Some? && b.startAt.Some? && b.endAt.Some?
    && (a.endAt.value + cfg.bufferBefore + cfg.bufferAfter <= b.startAt.value
        || b.endAt.value + cfg.bufferBefore + cfg.bufferAfter <= a.startAt.value)
  }

  /** No double booking, in the three forms the reservation promises. */
  lemma {:induction false} NoDoubleBooking(cfg: Settings, start: State, events: seq<Event>)
    requires Initial(start)
    ensures var db := Execute(cfg, start, events).db;
      && (forall a, b | a in db.meetings && b in db.meetings && a != b && db.meetings[a].active && db.meetings[b].active
                        && db.meetings[a].room == db.meetings[b].room ::
            BuffersApart(cfg, db.meetings[a], db.meetings[b]) && !Clash(db.meetings[a], db.meetings[b]))
      && (forall instant :: |CoveringAt(db.meetings, instant)| <= |db.rooms|)
  {
    RunKeepsInv(cfg, start, events);
    var db := Execute(cfg, start, events).db;
    forall a, b | a in db.meetings && b in db.meetings && a != b && db.meetings[a].active && db.meetings[b].active
                  && db.meetings[a].room == db.meetings[b].room
      ensures BuffersApart(cfg, db.meetings[a], db.meetings[b]) && !Clash(db.meetings[a], db.meetings[b])
    {
      assert RowOk(cfg, db.meetings[a]) && RowOk(cfg, db.meetings[b]);
      assert !Clash(db.meetings[a], db.meetings[b]);
    }
    forall instant
      ensures |CoveringAt(db.meetings, instant)| <= |db.rooms|
    {
      CoveringFits(cfg, db, instant);
    }
  }

  lemma CoveringHaveRooms(cfg: Settings, db: Db, instant: int)
    requires DbInv(cfg, db)
    ensures forall id | id in CoveringAt(db.meetings, instant) ::
      db.meetings[id].room.Some? && db.meetings[id].room.value in db.rooms
  {
    forall id | id in CoveringAt(db.meetings, instant)
      ensures db.meetings[id].room.Some? && db.meetings[id].room.value in db.rooms
    {
      assert RowOk(cfg, db.meetings[id]) && RoomKnown(db, db.meetings[id]);
    }
  }

  lemma CoveringFits(cfg: Settings, db: Db, instant: int)
    requires DbInv(cfg, db)
    ensures |CoveringAt(db.meetings, instant)| <= |db.rooms|
  {
    var covering := CoveringAt(db.meetings, instant);
    CoveringHaveRooms(cfg, db, instant);
    var room := map id | id in covering :: db.meetings[id].room.value;
    forall a, b | a in room && b in room && a != b
      ensures room[a] != room[b]
    {
      assert !Clash(db.meetings[a], db.meetings[b]);
    }
    Pigeonhole(room, db.rooms.Keys);
    assert room.Keys == covering;
  }

  // ---------------------------------------------------------------------------------------------
  // The exclusion constraint
  // ---------------------------------------------------------------------------------------------

  /** The row an event writes outside the allocator, with its meeting. */
  function PendingWrite(s: State, event: Event): Option<(MeetingId, Meeting)> {
    if !Enabled(s, event) then None
    else
      match event
      case Commit(req) =>
        var id := s.requests[req].id;
        (match s.requests[req].stage.progress.outcome
         case Err(error) => Some((id, FailedRow(s.db.meetings[id], error)))
         case Ok(data) =>
           if AcceptsSuccess(s.db.meetings[id]) then Some((id, ReadyRow(s.db.meetings[id], data))) else None)
      case Sweep(id) => Some((id, UnknownRow(s.db.meetings[id])))
      case SaveForm(page) =>
        var p := s.forms[page];
        if RecoveryAccepted(s.db.meetings[p.id], p.loaded, p.form)
        then Some((p.id, RecoveredRow(p.loaded, p.form))) else None
      case Release(id) => Some((id, EndedRow(s.db.meetings[id])))
      case CancelMeeting(id) =>
        if Cancellable(s.db.meetings[id].status) then Some((id, CancelledRow(s.db.meetings[id]))) else None
      case _ => None
  }

  /** A late error commit that would take back the hold of a released row. */
  predicate LateRevival(s: State, event: Event) {
    && event.Commit? && Enabled(s, event)
    && s.requests[event.req].stage.progress.outcome.Err?
    && s.db.meetings[s.requests[event.req].id].status == Ended
  }

  /** A late error commit takes back a hold whose slot somebody else has by now. */
  predicate ClashingRevival(s: State, event: Event) {
    && LateRevival(s, event)
    && var id := s.requests[event.req].id;
       var row := FailedRow(s.db.meetings[id], s.requests[event.req].stage.progress.outcome.error);
       row.active && !ExclusionHolds(s.db.meetings, id, row)
  }

  /** A recovery form that was loaded before its row had a room. */
  predicate StaleForm(s: State, event: Event) {
    && event.SaveForm? && Enabled(s, event) && s.forms[event.page].loaded.room.None?
    && RecoveryAccepted(s.db.meetings[s.forms[event.page].id], s.forms[event.page].loaded, s.forms[event.page].form)
  }

  /** What a pending write does: the exclusion constraint aborts clashing revivals, a check stale forms. */
  lemma {:induction false} PendingWriteOutcome(cfg: Settings, s: State, event: Event)
    requires Inv(cfg, s) && PendingWrite(s, event).Some?
    ensures var (id, row) := PendingWrite(s, event).value;
      && (Save(s.db, id, row).ExclusionViolated? <==> ClashingRevival(s, event))
      && (Save(s.db, id, row).ConstraintViolated? <==> StaleForm(s, event))
  {
    var (id, row) := PendingWrite(s, event).value;
    if StaleForm(s, event) {
      assert !RowChecks(row);
    } else {
      PendingRowFits(cfg, s, event);
      SaveOutcome(cfg, s.db, id, row);
    }
  }

  /** What is written keeps the row good, and only a late revival takes a hold that is not there. */
  lemma PendingRowFits(cfg: Settings, s: State, event: Event)
    requires Inv(cfg, s) && PendingWrite(s, event).Some? && !StaleForm(s, event)
    ensures var (id, row) := PendingWrite(s, event).value;
      && id in s.db.meetings && RowOk(cfg, row) && SameCore(s.db.meetings[id], row)
      && (row.active && !LateRevival(s, event) ==> s.db.meetings[id].active)
  {
    var (id, row) := PendingWrite(s, event).value;
    var current := s.db.meetings[id];
    assert RowOk(cfg, current);
    if event.Commit? {
      PendingCommitFits(cfg, s, event.req);
    } else if event.SaveForm? {
      assert FormFits(s.db, s.forms[event.page]);
      RecoveredRowOk(cfg, current, s.forms[event.page].loaded, s.forms[event.page].form);
    }
  }

  lemma PendingCommitFits(cfg: Settings, s: State, req: RequestId)
    requires Inv(cfg, s) && PendingWrite(s, Commit(req)).Some?
    ensures var (id, row) := PendingWrite(s, Commit(req)).value;
      && id in s.db.meetings && RowOk(cfg, row) && SameCore(s.db.meetings[id], row)
      && (row.active && !LateRevival(s, Commit(req)) ==> s.db.meetings[id].active)
  {
    var current := s.db.meetings[s.requests[req].id];
    assert RequestOk(s, s.requests[req]) && RowOk(cfg, current);
    if s.requests[req].stage.progress.outcome.Err? {
      FailedRowOk(cfg, current, s.requests[req].stage.progress.outcome.error);
    } else {
      ReadyRowOk(cfg, current, s.requests[req].stage.progress.outcome.value);
    }
  }

  /** A good row is saved unless it takes a slot that someone else holds. */
  lemma SaveOutcome(cfg: Settings, db: Db, id: MeetingId, row: Meeting)
    requires DbInv(cfg, db) && id in db.meetings && RowOk(cfg, row) && SameCore(db.meetings[id], row)
    ensures Save(db, id, row).Saved? <==> (row.active ==> ExclusionHolds(db.meetings, id, row))
    ensures !Save(db, id, row).ConstraintViolated?
    ensures db.meetings[id].active ==> Save(db, id, row).Saved?
  {
    KeyStaysFree(db, id, row);
    if db.meetings[id].active || !row.active { KeptHoldIsFree(cfg, db, id, row); }
  }

  lemma KeyStaysFree(db: Db, id: MeetingId, row: Meeting)
    requires UniqueKeys(db.meetings) && id in db.meetings && SameKey(db.meetings[id], row)
    ensures KeyIsFree(db.meetings, id, row)
  {
    forall other | other in db.meetings && other != id
      ensures !SameKey(db.meetings[other], row)
    {
      assert !SameKey(db.meetings[other], db.meetings[id]);
    }
  }

  /**
    Taken as one step, the first transaction never meets a server error: its own checks always come
    before the constraint, and the gate on scheduled payloads is never reached (presets changed by
    somebody else in the middle of the transaction can reach it). It starts a new creation exactly
    when the class date fits and the availability snapshot says yes.
   */
  lemma {:induction false} FirstTransactionNeverAborts(cfg: Settings, s: State, req: RequestId)
    requires Inv(cfg, s) && HasStage(s, req) && s.requests[req].stage.Registered?
    ensures var request := s.requests[req];
      var values, row := request.values, s.db.meetings[request.id];
      var result := Begin(cfg, s.db, request.id, values.startAt, values.endAt);
      && result != BeginRefused(ServerError) && result != BeginRefused(ProviderContractUnconfirmed)
      && result != BeginRefused(ExistingMeetingRequiresReview)
      && (row.status == Draft ==>
            (result.Begun? <==> DateOf(cfg, values.startAt) == values.details.classDate
                                && Availability(cfg, s.db, request.client, values.startAt, values.endAt) == Ok(true)))
      && (row.status == RetryableFailed ==>
            (result.Begun? <==> DateOf(cfg, values.startAt) == values.details.classDate && !AnyTruthy(row.provider)))
  {
    var request := s.requests[req];
    var id, values, row := request.id, request.values, s.db.meetings[request.id];
    assert RequestOk(s, request) && RowOk(cfg, row);
    if row.status == RetryableFailed {
      RetryResumes(cfg, s.db, id, values.startAt, values.endAt);
    } else if row.status == Draft {
      DraftBeginsIffAvailable(cfg, s.db, id, values.startAt, values.endAt);
    }
  }

  lemma {:induction false} DraftBeginsIffAvailable(cfg: Settings, db: Db, id: MeetingId, startAt: int, endAt: int)
    requires DbInv(cfg, db) && id in db.meetings && db.meetings[id].status == Draft
    requires db.meetings[id].startAt == Some(startAt) && db.meetings[id].endAt == Some(endAt)
    ensures var result := Begin(cfg, db, id, startAt, endAt);
      && (result.Begun? <==> DateOf(cfg, startAt) == db.meetings[id].details.classDate
                             && Availability(cfg, db, db.meetings[id].client, startAt, endAt) == Ok(true))
      && (result.BeginRefused? ==>
            result.code
            == if DateOf(cfg, startAt) != db.meetings[id].details.classDate then ClassDateMismatch
               else if Interval(cfg, startAt, endAt).Err? && ActiveRooms(db.rooms) != {} then InvalidInterval
               else NoCapacityAvailable)
  {
    var locked := db.meetings[id];
    assert RowOk(cfg, locked);
    if DateOf(cfg, startAt) == locked.details.classDate {
      KeptHoldIsFree(cfg, db, id, locked);
      SaveKeepsDb(cfg, db, id, locked);
      var draft := Save(db, id, locked).db;
      assert Save(db, id, locked.(status := Draft)) == Saved(draft);
      StampChangesNoAvailability(cfg, db, draft, id, startAt, endAt);
      var room := SnapshotAgreesWithAllocation(cfg, draft, id, startAt, endAt);
      var reserved := AllocateAnyRoom(cfg, draft, id, startAt, endAt);
      assert Reserve(cfg, db, id, startAt, endAt) == reserved;
      if reserved.Ok? {
        var slot := Interval(cfg, startAt, endAt).value;
        ReservedThenPrepared(cfg, db, draft, reserved.value, id, room, slot, startAt, endAt);
      }
    }
  }

  /** The time stamp of the saved draft is invisible to the snapshot. */
  lemma StampChangesNoAvailability(cfg: Settings, db: Db, draft: Db, id: MeetingId, startAt: int, endAt: int)
    requires id in db.meetings && Wrote(db, draft, id, db.meetings[id].(updatedAt := db.now))
    ensures Availability(cfg, draft, db.meetings[id].client, startAt, endAt)
         == Availability(cfg, db, db.meetings[id].client, startAt, endAt)
  {
    var slot := Interval(cfg, startAt, endAt);
    if slot.Ok? { StampChangesNoEligibility(cfg, db, draft, id, slot.value); }
  }

  lemma StampChangesNoEligibility(cfg: Settings, db: Db, draft: Db, id: MeetingId, slot: Range)
    requires id in db.meetings && Wrote(db, draft, id, db.meetings[id].(updatedAt := db.now))
    ensures forall room, client :: Eligible(cfg, draft, client, room, slot) == Eligible(cfg, db, client, room, slot)
  {
    forall room, client
      ensures Eligible(cfg, draft, client, room, slot) == Eligible(cfg, db, client, room, slot)
    {
      assert CountedIn(draft.meetings, room) == CountedIn(db.meetings, room);
      assert forall other | other in db.meetings ::
          Occupies(draft.meetings[other], room, slot) == Occupies(db.meetings[other], room, slot);
    }
  }

  /** A transaction of the event is aborted: a constraint or an unhandled exception ends it. */
  predicate Aborts(cfg: Settings, s: State, event: Event) {
    && Enabled(s, event)
    && match event
       case Post(_, client, values, newId) =>
         values.startAt < values.endAt && Register(s.db, client, values, newId) == RegistrationRefused(ServerError)
       case BeginProvision(req) =>
         var request := s.requests[req];
         Begin(cfg, s.db, request.id, request.values.startAt, request.values.endAt) == BeginRefused(ServerError)
       case _ =>
         var write := PendingWrite(s, event);
         write.Some? && !Save(s.db, write.value.0, write.value.1).Saved?
  }

  /** Registration finds the only row of its key or creates it; it never aborts and never needs a review. */
  lemma {:induction false} RegistrationNeverAborts(
    cfg: Settings, s: State, client: ClientId, values: Values, newId: MeetingId)
    requires Inv(cfg, s) && newId !in s.db.meetings && values.startAt < values.endAt
    ensures var result := Register(s.db, client, values, newId);
      && result != RegistrationRefused(ServerError) && result != RegistrationRefused(ExistingMeetingRequiresReview)
      && (result.Found? && result.created <==> RowsOf(s.db.meetings, client, values.classId) == {})
  {
    var rows := RowsOf(s.db.meetings, client, values.classId);
    if rows == {} {
      DraftIsSaved(cfg, s.db, client, values, newId);
    } else {
      var id :| id in rows;
      OneRowPerKey(cfg, s.db, client, values.classId, id);
    }
  }

  lemma OneRowPerKey(cfg: Settings, db: Db, client: ClientId, classId: string, id: MeetingId)
    requires DbInv(cfg, db) && id in RowsOf(db.meetings, client, classId)
    ensures RowsOf(db.meetings, client, classId) == {id}
  {
    forall other | other in RowsOf(db.meetings, client, classId)
      ensures other == id
    {
      assert other != id ==> !SameKey(db.meetings[other], db.meetings[id]);
    }
  }

  /**
    Taking every transaction as one step, exactly two kinds abort: a late error commit that would
    re-activate an ENDED row whose slot is taken (the exclusion constraint), and the save of a
    recovery form loaded before its row had a room (a check constraint).
   */
  lemma {:induction false} OnlyLateRevivalsAndStaleFormsAbort(cfg: Settings, s: State, event: Event)
    requires Inv(cfg, s)
    ensures Aborts(cfg, s, event) <==> ClashingRevival(s, event) || StaleForm(s, event)
  {
    if Enabled(s, event) {
      match event {
        case Post(_, client, values, newId) =>
          if values.startAt < values.endAt { RegistrationNeverAborts(cfg, s, client, values, newId); }
        case BeginProvision(req) => FirstTransactionNeverAborts(cfg, s, req);
        case _ => PendingWritesAbort(cfg, s, event);
      }
    }
  }

  lemma PendingWritesAbort(cfg: Settings, s: State, event: Event)
    requires Inv(cfg, s) && Enabled(s, event) && !event.Post? && !event.BeginProvision?
    ensures Aborts(cfg, s, event) <==> ClashingRevival(s, event) || StaleForm(s, event)
  {
    if PendingWrite(s, event).Some? { PendingWriteOutcome(cfg, s, event); }
  }

  // ---------------------------------------------------------------------------------------------
  // Exactly when a settled row is overwritten
  // ---------------------------------------------------------------------------------------------

  /** The event is an error commit on the row of `id`. */
  predicate ErrorCommitOn(s: State, event: Event, id: MeetingId) {
    && event.Commit? && Enabled(s, event) && s.requests[event.req].id == id
    && s.requests[event.req].stage.progress.outcome.Err?
  }

  /** The error commit is not aborted: it takes no hold, or a slot that is still free. */
  predicate ErrorCommitStands(s: State, event: Event, id: MeetingId)
    requires ErrorCommitOn(s, event, id)
  {
    var row := FailedRow(s.db.meetings[id], CommittedError(s, event, id));
    row.active ==> ExclusionHolds(s.db.meetings, id, row)
  }

  function CommittedError(s: State, event: Event, id: MeetingId): ProviderError
    requires ErrorCommitOn(s, event, id)
  {
    s.requests[event.req].stage.progress.outcome.error
  }

  /**
    CANCELLED is never left. ENDED is left exactly by an unaborted error commit, READY is left for
    anything but ENDED exactly by an error commit, and a stored calendar id is replaced exactly by an
    unaborted error commit that reports a known creation under another id.
   */
  lemma {:induction false} ExactlyLateErrorsOverwrite(cfg: Settings, s: State, event: Event, id: MeetingId)
    requires Inv(cfg, s) && id in s.db.meetings
    ensures id in Next(cfg, s, event).db.meetings
    ensures var row, row' := s.db.meetings[id], Next(cfg, s, event).db.meetings[id];
      && (row.status == Cancelled ==> row'.status == Cancelled)
      && (row.status == Ended ==>
            (row'.status != Ended <==> ErrorCommitOn(s, event, id) && ErrorCommitStands(s, event, id)))
      && (row.status == Ready ==> (row'.status !in {Ready, Ended} <==> ErrorCommitOn(s, event, id)))
      && (Truthy(row.provider.calendarId) ==>
            (row'.provider.calendarId != row.provider.calendarId <==>
              && ErrorCommitOn(s, event, id) && ErrorCommitStands(s, event, id)
              && CommittedError(s, event, id).knownCreated.Some?
              && Some(CommittedError(s, event, id).knownCreated.value.calendarId) != row.provider.calendarId))
  {
    NextMovesRow(cfg, s, event, id);
    assert RowOk(cfg, s.db.meetings[id]);
    FailsIffErrorCommit(cfg, s, event, id);
    MovesOverwrite(cfg, s.db, id, MoveOf(cfg, s, event, id), Next(cfg, s, event).db.meetings[id]);
  }

  lemma ErrorCommitIsPending(s: State, event: Event, id: MeetingId)
    requires ErrorCommitOn(s, event, id)
    ensures PendingWrite(s, event) == Some((id, FailedRow(s.db.meetings[id], CommittedError(s, event, id))))
    ensures ClashingRevival(s, event) <==> s.db.meetings[id].status == Ended && !ErrorCommitStands(s, event, id)
  {
  }

  /** A row fails exactly on an unaborted error commit; only on an ENDED row can one be aborted. */
  lemma FailsIffErrorCommit(cfg: Settings, s: State, event: Event, id: MeetingId)
    requires Inv(cfg, s) && id in s.db.meetings
    ensures MoveOf(cfg, s, event, id).Fails?
       <==> ErrorCommitOn(s, event, id) && ErrorCommitStands(s, event, id)
    ensures MoveOf(cfg, s, event, id).Fails? ==> MoveOf(cfg, s, event, id).error == CommittedError(s, event, id)
    ensures ErrorCommitOn(s, event, id) ==>
      && LiveStatus(s.db.meetings[id].status)
      && (s.db.meetings[id].status != Ended ==> ErrorCommitStands(s, event, id))
  {
    if ErrorCommitOn(s, event, id) {
      assert RequestOk(s, s.requests[event.req]);
      PendingWriteOutcome(cfg, s, event);
      ErrorCommitIsPending(s, event, id);
    }
  }

  /** The moves that leave a settled status or replace a stored calendar id. */
  lemma MovesOverwrite(cfg: Settings, db: Db, id: MeetingId, move: Move, row: Meeting)
    requires id in db.meetings && Moved(cfg, db, id, move, row) && RowOk(cfg, db.meetings[id])
    ensures var before := db.meetings[id];
      && (before.status == Cancelled ==> row.status == Cancelled)
      && (before.status == Ended ==> (row.status != Ended <==> move.Fails?))
      && (before.status == Ready ==> (row.status !in {Ready, Ended} <==> move.Fails?))
      && (Truthy(before.provider.calendarId) ==>
            (row.provider.calendarId != before.provider.calendarId <==>
              && move.Fails? && move.error.knownCreated.Some?
              && Some(move.error.knownCreated.value.calendarId) != before.provider.calendarId))
  {
  }

  // ---------------------------------------------------------------------------------------------
  // Request identity
  // ---------------------------------------------------------------------------------------------

  predicate AnsweredOk(s: State, req: RequestId) {
    req in s.requests && s.requests[req].Request? && s.requests[req].stage.Answered?
  }

  predicate SameClass(s: State, a: RequestId, b: RequestId)
    requires AnsweredOk(s, a) && AnsweredOk(s, b)
  {
    s.requests[a].client == s.requests[b].client && s.requests[a].values.classId == s.requests[b].values.classId
  }

  /**
    Idempotent request identity: every 2xx answer for one (client, class) names the same row, whose
    stored originals equal the data of each of those requests, and at most one of them is a 201.
   */
  lemma {:induction false} AnswersIdentifyOneRow(
    cfg: Settings, start: State, events: seq<Event>, a: RequestId, b: RequestId)
    requires Initial(start)
    requires var s := Execute(cfg, start, events); AnsweredOk(s, a) && AnsweredOk(s, b) && SameClass(s, a, b)
    ensures var s := Execute(cfg, start, events);
      var first, second := s.requests[a], s.requests[b];
      && first.id == second.id && first.id in s.db.meetings
      && MatchesRequest(s.db.meetings[first.id], first.client, first.values)
      && MatchesRequest(s.db.meetings[first.id], second.client, second.values)
      && first.values == second.values
      && (first.stage.code == 201 && second.stage.code == 201 ==> a == b)
  {
    RunKeepsInv(cfg, start, events);
    var s := Execute(cfg, start, events);
    var first, second := s.requests[a], s.requests[b];
    assert RequestOk(s, first) && RequestOk(s, second);
    assert SameKey(s.db.meetings[first.id], s.db.meetings[second.id]);
    assert first.created && second.created ==> ClaimsCreation(s, a) && ClaimsCreation(s, b);
  }

  /** The originals of a stored row never change. */
  lemma {:induction false} OriginalsNeverChange(cfg: Settings, s: State, event: Event, id: MeetingId)
    requires Inv(cfg, s) && id in s.db.meetings
    ensures id in Next(cfg, s, event).db.meetings
        && SameIdentity(s.db.meetings[id], Next(cfg, s, event).db.meetings[id])
  {
    NextMovesRow(cfg, s, event, id);
    MovesKeepIdentity(cfg, s.db, id, MoveOf(cfg, s, event, id), Next(cfg, s, event).db.meetings[id]);
  }

  lemma MovesKeepIdentity(cfg: Settings, db: Db, id: MeetingId, move: Move, row: Meeting)
    requires id in db.meetings && Moved(cfg, db, id, move, row)
    ensures SameIdentity(db.meetings[id], row)
  {
  }
}
