/**
  The provider cap: which meetings it really bounds, and what can exceed it.
 */
module Capacity {
  import opened Wrappers
  import opened Sets
  import opened Models
  import opened Rooms
  import opened Provider
  import opened Transactions
  import opened Protocol
  import opened Invariants
  import opened StepProofs
  import opened Moves
  import opened TierA

  /**
    The meetings whose current stay among the counted statuses began with a fresh reservation.
    A resumed row and a late-revived ENDED row enter their stay without one.
   */
  function FreshStays(cfg: Settings, start: State, events: seq<Event>): set<MeetingId> {
    if events == [] then {}
    else
      var front, last := events[..|events| - 1], events[|events| - 1];
      FreshAfter(cfg, Execute(cfg, start, front), last, FreshStays(cfg, start, front))
  }

  function FreshAfter(cfg: Settings, s: State, event: Event, freshIds: set<MeetingId>): set<MeetingId> {
    var s' := Next(cfg, s, event);
    set id | id in s.db.meetings && id in s'.db.meetings && Counted(s'.db.meetings[id].status)
             && (if Counted(s.db.meetings[id].status) then id in freshIds
                 else MoveOf(cfg, s, event, id) == Begins(false))
  }

  predicate LimitIs(s: State, room: PublicId, limit: nat) {
    room in s.db.rooms && s.db.rooms[room].activeLimit == Some(limit)
  }

  /** A fresh reservation in a capped room finds the count below the limit. */
  lemma FreshBeginFindsRoom(cfg: Settings, s: State, event: Event, id: MeetingId, limit: nat)
    requires Inv(cfg, s) && id in s.db.meetings && MoveOf(cfg, s, event, id) == Begins(false)
    requires id in Next(cfg, s, event).db.meetings && Next(cfg, s, event).db.meetings[id].room.Some?
    requires LimitIs(s, Next(cfg, s, event).db.meetings[id].room.value, limit)
    ensures |CountedIn(s.db.meetings, Next(cfg, s, event).db.meetings[id].room.value)| < limit
  {
    NextMovesRow(cfg, s, event, id);
    BegunRowFindsRoom(cfg, s.db, id, Next(cfg, s, event).db.meetings[id]);
  }

  lemma BegunRowFindsRoom(cfg: Settings, db: Db, id: MeetingId, row: Meeting)
    requires id in db.meetings && BegunRow(cfg, db, id, false, row)
    requires db.rooms[row.room.value].activeLimit.Some?
    ensures |CountedIn(db.meetings, row.room.value)| < db.rooms[row.room.value].activeLimit.value
  {
    var draft := db.(meetings := db.meetings[id := db.meetings[id].(updatedAt := db.now)]);
    assert CountedIn(draft.meetings, row.room.value) == CountedIn(db.meetings, row.room.value);
  }

  /** Only the row of the moving meeting changes its room or its status. */
  lemma CountedRowsStayInTheirRoom(cfg: Settings, s: State, event: Event, id: MeetingId)
    requires Inv(cfg, s) && id in s.db.meetings
    ensures id in Next(cfg, s, event).db.meetings
    ensures s.db.meetings[id].room.Some? ==> Next(cfg, s, event).db.meetings[id].room == s.db.meetings[id].room
    ensures Counted(s.db.meetings[id].status) ==> s.db.meetings[id].room.Some?
    ensures MoveOf(cfg, s, event, id) == Begins(false)
        ==> s.db.meetings[id].room.None? && s.db.meetings[id].status == Draft
  {
    NextMovesRow(cfg, s, event, id);
    assert RowOk(cfg, s.db.meetings[id]);
    MovesKeepRooms(cfg, s.db, id, MoveOf(cfg, s, event, id), Next(cfg, s, event).db.meetings[id]);
  }

  lemma MovesKeepRooms(cfg: Settings, db: Db, id: MeetingId, move: Move, row: Meeting)
    requires id in db.meetings && Moved(cfg, db, id, move, row) && RowOk(cfg, db.meetings[id])
    ensures db.meetings[id].room.Some? ==> row.room == db.meetings[id].room
    ensures Counted(db.meetings[id].status) ==> db.meetings[id].room.Some?
    ensures move == Begins(false) ==> db.meetings[id].room.None? && db.meetings[id].status == Draft
  {
  }

  /** One event begins at most one meeting. */
  lemma OneBeginPerEvent(cfg: Settings, s: State, event: Event, a: MeetingId, b: MeetingId)
    requires a in s.db.meetings && b in s.db.meetings
    requires MoveOf(cfg, s, event, a).Begins? && MoveOf(cfg, s, event, b).Begins?
    ensures a == b
  {
  }

  lemma FreshStaysContinueOrBegin(cfg: Settings, s: State, event: Event, freshIds: set<MeetingId>, room: PublicId)
    requires Inv(cfg, s)
    ensures forall id | id in FreshAfter(cfg, s, event, freshIds) * CountedIn(Next(cfg, s, event).db.meetings, room) ::
      && id in s.db.meetings
      && (id in freshIds * CountedIn(s.db.meetings, room) || MoveOf(cfg, s, event, id) == Begins(false))
  {
    forall id | id in FreshAfter(cfg, s, event, freshIds) * CountedIn(Next(cfg, s, event).db.meetings, room)
      ensures id in freshIds * CountedIn(s.db.meetings, room) || MoveOf(cfg, s, event, id) == Begins(false)
    {
      CountedRowsStayInTheirRoom(cfg, s, event, id);
    }
  }

  lemma FreshStepKeepsCap(cfg: Settings, s: State, event: Event, freshIds: set<MeetingId>, room: PublicId, limit: nat)
    requires Inv(cfg, s) && LimitIs(s, room, limit)
    requires |freshIds * CountedIn(s.db.meetings, room)| <= limit
    ensures |FreshAfter(cfg, s, event, freshIds) * CountedIn(Next(cfg, s, event).db.meetings, room)| <= limit
  {
    var before := freshIds * CountedIn(s.db.meetings, room);
    var after := FreshAfter(cfg, s, event, freshIds) * CountedIn(Next(cfg, s, event).db.meetings, room);
    FreshStaysContinueOrBegin(cfg, s, event, freshIds, room);
    if id :| id in after && MoveOf(cfg, s, event, id) == Begins(false) {
      FreshBeginFindsRoom(cfg, s, event, id, limit);
      forall other | other in after
        ensures other in before + {id}
      {
        if MoveOf(cfg, s, event, other) == Begins(false) { OneBeginPerEvent(cfg, s, event, other, id); }
      }
      SubsetIsSmaller(before, CountedIn(s.db.meetings, room));
      SubsetIsSmaller(after, before + {id});
    } else {
      SubsetIsSmaller(after, before);
    }
  }

  /**
    The scoped cap: while a room's limit is fixed, the counted meetings in it whose stay began with
    a fresh reservation never exceed the limit.
   */
  lemma {:induction false} FreshStaysRespectTheCap(
    cfg: Settings, start: State, events: seq<Event>, room: PublicId, limit: nat)
    requires Initial(start)
    requires forall i | 0 <= i <= |events| :: LimitIs(Execute(cfg, start, events[..i]), room, limit)
    ensures |FreshStays(cfg, start, events) * CountedIn(Execute(cfg, start, events).db.meetings, room)| <= limit
  {
    if events == [] {
      assert FreshStays(cfg, start, events) * CountedIn(Execute(cfg, start, events).db.meetings, room) == {};
    } else {
      var front, last := events[..|events| - 1], events[|events| - 1];
      forall i | 0 <= i <= |front|
        ensures LimitIs(Execute(cfg, start, front[..i]), room, limit)
      {
        assert front[..i] == events[..i];
        assert LimitIs(Execute(cfg, start, events[..i]), room, limit);
      }
      assert front[..|front|] == front;
      FreshStaysRespectTheCap(cfg, start, front, room, limit);
      RunKeepsInv(cfg, start, front);
      FreshStepKeepsCap(cfg, Execute(cfg, start, front), last, FreshStays(cfg, start, front), room, limit);
    }
  }

  // ---------------------------------------------------------------------------------------------
  // What exceeds the cap
  // ---------------------------------------------------------------------------------------------

  /** An uncounted row re-enters the counted statuses of its own room without a fresh check. */
  predicate UncheckedEntry(cfg: Settings, s: State, event: Event, room: PublicId, id: MeetingId) {
    && id in s.db.meetings && s.db.meetings[id].room == Some(room) && !Counted(s.db.meetings[id].status)
    && id in Next(cfg, s, event).db.meetings && Counted(Next(cfg, s, event).db.meetings[id].status)
  }

  /** A request is about to resume the failed row of `id`, and nothing will refuse it. */
  predicate ResumesUnchecked(cfg: Settings, s: State, event: Event, id: MeetingId)
    requires id in s.db.meetings
  {
    && event.BeginProvision? && Enabled(s, event) && s.requests[event.req].id == id
    && s.db.meetings[id].status == RetryableFailed && !AnyTruthy(s.db.meetings[id].provider)
    && DateOf(cfg, s.requests[event.req].values.startAt) == s.db.meetings[id].details.classDate
  }

  /** A late error that does not rule out a creation is about to be written over the ENDED row of `id`. */
  predicate RevivesUnchecked(s: State, event: Event, id: MeetingId)
    requires id in s.db.meetings
  {
    && ErrorCommitOn(s, event, id) && s.db.meetings[id].status == Ended
    && !Definite(CommittedError(s, event, id)) && ErrorCommitStands(s, event, id)
  }

  /** What a caller could check before the step: the row of `id` is about to re-enter the room's count. */
  predicate AboutToReenter(cfg: Settings, s: State, event: Event, room: PublicId, id: MeetingId) {
    && id in s.db.meetings && s.db.meetings[id].room == Some(room)
    && (ResumesUnchecked(cfg, s, event, id) || RevivesUnchecked(s, event, id))
  }

  lemma ResumesBegin(cfg: Settings, s: State, event: Event, id: MeetingId)
    requires Inv(cfg, s) && id in s.db.meetings
    ensures MoveOf(cfg, s, event, id) == Begins(true) <==> ResumesUnchecked(cfg, s, event, id)
  {
    if event.BeginProvision? && Enabled(s, event) && s.requests[event.req].id == id {
      if s.db.meetings[id].status == RetryableFailed {
        RetryResumes(cfg, s.db, id, s.requests[event.req].values.startAt, s.requests[event.req].values.endAt);
      } else {
        NextMovesRow(cfg, s, event, id);
      }
    }
  }

  /** Of the moves, exactly a resumed start and an error that rules nothing out re-enter the count. */
  lemma MovesThatReenter(cfg: Settings, db: Db, id: MeetingId, move: Move, row: Meeting)
    requires id in db.meetings && Moved(cfg, db, id, move, row) && RowOk(cfg, db.meetings[id])
    ensures db.meetings[id].room.Some? && !Counted(db.meetings[id].status) && Counted(row.status)
       <==> move == Begins(true) || (move.Fails? && db.meetings[id].status == Ended && !Definite(move.error))
    ensures db.meetings[id].room.Some? ==> row.room == db.meetings[id].room
  {
  }

  /** An unchecked entry happens exactly on a resumed failed row, or on such a late error. */
  lemma {:induction false} UncheckedEntriesAreResumesOrRevivals(
    cfg: Settings, s: State, event: Event, room: PublicId, id: MeetingId)
    requires Inv(cfg, s)
    ensures UncheckedEntry(cfg, s, event, room, id) <==> AboutToReenter(cfg, s, event, room, id)
  {
    if id in s.db.meetings {
      NextMovesRow(cfg, s, event, id);
      assert RowOk(cfg, s.db.meetings[id]);
      ResumesBegin(cfg, s, event, id);
      FailsIffErrorCommit(cfg, s, event, id);
      MovesThatReenter(cfg, s.db, id, MoveOf(cfg, s, event, id), Next(cfg, s, event).db.meetings[id]);
    }
  }

  /** One event touches the status of at most one existing row. */
  lemma OneMoverPerEvent(cfg: Settings, s: State, event: Event, a: MeetingId, b: MeetingId)
    requires a in s.db.meetings && b in s.db.meetings
    requires !MoveOf(cfg, s, event, a).Stays? && !MoveOf(cfg, s, event, b).Stays?
    ensures a == b
  {
  }

  lemma EntrantsMoved(cfg: Settings, s: State, event: Event, room: PublicId, id: MeetingId)
    requires Inv(cfg, s) && id in CountedIn(Next(cfg, s, event).db.meetings, room)
    ensures id in s.db.meetings
    ensures id in CountedIn(s.db.meetings, room) || !MoveOf(cfg, s, event, id).Stays?
    ensures id in CountedIn(s.db.meetings, room) || UncheckedEntry(cfg, s, event, room, id)
        || MoveOf(cfg, s, event, id) == Begins(false)
  {
    if id !in s.db.meetings {
      RowsAppearAsDrafts(cfg, s, event, id);
    } else {
      NextMovesRow(cfg, s, event, id);
      CountedRowsStayInTheirRoom(cfg, s, event, id);
      assert RowOk(cfg, s.db.meetings[id]);
    }
  }

  /** An unchecked entry adds exactly its own row to the count. */
  lemma UncheckedEntryAddsOne(cfg: Settings, s: State, event: Event, room: PublicId, id: MeetingId)
    requires Inv(cfg, s) && UncheckedEntry(cfg, s, event, room, id)
    ensures |CountedIn(Next(cfg, s, event).db.meetings, room)| == |CountedIn(s.db.meetings, room)| + 1
  {
    forall other
      ensures other in CountedIn(Next(cfg, s, event).db.meetings, room)
         <==> other in CountedIn(s.db.meetings, room) || other == id
    {
      CountsAfterEntry(cfg, s, event, room, id, other);
    }
    OneMore(CountedIn(s.db.meetings, room), CountedIn(Next(cfg, s, event).db.meetings, room), id);
  }

  lemma CountsAfterEntry(cfg: Settings, s: State, event: Event, room: PublicId, id: MeetingId, other: MeetingId)
    requires Inv(cfg, s) && UncheckedEntry(cfg, s, event, room, id)
    ensures other in CountedIn(Next(cfg, s, event).db.meetings, room)
       <==> other in CountedIn(s.db.meetings, room) || other == id
  {
    NextMovesRow(cfg, s, event, id);
    if other == id {
      CountedRowsStayInTheirRoom(cfg, s, event, id);
    } else {
      OtherRowsKeepTheirCount(cfg, s, event, room, id, other);
    }
  }

  lemma OtherRowsKeepTheirCount(cfg: Settings, s: State, event: Event, room: PublicId, id: MeetingId, other: MeetingId)
    requires Inv(cfg, s) && id in s.db.meetings && !MoveOf(cfg, s, event, id).Stays? && other != id
    ensures other in CountedIn(Next(cfg, s, event).db.meetings, room) <==> other in CountedIn(s.db.meetings, room)
  {
    if other in s.db.meetings {
      NextMovesRow(cfg, s, event, other);
      if !MoveOf(cfg, s, event, other).Stays? { OneMoverPerEvent(cfg, s, event, other, id); }
    } else if other in Next(cfg, s, event).db.meetings {
      RowsAppearAsDrafts(cfg, s, event, other);
    }
  }

  ghost predicate SomeUncheckedEntry(cfg: Settings, s: State, event: Event, room: PublicId) {
    exists id :: UncheckedEntry(cfg, s, event, room, id)
  }

  lemma CheckedStepKeepsCap(cfg: Settings, s: State, event: Event, room: PublicId, limit: nat)
    requires Inv(cfg, s) && LimitIs(s, room, limit) && |CountedIn(s.db.meetings, room)| <= limit
    requires !SomeUncheckedEntry(cfg, s, event, room)
    ensures |CountedIn(Next(cfg, s, event).db.meetings, room)| <= limit
  {
    var before, after := CountedIn(s.db.meetings, room), CountedIn(Next(cfg, s, event).db.meetings, room);
    if id :| id in after && id !in before {
      EntrantsMoved(cfg, s, event, room, id);
      FreshBeginFindsRoom(cfg, s, event, id, limit);
      forall other | other in after
        ensures other in before + {id}
      {
        EntrantsMoved(cfg, s, event, room, other);
        if other !in before { OneMoverPerEvent(cfg, s, event, other, id); }
      }
      SubsetIsSmaller(after, before + {id});
    } else {
      SubsetIsSmaller(after, before);
    }
  }

  /**
    The unrestricted cap breaks exactly when the room is full and a failed row of it is about to be
    resumed, or a late error that rules nothing out is about to be written over an ENDED row of it.
   */
  lemma {:induction false} CapBreaksExactlyOnUncheckedEntry(
    cfg: Settings, s: State, event: Event, room: PublicId, limit: nat)
    requires Inv(cfg, s) && LimitIs(s, room, limit) && |CountedIn(s.db.meetings, room)| <= limit
    ensures |CountedIn(Next(cfg, s, event).db.meetings, room)| > limit
       <==> |CountedIn(s.db.meetings, room)| == limit && exists id :: AboutToReenter(cfg, s, event, room, id)
  {
    forall id
      ensures UncheckedEntry(cfg, s, event, room, id) <==> AboutToReenter(cfg, s, event, room, id)
    {
      UncheckedEntriesAreResumesOrRevivals(cfg, s, event, room, id);
    }
    if SomeUncheckedEntry(cfg, s, event, room) {
      var id :| UncheckedEntry(cfg, s, event, room, id);
      UncheckedEntryAddsOne(cfg, s, event, room, id);
    } else {
      CheckedStepKeepsCap(cfg, s, event, room, limit);
    }
  }
}
