/**
  The allocator visits the active rooms in order, takes the least eligible one, and agrees with the
  read-only snapshot.
 */
module AllocatorProofs {
  import opened Wrappers
  import opened Models
  import opened Rooms

  predicate Sorted(rooms: map<PublicId, Room>, order: seq<PublicId>) {
    && (forall i | 0 <= i < |order| :: order[i] in rooms)
    && (forall i, j | 0 <= i < j < |order| :: Before(rooms, order[i], order[j]))
  }

  lemma {:induction false} InOrderSorts(rooms: map<PublicId, Room>, ids: set<PublicId>)
    requires ids <= rooms.Keys
    ensures forall id :: id in InOrder(rooms, ids) <==> id in ids
    ensures Sorted(rooms, InOrder(rooms, ids))
    decreases |ids|
  {
    if ids != {} {
      var first := InOrderUnfolds(rooms, ids);
      InOrderSorts(rooms, ids - {first});
      SortedCons(rooms, ids, first, InOrder(rooms, ids - {first}));
    }
  }

  /** The least room comes first, the others follow in order. */
  lemma InOrderUnfolds(rooms: map<PublicId, Room>, ids: set<PublicId>) returns (first: PublicId)
    requires ids <= rooms.Keys && ids != {}
    ensures IsFirst(rooms, ids, first) && InOrder(rooms, ids) == [first] + InOrder(rooms, ids - {first})
  {
    FirstExists(rooms, ids);
    first := InOrder(rooms, ids)[0];
  }

  lemma SortedCons(rooms: map<PublicId, Room>, ids: set<PublicId>, first: PublicId, rest: seq<PublicId>)
    requires ids <= rooms.Keys && IsFirst(rooms, ids, first)
    requires (forall id :: id in rest <==> id in ids - {first}) && Sorted(rooms, rest)
    ensures forall id :: id in [first] + rest <==> id in ids
    ensures Sorted(rooms, [first] + rest)
  {
    assert forall j | 0 <= j < |rest| :: rest[j] in rest;
  }

  /** The scan visits exactly the active rooms, each once, in (priority, public id) order. */
  lemma {:induction false} ScanOrderIsTheActiveRooms(rooms: map<PublicId, Room>)
    ensures forall id :: id in ScanOrder(rooms) <==> id in rooms && rooms[id].isActive
    ensures Sorted(rooms, ScanOrder(rooms))
  {
    InOrderSorts(rooms, ActiveRooms(rooms));
  }

  // ---------------------------------------------------------------------------------------------
  // One attempt
  // ---------------------------------------------------------------------------------------------

  /** The unique constraint of the stored rows. */
  ghost predicate UniqueKeys(meetings: Meetings) {
    forall a, b | a in meetings && b in meetings && a != b :: !SameKey(meetings[a], meetings[b])
  }

  ghost predicate ReservedFrom(
    before: Db, after: Db, meeting: MeetingId, room: PublicId, slot: Range, start: int, end: int)
    requires meeting in before.meetings
  {
    after == before.(meetings := before.meetings[meeting :=
      ReservedRow(before.meetings[meeting], room, slot, start, end).(updatedAt := before.now)])
  }

  /**
    What `capacity_error` means for a draft: a slot conflict is exactly what the exclusion constraint
    would refuse, and no error at all means exactly that the reservation also keeps the room's count
    within its limit.
   */
  lemma CapacityErrorPredictsTheReservation(
    db: Db, meeting: MeetingId, room: PublicId, slot: Range, start: int, end: int)
    requires meeting in db.meetings && room in db.rooms
    requires db.meetings[meeting].status == Draft && !db.meetings[meeting].active
    ensures var row := ReservedRow(db.meetings[meeting], room, slot, start, end);
      var counted := CountedIn(db.meetings[meeting := row], room);
      var limit := db.rooms[room].activeLimit;
      && (CapacityError(db, room, slot) == Some(RoomSlotConflict) <==> !ExclusionHolds(db.meetings, meeting, row))
      && (CapacityError(db, room, slot) == None
          <==> ExclusionHolds(db.meetings, meeting, row) && (limit.Some? ==> |counted| <= limit.value))
  {
    var row := ReservedRow(db.meetings[meeting], room, slot, start, end);
    assert CountedIn(db.meetings[meeting := row], room) == CountedIn(db.meetings, room) + {meeting};
    forall other | other in db.meetings && other != meeting
      ensures Occupies(db.meetings[other], room, slot) <==> Clash(db.meetings[other], row)
    {
    }
    if SlotTaken(db.meetings, room, slot) {
      var other :| other in db.meetings && Occupies(db.meetings[other], room, slot);
      assert Clash(db.meetings[other], row);
    }
  }

  /**
    Taken as one step, the service check makes the exclusion constraint redundant: the write it
    guards never aborts. (A late error commit takes no room lock; committed between check and write it
    can still make the write fail.)
   */
  lemma {:induction false} FreeSlotSaves(
    cfg: Settings, db: Db, meeting: MeetingId, room: PublicId, slot: Range, start: int, end: int)
    requires meeting in db.meetings && UniqueKeys(db.meetings)
    requires Interval(cfg, start, end) == Ok(slot) && !SlotTaken(db.meetings, room, slot)
    ensures Save(db, meeting, ReservedRow(db.meetings[meeting], room, slot, start, end)).Saved?
  {
    var row := ReservedRow(db.meetings[meeting], room, slot, start, end);
    forall other | other in db.meetings && other != meeting
      ensures !Clash(db.meetings[other], row)
    {
      assert !Occupies(db.meetings[other], room, slot);
    }
  }

  /** An attempt succeeds exactly on an eligible room, and then writes exactly the reservation. */
  lemma {:induction false} AttemptSucceedsIffEligible(
    cfg: Settings, db: Db, meeting: MeetingId, room: PublicId, start: int, end: int)
    requires meeting in db.meetings && UniqueKeys(db.meetings) && db.meetings[meeting].status == Draft
    requires Interval(cfg, start, end).Ok?
    ensures var slot := Interval(cfg, start, end).value;
      var attempt := ReserveSpecificRoom(cfg, db, meeting, room, start, end);
      if Eligible(cfg, db, db.meetings[meeting].client, room, slot)
      then attempt.Ok? && ReservedFrom(db, attempt.value, meeting, room, slot, start, end)
      else attempt.Err? && TriesNextRoom(attempt.error)
  {
    var slot := Interval(cfg, start, end).value;
    if !SlotTaken(db.meetings, room, slot) {
      FreeSlotSaves(cfg, db, meeting, room, slot, start, end);
    }
  }

  // ---------------------------------------------------------------------------------------------
  // The scan
  // ---------------------------------------------------------------------------------------------

  /** The first eligible candidate, counted from `i`. */
  ghost predicate FirstEligible(
    cfg: Settings, db: Db, client: ClientId, slot: Range, candidates: seq<PublicId>, i: nat) {
    && i < |candidates|
    && Eligible(cfg, db, client, candidates[i], slot)
    && forall j | 0 <= j < i :: !Eligible(cfg, db, client, candidates[j], slot)
  }

  lemma {:induction false} ScanTakesTheFirstEligible(
    cfg: Settings, db: Db, meeting: MeetingId, candidates: seq<PublicId>, start: int, end: int)
    returns (taken: nat)
    requires meeting in db.meetings && UniqueKeys(db.meetings) && db.meetings[meeting].status == Draft
    requires Interval(cfg, start, end).Ok?
    ensures var client, slot := db.meetings[meeting].client, Interval(cfg, start, end).value;
      var result := AllocateFrom(cfg, db, meeting, candidates, start, end);
      if result.Ok? then
        && FirstEligible(cfg, db, client, slot, candidates, taken)
        && ReservedFrom(db, result.value, meeting, candidates[taken], slot, start, end)
      else
        && result.error == NoCapacityAvailable
        && forall i | 0 <= i < |candidates| :: !Eligible(cfg, db, client, candidates[i], slot)
  {
    taken := 0;
    if candidates != [] {
      AttemptSucceedsIffEligible(cfg, db, meeting, candidates[0], start, end);
      if !Eligible(cfg, db, db.meetings[meeting].client, candidates[0], Interval(cfg, start, end).value) {
        var next := ScanTakesTheFirstEligible(cfg, db, meeting, candidates[1..], start, end);
        taken := next + 1;
      }
    }
  }

  /** `room` is the least eligible active room by (priority, public id). */
  ghost predicate LeastEligible(cfg: Settings, db: Db, client: ClientId, slot: Range, room: PublicId) {
    && room in ActiveRooms(db.rooms)
    && Eligible(cfg, db, client, room, slot)
    && forall other | other in ActiveRooms(db.rooms) && other != room && Eligible(cfg, db, client, other, slot) ::
         Before(db.rooms, room, other)
  }

  lemma FirstInScanIsLeast(cfg: Settings, db: Db, client: ClientId, slot: Range, i: nat)
    requires FirstEligible(cfg, db, client, slot, ScanOrder(db.rooms), i)
    ensures LeastEligible(cfg, db, client, slot, ScanOrder(db.rooms)[i])
  {
    ScanOrderIsTheActiveRooms(db.rooms);
    var order := ScanOrder(db.rooms);
    assert order[i] in order;
    forall other | other in ActiveRooms(db.rooms) && other != order[i] && Eligible(cfg, db, client, other, slot)
      ensures Before(db.rooms, order[i], other)
    {
      assert other in order;
      var j :| 0 <= j < |order| && order[j] == other;
      assert i < j;
    }
  }

  /** What the allocator does, whatever the state: the least eligible room, or no change and a reason. */
  ghost predicate AllocationOutcome(
    cfg: Settings, db: Db, meeting: MeetingId, start: int, end: int, result: Result<Db, Refusal>, room: PublicId)
    requires meeting in db.meetings
  {
    var client, interval := db.meetings[meeting].client, Interval(cfg, start, end);
    match result
    case Ok(after) =>
      && interval.Ok?
      && LeastEligible(cfg, db, client, interval.value, room)
      && ReservedFrom(db, after, meeting, room, interval.value, start, end)
    case Err(code) =>
      if interval.Err? then code == if ActiveRooms(db.rooms) == {} then NoCapacityAvailable else InvalidInterval
      else
        && code == NoCapacityAvailable
        && forall r | r in ActiveRooms(db.rooms) :: !Eligible(cfg, db, client, r, interval.value)
  }

  lemma {:induction false} AllocationTakesTheLeast(cfg: Settings, db: Db, meeting: MeetingId, start: int, end: int)
    returns (room: PublicId)
    requires meeting in db.meetings && UniqueKeys(db.meetings) && db.meetings[meeting].status == Draft
    ensures AllocationOutcome(cfg, db, meeting, start, end, AllocateAnyRoom(cfg, db, meeting, start, end), room)
  {
    room := 0;
    ScanOrderIsTheActiveRooms(db.rooms);
    var order := ScanOrder(db.rooms);
    if Interval(cfg, start, end).Err? {
      if order != [] {
        assert order[0] in order;
      } else {
        assert forall id | id in ActiveRooms(db.rooms) :: id in order;
      }
    } else {
      var taken := ScanTakesTheFirstEligible(cfg, db, meeting, order, start, end);
      if AllocateAnyRoom(cfg, db, meeting, start, end).Ok? {
        room := order[taken];
        FirstInScanIsLeast(cfg, db, db.meetings[meeting].client, Interval(cfg, start, end).value, taken);
      } else {
        assert forall id | id in ActiveRooms(db.rooms) :: id in order;
      }
    }
  }

  /**
    The snapshot agrees with the allocator: `availability` answers true exactly when the allocator
    would succeed for a DRAFT of that client; the allocator then reserves the least eligible room
    and changes nothing else.
   */
  lemma {:induction false} SnapshotAgreesWithAllocation(cfg: Settings, db: Db, meeting: MeetingId, start: int, end: int)
    returns (room: PublicId)
    requires meeting in db.meetings && UniqueKeys(db.meetings) && db.meetings[meeting].status == Draft
    ensures Availability(cfg, db, db.meetings[meeting].client, start, end) == Ok(true)
       <==> AllocateAnyRoom(cfg, db, meeting, start, end).Ok?
    ensures AllocationOutcome(cfg, db, meeting, start, end, AllocateAnyRoom(cfg, db, meeting, start, end), room)
  {
    room := AllocationTakesTheLeast(cfg, db, meeting, start, end);
  }
}
