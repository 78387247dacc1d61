/**
  n requests with pairwise overlapping slots race over k free rooms, interleaved attempt by attempt.
 */
module RoomRace {
  import opened Wrappers
  import opened Sets
  import opened Models
  import opened Rooms
  import opened AllocatorProofs

  datatype Racer = Trying(next: nat) | Won(room: PublicId) | Lost

  /** The stored state and how far each racing meeting has come in the scan. */
  datatype Race = Race(db: Db, racers: map<MeetingId, Racer>)

  /**
    What does not change during a race: the scan order, the open rooms in it, and each meeting's times
    and client.
   */
  datatype Field = Field(
    order: seq<PublicId>,
    open: set<PublicId>,
    start: map<MeetingId, int>,
    end: map<MeetingId, int>,
    client: map<MeetingId, ClientId>
  )

  predicate Races(field: Field, ids: set<MeetingId>) {
    ids == field.start.Keys == field.end.Keys == field.client.Keys
  }

  /** One attempt of one meeting at its current room. */
  function Attempt(cfg: Settings, field: Field, race: Race, id: MeetingId): Race
    requires Races(field, race.racers.Keys)
  {
    if id !in race.racers || !race.racers[id].Trying? then race
    else
      var next := race.racers[id].next;
      if next >= |field.order| || id !in race.db.meetings then race.(racers := race.racers[id := Lost])
      else
        match ReserveSpecificRoom(cfg, race.db, id, field.order[next], field.start[id], field.end[id])
        case Ok(after) => Race(after, race.racers[id := Won(field.order[next])])
        case Err(code) =>
          var racer := if TriesNextRoom(code) && next + 1 < |field.order| then Trying(next + 1) else Lost;
          race.(racers := race.racers[id := racer])
  }

  function Play(cfg: Settings, field: Field, race: Race, schedule: seq<MeetingId>): (after: Race)
    requires Races(field, race.racers.Keys)
    ensures Races(field, after.racers.Keys)
  {
    if schedule == [] then race
    else Attempt(cfg, field, Play(cfg, field, race, schedule[..|schedule| - 1]), schedule[|schedule| - 1])
  }

  function Slot(cfg: Settings, field: Field, id: MeetingId): Range
    requires id in field.start && id in field.end
  {
    Range(field.start[id] - cfg.bufferBefore, field.end[id] + cfg.bufferAfter)
  }

  /** Every slot is valid and overlaps every other one. */
  ghost predicate AllOverlap(cfg: Settings, field: Field) {
    && field.start.Keys == field.end.Keys
    && (forall id | id in field.start :: Interval(cfg, field.start[id], field.end[id]) == Ok(Slot(cfg, field, id)))
    && (forall a, b | a in field.start && b in field.start :: Overlap(Slot(cfg, field, a), Slot(cfg, field, b)))
  }

  /** The open rooms are scanned, uncapped, and configured for every racing client. */
  ghost predicate RoomsAreOpen(cfg: Settings, field: Field, db: Db) {
    && (forall room | room in field.open :: room in field.order && room in db.rooms && db.rooms[room].activeLimit.None?)
    && (forall room, id | room in field.open && id in field.client ::
          room in db.rooms && Configured(cfg, db, field.client[id], db.rooms[room]))
  }

  /** A meeting outside the race holds the room during the slot. */
  predicate HeldByOutsider(field: Field, db: Db, room: PublicId, slot: Range) {
    exists other | other in db.meetings && other !in field.start :: Occupies(db.meetings[other], room, slot)
  }

  /** The room is busy, full or not configured for the meeting, and no racing changes that. */
  ghost predicate ShutFor(cfg: Settings, field: Field, db: Db, room: PublicId, id: MeetingId)
    requires id in field.start && id in field.end && id in field.client
  {
    room in db.rooms ==>
      || !Configured(cfg, db, field.client[id], db.rooms[room])
      || HeldByOutsider(field, db, room, Slot(cfg, field, id))
      || (db.rooms[room].activeLimit.Some? && |CountedIn(db.meetings, room)| >= db.rooms[room].activeLimit.value)
  }

  ghost predicate OthersAreShut(cfg: Settings, field: Field, db: Db)
    requires field.start.Keys == field.end.Keys == field.client.Keys
  {
    forall room, id | room in field.order && room !in field.open && id in field.client ::
      ShutFor(cfg, field, db, room, id)
  }

  predicate DraftOf(field: Field, db: Db, id: MeetingId) {
    && id in db.meetings && db.meetings[id].status == Draft && !db.meetings[id].active
    && id in field.client && db.meetings[id].client == field.client[id]
  }

  ghost predicate IsFree(cfg: Settings, field: Field, db: Db, room: PublicId)
    requires field.start.Keys == field.end.Keys
  {
    forall id | id in field.start :: !SlotTaken(db.meetings, room, Slot(cfg, field, id))
  }

  /** Each scanned room is either open, that is uncapped and eligible for everyone, or eligible for nobody. */
  ghost predicate OpenOrShut(cfg: Settings, field: Field, db: Db)
    requires field.start.Keys == field.end.Keys == field.client.Keys
  {
    && (forall room, id | room in field.order && room !in field.open && id in field.client ::
          !Eligible(cfg, db, field.client[id], room, Slot(cfg, field, id)))
    && RoomsAreOpen(cfg, field, db)
    && (forall room | room in field.open :: IsFree(cfg, field, db, room))
  }

  /** The start of a race over the active rooms: everyone is a DRAFT at the first room of the scan. */
  ghost predicate Starting(cfg: Settings, field: Field, race: Race) {
    && Races(field, race.racers.Keys) && AllOverlap(cfg, field)
    && field.order == ScanOrder(race.db.rooms) && OpenOrShut(cfg, field, race.db)
    && UniqueKeys(race.db.meetings)
    && (forall id | id in race.racers :: race.racers[id] == Trying(0) && DraftOf(field, race.db, id))
  }

  predicate WonBy(race: Race, id: MeetingId, room: PublicId) {
    id in race.racers && race.racers[id] == Won(room)
  }

  ghost predicate Taken(race: Race, room: PublicId) {
    exists id :: WonBy(race, id, room)
  }

  predicate HoldsSlot(cfg: Settings, field: Field, db: Db, id: MeetingId, room: PublicId) {
    && id in field.start && id in field.end && id in db.meetings
    && db.meetings[id].active && db.meetings[id].room == Some(room)
    && db.meetings[id].reservation == Some(Slot(cfg, field, id))
  }

  ghost predicate RacerOk(cfg: Settings, field: Field, race: Race, id: MeetingId)
    requires id in race.racers
  {
    match race.racers[id]
    case Trying(next) =>
      && DraftOf(field, race.db, id)
      && forall j | 0 <= j < next && j < |field.order| && field.order[j] in field.open :: Taken(race, field.order[j])
    case Won(room) => room in field.open && HoldsSlot(cfg, field, race.db, id, room)
    case Lost => forall room | room in field.open :: Taken(race, room)
  }

  ghost predicate RaceInv(cfg: Settings, field: Field, race: Race) {
    && Races(field, race.racers.Keys) && AllOverlap(cfg, field) && RoomsAreOpen(cfg, field, race.db)
    && OthersAreShut(cfg, field, race.db)
    && UniqueKeys(race.db.meetings)
    && RacersInv(cfg, field, race)
  }

  ghost predicate RacersInv(cfg: Settings, field: Field, race: Race)
    requires field.start.Keys == field.end.Keys
  {
    && (forall id | id in race.racers :: RacerOk(cfg, field, race, id))
    && (forall room | room in field.open :: Taken(race, room) || IsFree(cfg, field, race.db, room))
    && (forall a, b, room | WonBy(race, a, room) && WonBy(race, b, room) :: a == b)
  }

  lemma StartingIsGood(cfg: Settings, field: Field, race: Race)
    requires Starting(cfg, field, race)
    ensures RaceInv(cfg, field, race)
  {
    forall room, id | room in field.order && room !in field.open && id in field.client
      ensures ShutFor(cfg, field, race.db, room, id)
    {
      IneligibleIsShut(cfg, field, race, room, id);
    }
  }

  /** Nobody in the race holds anything yet, so a busy room is held by an outsider. */
  lemma IneligibleIsShut(cfg: Settings, field: Field, race: Race, room: PublicId, id: MeetingId)
    requires Races(field, race.racers.Keys) && id in field.client
    requires forall racer | racer in race.racers :: DraftOf(field, race.db, racer)
    requires !Eligible(cfg, race.db, field.client[id], room, Slot(cfg, field, id))
    ensures ShutFor(cfg, field, race.db, room, id)
  {
    if SlotTaken(race.db.meetings, room, Slot(cfg, field, id)) {
      var other :| other in race.db.meetings && Occupies(race.db.meetings[other], room, Slot(cfg, field, id));
      assert other in race.racers ==> DraftOf(field, race.db, other);
    }
  }

  /** A room is eligible for a trying meeting exactly when it is open and no racer holds it. */
  lemma EligibleIffNotTaken(cfg: Settings, field: Field, race: Race, id: MeetingId, i: nat)
    requires RaceInv(cfg, field, race) && id in race.racers && race.racers[id].Trying? && i < |field.order|
    ensures id in race.db.meetings
    ensures race.db.meetings[id].status == Draft && UniqueKeys(race.db.meetings)
    ensures Interval(cfg, field.start[id], field.end[id]) == Ok(Slot(cfg, field, id))
    ensures Eligible(cfg, race.db, race.db.meetings[id].client, field.order[i], Slot(cfg, field, id))
       <==> field.order[i] in field.open && !Taken(race, field.order[i])
  {
    assert RacerOk(cfg, field, race, id);
    var room := field.order[i];
    if room !in field.open {
      assert ShutFor(cfg, field, race.db, room, id);
    } else if Taken(race, room) {
      var holder :| WonBy(race, holder, room);
      assert RacerOk(cfg, field, race, holder);
      assert Occupies(race.db.meetings[holder], room, Slot(cfg, field, id));
    }
  }

  /** What an attempt does: it wins a room nobody holds, or moves on from one somebody holds. */
  ghost predicate Wins(cfg: Settings, field: Field, race: Race, after: Race, id: MeetingId, room: PublicId) {
    && id in race.racers && after.racers == race.racers[id := Won(room)] && id in race.db.meetings
    && after.db.rooms == race.db.rooms && after.db.presets == race.db.presets
    && HoldsSlot(cfg, field, after.db, id, room)
    && after.db.meetings == race.db.meetings[id := after.db.meetings[id]]
    && SameKey(race.db.meetings[id], after.db.meetings[id]) && !Counted(race.db.meetings[id].status)
  }

  ghost predicate MovesOn(field: Field, race: Race, after: Race, id: MeetingId, next: nat) {
    && id in race.racers
    && after == race.(racers := race.racers[id := if next + 1 < |field.order| then Trying(next + 1) else Lost])
  }

  lemma AttemptOutcome(cfg: Settings, field: Field, race: Race, id: MeetingId)
    requires RaceInv(cfg, field, race) && id in race.racers && race.racers[id].Trying?
    ensures var next, after := race.racers[id].next, Attempt(cfg, field, race, id);
      if next < |field.order| && field.order[next] in field.open && !Taken(race, field.order[next])
      then Wins(cfg, field, race, after, id, field.order[next])
      else MovesOn(field, race, after, id, next)
  {
    var next := race.racers[id].next;
    if next < |field.order| {
      EligibleIffNotTaken(cfg, field, race, id, next);
      AttemptFollowsEligibility(cfg, field, race, id, next);
    }
  }

  lemma AttemptFollowsEligibility(cfg: Settings, field: Field, race: Race, id: MeetingId, next: nat)
    requires Races(field, race.racers.Keys) && UniqueKeys(race.db.meetings)
    requires id in race.racers && race.racers[id] == Trying(next) && next < |field.order|
    requires id in race.db.meetings && race.db.meetings[id].status == Draft
    requires Interval(cfg, field.start[id], field.end[id]) == Ok(Slot(cfg, field, id))
    ensures var after := Attempt(cfg, field, race, id);
      if Eligible(cfg, race.db, race.db.meetings[id].client, field.order[next], Slot(cfg, field, id))
      then Wins(cfg, field, race, after, id, field.order[next])
      else MovesOn(field, race, after, id, next)
  {
    AttemptSucceedsIffEligible(cfg, race.db, id, field.order[next], field.start[id], field.end[id]);
  }

  lemma TakenStays(race: Race, after: Race, id: MeetingId)
    requires id in race.racers && race.racers[id].Trying? && id in after.racers
    requires after.racers == race.racers[id := after.racers[id]]
    ensures forall room | Taken(race, room) :: Taken(after, room)
  {
    forall room | Taken(race, room)
      ensures Taken(after, room)
    {
      var holder :| WonBy(race, holder, room);
      assert WonBy(after, holder, room);
    }
  }

  /** A racer that did not move stays as good as it was. */
  lemma BystanderStaysOk(cfg: Settings, field: Field, race: Race, after: Race, other: MeetingId)
    requires other in race.racers && RacerOk(cfg, field, race, other)
    requires other in after.racers && after.racers[other] == race.racers[other]
    requires other in race.db.meetings ==>
      other in after.db.meetings && after.db.meetings[other] == race.db.meetings[other]
    requires forall room | Taken(race, room) :: Taken(after, room)
    ensures RacerOk(cfg, field, after, other)
  {
  }

  lemma RoomsStayOpen(cfg: Settings, field: Field, db: Db, after: Db)
    requires RoomsAreOpen(cfg, field, db) && after.rooms == db.rooms && after.presets == db.presets
    ensures RoomsAreOpen(cfg, field, after)
  {
  }

  lemma RacersStayOk(cfg: Settings, field: Field, race: Race, after: Race, id: MeetingId, room: PublicId)
    requires Wins(cfg, field, race, after, id, room) && room in field.open
    requires forall other | other in race.racers :: RacerOk(cfg, field, race, other)
    requires forall r | Taken(race, r) :: Taken(after, r)
    ensures forall other | other in after.racers :: RacerOk(cfg, field, after, other)
  {
    forall other | other in after.racers
      ensures RacerOk(cfg, field, after, other)
    {
      if other != id { BystanderStaysOk(cfg, field, race, after, other); }
    }
  }

  lemma WinKeepsInv(cfg: Settings, field: Field, race: Race, after: Race, id: MeetingId, room: PublicId)
    requires RaceInv(cfg, field, race) && Wins(cfg, field, race, after, id, room)
    requires race.racers[id].Trying? && room in field.open && !Taken(race, room)
    ensures RaceInv(cfg, field, after)
  {
    KeysStayUnique(race.db.meetings, after.db.meetings, id);
    RoomsStayOpen(cfg, field, race.db, after.db);
    assert after.racers.Keys == race.racers.Keys;
    WinLeavesOthersShut(cfg, field, race, after, id, room);
    WinKeepsRacers(cfg, field, race, after, id, room);
  }

  lemma WinKeepsRacers(cfg: Settings, field: Field, race: Race, after: Race, id: MeetingId, room: PublicId)
    requires field.start.Keys == field.end.Keys && RacersInv(cfg, field, race)
    requires Wins(cfg, field, race, after, id, room)
    requires race.racers[id].Trying? && room in field.open && !Taken(race, room)
    ensures RacersInv(cfg, field, after)
  {
    TakenStays(race, after, id);
    assert WonBy(after, id, room);
    RacersStayOk(cfg, field, race, after, id, room);
    WinLeavesOtherRoomsFree(cfg, field, race, after, id, room);
    WinnersStayDistinct(race, after, id, room);
  }

  lemma KeysStayUnique(before: Meetings, after: Meetings, id: MeetingId)
    requires UniqueKeys(before) && id in before && id in after && after == before[id := after[id]]
        && SameKey(before[id], after[id])
    ensures UniqueKeys(after)
  {
    assert forall a, b | a in after && b in after && a != b :: !SameKey(before[a], before[b]);
  }

  lemma WinnersStayDistinct(race: Race, after: Race, id: MeetingId, room: PublicId)
    requires id in race.racers && race.racers[id].Trying? && !Taken(race, room)
    requires after.racers == race.racers[id := Won(room)]
    requires forall a, b, r | WonBy(race, a, r) && WonBy(race, b, r) :: a == b
    ensures forall a, b, r | WonBy(after, a, r) && WonBy(after, b, r) :: a == b
  {
    forall a, b, r | WonBy(after, a, r) && WonBy(after, b, r)
      ensures a == b
    {
      assert a != id ==> WonBy(race, a, r);
      assert b != id ==> WonBy(race, b, r);
    }
  }

  lemma WinLeavesOtherRoomsFree(cfg: Settings, field: Field, race: Race, after: Race, id: MeetingId, room: PublicId)
    requires field.start.Keys == field.end.Keys && WonBy(after, id, room)
    requires forall r | r in field.open :: Taken(race, r) || IsFree(cfg, field, race.db, r)
    requires forall r | Taken(race, r) :: Taken(after, r)
    requires id in race.db.meetings && id in after.db.meetings && after.db.meetings.Keys == race.db.meetings.Keys
    requires forall other | other in race.db.meetings && other != id ::
      after.db.meetings[other] == race.db.meetings[other]
    requires after.db.meetings[id].room == Some(room)
    ensures forall r | r in field.open :: Taken(after, r) || IsFree(cfg, field, after.db, r)
  {
    forall r | r in field.open && !Taken(after, r)
      ensures IsFree(cfg, field, after.db, r)
    {
      assert r != room;
      forall racer, other | racer in field.start && other in after.db.meetings
        ensures !Occupies(after.db.meetings[other], r, Slot(cfg, field, racer))
      {
        assert !SlotTaken(race.db.meetings, r, Slot(cfg, field, racer));
        if other != id { assert !Occupies(race.db.meetings[other], r, Slot(cfg, field, racer)); }
      }
    }
  }

  /** Winning an open room changes nothing in the others: not who holds them and not their count. */
  lemma WinLeavesOthersShut(cfg: Settings, field: Field, race: Race, after: Race, id: MeetingId, room: PublicId)
    requires Races(field, race.racers.Keys) && Wins(cfg, field, race, after, id, room) && room in field.open
    requires OthersAreShut(cfg, field, race.db)
    ensures OthersAreShut(cfg, field, after.db)
  {
    forall r, racer | r in field.order && r !in field.open && racer in field.client
      ensures ShutFor(cfg, field, after.db, r, racer)
    {
      assert ShutFor(cfg, field, race.db, r, racer);
      assert CountedIn(after.db.meetings, r) == CountedIn(race.db.meetings, r);
      assert forall other | other in race.db.meetings && other !in field.start ::
          after.db.meetings[other] == race.db.meetings[other];
    }
  }

  lemma MovingOnKeepsRacers(cfg: Settings, field: Field, race: Race, after: Race, id: MeetingId, next: nat)
    requires forall other | other in race.racers :: RacerOk(cfg, field, race, other)
    requires MovesOn(field, race, after, id, next) && race.racers[id] == Trying(next)
    requires forall room | room in field.open :: room in field.order
    requires next < |field.order| && field.order[next] in field.open ==> Taken(race, field.order[next])
    ensures forall other | other in after.racers :: RacerOk(cfg, field, after, other)
    ensures forall room | Taken(race, room) :: Taken(after, room)
    ensures forall other, room :: WonBy(after, other, room) ==> WonBy(race, other, room)
  {
    TakenStays(race, after, id);
    assert RacerOk(cfg, field, race, id);
    forall other | other in after.racers
      ensures RacerOk(cfg, field, after, other)
    {
      if other != id { BystanderStaysOk(cfg, field, race, after, other); }
    }
  }

  lemma MovingOnKeepsInv(cfg: Settings, field: Field, race: Race, after: Race, id: MeetingId, next: nat)
    requires RaceInv(cfg, field, race) && MovesOn(field, race, after, id, next) && race.racers[id] == Trying(next)
    requires next < |field.order| && field.order[next] in field.open ==> Taken(race, field.order[next])
    ensures RaceInv(cfg, field, after)
  {
    MovingOnKeepsRacers(cfg, field, race, after, id, next);
  }

  lemma {:induction false} PlayKeepsInv(cfg: Settings, field: Field, race: Race, schedule: seq<MeetingId>)
    requires Starting(cfg, field, race)
    ensures RaceInv(cfg, field, Play(cfg, field, race, schedule))
  {
    if schedule == [] {
      StartingIsGood(cfg, field, race);
    } else {
      var front, id := schedule[..|schedule| - 1], schedule[|schedule| - 1];
      var before := Play(cfg, field, race, front);
      PlayKeepsInv(cfg, field, race, front);
      if id in before.racers && before.racers[id].Trying? {
        var next, after := before.racers[id].next, Attempt(cfg, field, before, id);
        AttemptOutcome(cfg, field, before, id);
        if next < |field.order| && field.order[next] in field.open && !Taken(before, field.order[next]) {
          WinKeepsInv(cfg, field, before, after, id, field.order[next]);
        } else {
          MovingOnKeepsInv(cfg, field, before, after, id, next);
        }
      }
    }
  }

  function Winners(race: Race): map<MeetingId, PublicId> {
    map id | id in race.racers && race.racers[id].Won? :: race.racers[id].room
  }

  predicate Over(race: Race) {
    forall id | id in race.racers :: !race.racers[id].Trying?
  }

  function Min(a: nat, b: nat): nat {
    if a <= b then a else b
  }

  /** When every room is won, there are at least as many winners as rooms. */
  lemma {:induction false} EveryRoomHasItsWinner(race: Race, rooms: set<PublicId>)
    requires forall room | room in rooms :: Taken(race, room)
    ensures |rooms| <= |Winners(race).Keys|
  {
    var holder := map room | room in rooms :: (var id :| WonBy(race, id, room); id);
    Pigeonhole(holder, Winners(race).Keys);
    assert holder.Keys == rooms;
  }

  /**
    However the attempts over the active rooms interleave, a race that is over has exactly min(n, k)
    winners for k open rooms, in distinct open rooms, and every winner really holds its slot.
   */
  lemma {:induction false} ExactlyMinWin(cfg: Settings, field: Field, race: Race, schedule: seq<MeetingId>)
    requires Starting(cfg, field, race) && Over(Play(cfg, field, race, schedule))
    ensures var after := Play(cfg, field, race, schedule);
      var winners := Winners(after);
      && |winners.Keys| == Min(|race.racers.Keys|, |field.open|)
      && (forall a, b | a in winners && b in winners && a != b :: winners[a] != winners[b])
      && (forall id | id in winners :: winners[id] in field.open && HoldsSlot(cfg, field, after.db, id, winners[id]))
  {
    PlayKeepsInv(cfg, field, race, schedule);
    PlayKeepsRacers(cfg, field, race, schedule);
    WinnersHold(cfg, field, Play(cfg, field, race, schedule));
    WinnersCount(cfg, field, Play(cfg, field, race, schedule));
  }

  lemma {:induction false} PlayKeepsRacers(cfg: Settings, field: Field, race: Race, schedule: seq<MeetingId>)
    requires Races(field, race.racers.Keys)
    ensures Play(cfg, field, race, schedule).racers.Keys == race.racers.Keys
  {
    if schedule != [] {
      PlayKeepsRacers(cfg, field, race, schedule[..|schedule| - 1]);
    }
  }

  lemma WinnersHold(cfg: Settings, field: Field, race: Race)
    requires RaceInv(cfg, field, race)
    ensures var winners := Winners(race);
      && (forall a, b | a in winners && b in winners && a != b :: winners[a] != winners[b])
      && (forall id | id in winners :: winners[id] in field.open && HoldsSlot(cfg, field, race.db, id, winners[id]))
  {
    var winners := Winners(race);
    forall id | id in winners
      ensures WonBy(race, id, winners[id]) && winners[id] in field.open
          && HoldsSlot(cfg, field, race.db, id, winners[id])
    {
      assert RacerOk(cfg, field, race, id);
    }
  }

  lemma WinnersFit(cfg: Settings, field: Field, race: Race)
    requires RaceInv(cfg, field, race)
    ensures |Winners(race).Keys| <= |race.racers.Keys| && |Winners(race).Keys| <= |field.open|
  {
    var winners := Winners(race);
    WinnersHold(cfg, field, race);
    Pigeonhole(winners, field.open);
    SubsetIsSmaller(winners.Keys, race.racers.Keys);
  }

  /** Once somebody has lost, every room is won. */
  lemma ALoserSawEveryRoomTaken(cfg: Settings, field: Field, race: Race, id: MeetingId)
    requires RaceInv(cfg, field, race) && id in race.racers && race.racers[id].Lost?
    ensures |field.open| <= |Winners(race).Keys|
  {
    assert RacerOk(cfg, field, race, id);
    EveryRoomHasItsWinner(race, field.open);
  }

  lemma WinnersCount(cfg: Settings, field: Field, race: Race)
    requires RaceInv(cfg, field, race) && Over(race)
    ensures |Winners(race).Keys| == Min(|race.racers.Keys|, |field.open|)
  {
    WinnersFit(cfg, field, race);
    if SomebodyLost(race) { LosersMeanNoRoomIsLeft(cfg, field, race); } else { EverybodyWon(race); }
  }

  lemma LosersMeanNoRoomIsLeft(cfg: Settings, field: Field, race: Race)
    requires RaceInv(cfg, field, race) && SomebodyLost(race)
    ensures |field.open| <= |Winners(race).Keys|
  {
    var id :| id in race.racers && race.racers[id].Lost?;
    ALoserSawEveryRoomTaken(cfg, field, race, id);
  }

  ghost predicate SomebodyLost(race: Race) {
    exists id :: id in race.racers && race.racers[id].Lost?
  }

  lemma EverybodyWon(race: Race)
    requires Over(race) && !SomebodyLost(race)
    ensures Winners(race).Keys == race.racers.Keys
  {
  }

  function Attempts(schedule: seq<MeetingId>, id: MeetingId): nat {
    if schedule == [] then 0
    else Attempts(schedule[..|schedule| - 1], id) + (if schedule[|schedule| - 1] == id then 1 else 0)
  }

  lemma AttemptAdvances(cfg: Settings, field: Field, race: Race, id: MeetingId, other: MeetingId)
    requires Races(field, race.racers.Keys) && id in race.racers
    ensures var after := Attempt(cfg, field, race, other);
      && id in after.racers
      && (id != other ==> after.racers[id] == race.racers[id])
      && (id == other && after.racers[id].Trying? ==>
            race.racers[id].Trying? && after.racers[id].next == race.racers[id].next + 1 < |field.order|)
  {
  }

  /** A meeting settles at the latest when it has tried every scanned room, so every fair race ends. */
  lemma {:induction false} EnoughAttemptsSettle(
    cfg: Settings, field: Field, race: Race, schedule: seq<MeetingId>, id: MeetingId)
    requires Starting(cfg, field, race) && id in race.racers
    ensures id in Play(cfg, field, race, schedule).racers
    ensures Play(cfg, field, race, schedule).racers[id].Trying? ==>
      Attempts(schedule, id) == Play(cfg, field, race, schedule).racers[id].next
    ensures Attempts(schedule, id) > 0 && Attempts(schedule, id) >= |field.order|
        ==> !Play(cfg, field, race, schedule).racers[id].Trying?
  {
    if schedule != [] {
      var front, other := schedule[..|schedule| - 1], schedule[|schedule| - 1];
      EnoughAttemptsSettle(cfg, field, race, front, id);
      AttemptAdvances(cfg, field, Play(cfg, field, race, front), id, other);
    }
  }
}
