/**
  Room eligibility, capacity and the allocator (apps/rooms/services.py).
 */
module Rooms {
  import opened Wrappers
  import opened Configuration
  import opened Models
  import opened Text

  /** Every code a Gateway request can be refused with. `ServerError` is an unhandled exception. */
  datatype Refusal =
    | InvalidInterval | InvalidState | RoomUnavailable | RoomSlotConflict | ProviderCapacity
    | NoCapacityAvailable | CreationInProgress | ProviderReconciliationRequired
    | ClassAlreadyCompleted | PreviousCreationFailed | ClassCancelled
    | ExistingMeetingRequiresReview | ExistingMeetingMismatch | ClassDateMismatch
    | ProviderContractUnconfirmed | ProviderRefusal | InvalidRequest | ServerError

  /** The buffered reservation range of a meeting time. */
  function Interval(cfg: Settings, start: int, end: int): Result<Range, Refusal> {
    if start >= end then Err(InvalidInterval)
    else
      var lower, upper := start - cfg.bufferBefore, end + cfg.bufferAfter;
      if lower < cfg.earliest || cfg.latest < upper then Err(InvalidInterval) else Ok(Range(lower, upper))
  }

  function Layers(presets: Presets, client: ClientId, room: Room): seq<Json> {
    [ if presets.system.Some? then presets.system.value else JObj(map[]),
      if client in presets.clients then presets.clients[client] else JObj(map[]),
      OrEmpty(room.config) ]
  }

  /** The payload `resolve_config` builds for a client in a room. */
  function ResolveFor(cfg: Settings, db: Db, client: ClientId, room: Room): Option<Dict> {
    Resolve(cfg.defaultMeetingType, Layers(db.presets, client, room))
  }

  predicate IsInstant(payload: Dict) {
    "meetingType" in payload && payload["meetingType"] == JStr("instant")
  }

  predicate Configured(cfg: Settings, db: Db, client: ClientId, room: Room) {
    && room.isActive && room.maxConcurrentBookings == 1 && !Blank(room.username)
    && room.password.Readable? && room.password.text != ""
    && var resolved := ResolveFor(cfg, db, client, room);
    && resolved.Some? && IsInstant(resolved.value)
  }

  /** The statuses the provider cap counts. */
  predicate Counted(status: Status) {
    status in {Reserved, Provisioning, Ready, Live, ProviderResponseInvalid, ProviderStateUnknown}
  }

  function CountedIn(meetings: Meetings, room: PublicId): set<MeetingId> {
    set id | id in meetings && meetings[id].room == Some(room) && Counted(meetings[id].status)
  }

  /** The reservation query of `capacity_error`. */
  predicate SlotTaken(meetings: Meetings, room: PublicId, slot: Range) {
    exists id | id in meetings :: Occupies(meetings[id], room, slot)
  }

  predicate Occupies(row: Meeting, room: PublicId, slot: Range) {
    row.room == Some(room) && row.active && row.reservation.Some? && Overlap(row.reservation.value, slot)
  }

  function CapacityError(db: Db, id: PublicId, slot: Range): Option<Refusal>
    requires id in db.rooms
  {
    if SlotTaken(db.meetings, id, slot) then Some(RoomSlotConflict)
    else if db.rooms[id].activeLimit.Some? && |CountedIn(db.meetings, id)| >= db.rooms[id].activeLimit.value
    then Some(ProviderCapacity)
    else None
  }

  /** The row a successful reservation writes. */
  function ReservedRow(row: Meeting, room: PublicId, slot: Range, start: int, end: int): Meeting {
    row.(room := Some(room), startAt := Some(start), endAt := Some(end), reservation := Some(slot),
         active := true, status := Reserved)
  }

  /** `reserve_specific_room`: the savepoint keeps a refused attempt from changing anything. */
  function ReserveSpecificRoom(cfg: Settings, db: Db, meeting: MeetingId, room: PublicId, start: int, end: int)
    : (r: Result<Db, Refusal>)
    requires meeting in db.meetings
    ensures r.Ok? ==> meeting in r.value.meetings && r.value.meetings[meeting].room.Some?
  {
    var slot := Interval(cfg, start, end);
    if slot.Err? then Err(slot.error)
    else
      var locked := db.meetings[meeting];
      if locked.status != Draft then Err(InvalidState)
      else if room !in db.rooms || !Configured(cfg, db, locked.client, db.rooms[room]) then Err(RoomUnavailable)
      else
        var conflict := CapacityError(db, room, slot.value);
        if conflict.Some? then Err(conflict.value)
        else
          match Save(db, meeting, ReservedRow(locked, room, slot.value, start, end))
          case Saved(after) => Ok(after)
          case ExclusionViolated => Err(RoomSlotConflict)
          case ConstraintViolated => Err(ServerError)
  }

  predicate TriesNextRoom(code: Refusal) {
    code in {RoomSlotConflict, RoomUnavailable, ProviderCapacity}
  }

  /** The loop of `allocate_any_room` over the remaining candidate rooms. */
  function AllocateFrom(cfg: Settings, db: Db, meeting: MeetingId, candidates: seq<PublicId>, start: int, end: int)
    : (r: Result<Db, Refusal>)
    requires meeting in db.meetings
    ensures r.Ok? ==> meeting in r.value.meetings && r.value.meetings[meeting].room.Some?
  {
    if candidates == [] then Err(NoCapacityAvailable)
    else
      var attempt := ReserveSpecificRoom(cfg, db, meeting, candidates[0], start, end);
      if attempt.Err? && TriesNextRoom(attempt.error)
      then AllocateFrom(cfg, db, meeting, candidates[1..], start, end)
      else attempt
  }

  // ---------------------------------------------------------------------------------------------
  // The scan order
  // ---------------------------------------------------------------------------------------------

  /** (priority, public id), compared lexicographically. */
  predicate Before(rooms: map<PublicId, Room>, a: PublicId, b: PublicId)
    requires a in rooms && b in rooms
  {
    rooms[a].priority < rooms[b].priority || (rooms[a].priority == rooms[b].priority && a < b)
  }

  predicate IsFirst(rooms: map<PublicId, Room>, ids: set<PublicId>, first: PublicId)
    requires ids <= rooms.Keys
  {
    first in ids && forall other | other in ids && other != first :: Before(rooms, first, other)
  }

  lemma {:induction false} FirstExists(rooms: map<PublicId, Room>, ids: set<PublicId>)
    requires ids <= rooms.Keys && ids != {}
    ensures exists first :: IsFirst(rooms, ids, first)
    decreases |ids|
  {
    var some :| some in ids;
    var rest := ids - {some};
    if rest == {} {
      assert ids == {some} + rest;
      assert IsFirst(rooms, ids, some);
    } else {
      FirstExists(rooms, rest);
      var least :| IsFirst(rooms, rest, least);
      var first := if Before(rooms, some, least) then some else least;
      forall other | other in ids && other != first
        ensures Before(rooms, first, other)
      {
        assert other == some || other in rest;
      }
      assert IsFirst(rooms, ids, first);
    }
  }

  function InOrder(rooms: map<PublicId, Room>, ids: set<PublicId>): seq<PublicId>
    requires ids <= rooms.Keys
    decreases |ids|
  {
    if ids == {} then []
    else
      FirstExists(rooms, ids);
      var first :| IsFirst(rooms, ids, first);
      [first] + InOrder(rooms, ids - {first})
  }

  function ActiveRooms(rooms: map<PublicId, Room>): set<PublicId> {
    set id | id in rooms && rooms[id].isActive
  }

  /** The active rooms in the order the allocator visits them. */
  function ScanOrder(rooms: map<PublicId, Room>): seq<PublicId> {
    InOrder(rooms, ActiveRooms(rooms))
  }

  /** `allocate_any_room`. */
  function AllocateAnyRoom(cfg: Settings, db: Db, meeting: MeetingId, start: int, end: int): (r: Result<Db, Refusal>)
    requires meeting in db.meetings
    ensures r.Ok? ==> meeting in r.value.meetings && r.value.meetings[meeting].room.Some?
  {
    AllocateFrom(cfg, db, meeting, ScanOrder(db.rooms), start, end)
  }

  predicate Eligible(cfg: Settings, db: Db, client: ClientId, room: PublicId, slot: Range) {
    room in db.rooms && Configured(cfg, db, client, db.rooms[room]) && CapacityError(db, room, slot).None?
  }

  /** `availability`: the read-only snapshot. */
  function Availability(cfg: Settings, db: Db, client: ClientId, start: int, end: int): Result<bool, Refusal> {
    var slot := Interval(cfg, start, end);
    if slot.Err? then Err(slot.error)
    else Ok(exists room | room in ActiveRooms(db.rooms) :: Eligible(cfg, db, client, room, slot.value))
  }
}
