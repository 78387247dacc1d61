/**
  Row locks: which transactions can wait for which. A creation locks its meeting and then rooms in
  scan order, `cancel` and the outcome commits lock one meeting, the stale sweep skips locked rows.
 */
module RowLocks {
  import opened Models
  import opened Rooms
  import opened AllocatorProofs

  datatype Resource = MeetingRow(id: MeetingId) | RoomRow(room: PublicId)

  /** Locks held and locks still to be taken, in order. */
  datatype Transaction = Transaction(held: set<Resource>, todo: seq<Resource>)

  type TxnId = nat
  type LockTable = map<TxnId, Transaction>

  datatype LockEvent =
    | StartCreation(txn: TxnId, id: MeetingId, ids: set<PublicId>)  // provision; `ids` are the rooms active now
    | StartSingle(txn: TxnId, id: MeetingId)        // cancel, or either outcome commit
    | StartSweep(txn: TxnId)
    | Acquire(txn: TxnId)
    | RollBackAttempt(txn: TxnId)                   // a refused room: the savepoint drops its lock
    | StopScanning(txn: TxnId)                      // a reserved room, or a creation that resumes its hold
    | TakeUnlocked(txn: TxnId, id: MeetingId)       // skip_locked: takes a row only if nobody holds it
    | Finish(txn: TxnId)                            // commit or rollback

  predicate Unlocked(table: LockTable, resource: Resource) {
    forall txn | txn in table :: resource !in table[txn].held
  }

  function RoomRows(order: seq<PublicId>): seq<Resource> {
    seq(|order|, i requires 0 <= i < |order| => RoomRow(order[i]))
  }

  /** One step; an event that is not possible changes nothing. Priorities are fixed, activity is not. */
  function LockStep(rooms: map<PublicId, Room>, table: LockTable, event: LockEvent): LockTable {
    match event
    case StartCreation(txn, id, ids) =>
      if txn in table || !(ids <= rooms.Keys) then table
      else table[txn := Transaction({}, [MeetingRow(id)] + RoomRows(InOrder(rooms, ids)))]
    case StartSingle(txn, id) => if txn in table then table else table[txn := Transaction({}, [MeetingRow(id)])]
    case StartSweep(txn) => if txn in table then table else table[txn := Transaction({}, [])]
    case Acquire(txn) =>
      if txn in table && table[txn].todo != [] && Unlocked(table, table[txn].todo[0])
      then table[txn := Transaction(table[txn].held + {table[txn].todo[0]}, table[txn].todo[1..])] else table
    case RollBackAttempt(txn) =>
      if txn in table then table[txn := table[txn].(held := set r | r in table[txn].held && r.MeetingRow?)] else table
    case StopScanning(txn) => if txn in table then table[txn := table[txn].(todo := [])] else table
    case TakeUnlocked(txn, id) =>
      if txn in table && table[txn].todo == [] && Unlocked(table, MeetingRow(id))
      then table[txn := table[txn].(held := table[txn].held + {MeetingRow(id)})] else table
    case Finish(txn) => table - {txn}
  }

  function LockRun(rooms: map<PublicId, Room>, events: seq<LockEvent>): LockTable {
    if events == [] then map[]
    else LockStep(rooms, LockRun(rooms, events[..|events| - 1]), events[|events| - 1])
  }

  /** Meetings come before rooms, rooms in (priority, public id) order. */
  predicate Below(rooms: map<PublicId, Room>, a: Resource, b: Resource) {
    b.RoomRow? && b.room in rooms && (a.MeetingRow? || (a.room in rooms && Before(rooms, a.room, b.room)))
  }

  predicate Waits(table: LockTable, txn: TxnId) {
    txn in table && table[txn].todo != []
  }

  predicate WaitsFor(table: LockTable, a: TxnId, b: TxnId) {
    Waits(table, a) && b in table && b != a && table[a].todo[0] in table[b].held
  }

  predicate Ordered(rooms: map<PublicId, Room>, txn: Transaction) {
    && (forall held, i | held in txn.held && 0 <= i < |txn.todo| :: Below(rooms, held, txn.todo[i]))
    && (forall i, j | 0 <= i < j < |txn.todo| :: Below(rooms, txn.todo[i], txn.todo[j]))
  }

  ghost predicate LocksInv(rooms: map<PublicId, Room>, table: LockTable) {
    forall txn | txn in table :: Ordered(rooms, table[txn])
  }

  lemma {:induction false} LocksStayOrdered(rooms: map<PublicId, Room>, events: seq<LockEvent>)
    ensures LocksInv(rooms, LockRun(rooms, events))
  {
    if events != [] {
      LocksStayOrdered(rooms, events[..|events| - 1]);
      StepStaysOrdered(rooms, LockRun(rooms, events[..|events| - 1]), events[|events| - 1]);
    }
  }

  lemma StepStaysOrdered(rooms: map<PublicId, Room>, table: LockTable, event: LockEvent)
    requires LocksInv(rooms, table)
    ensures LocksInv(rooms, LockStep(rooms, table, event))
  {
    match event {
      case StartCreation(txn, id, ids) => if ids <= rooms.Keys { InOrderSorts(rooms, ids); }
      case Acquire(txn) =>
        if Waits(table, txn) {
          assert Ordered(rooms, table[txn]);
          assert forall i | 0 <= i < |table[txn].todo[1..]| :: table[txn].todo[1..][i] == table[txn].todo[i + 1];
        }
      case _ =>
    }
  }

  /** Waiting climbs: whoever holds what one waits for waits, if at all, for something above it. */
  lemma WaitingClimbs(rooms: map<PublicId, Room>, table: LockTable, a: TxnId, b: TxnId)
    requires LocksInv(rooms, table) && WaitsFor(table, a, b) && Waits(table, b)
    ensures Below(rooms, table[a].todo[0], table[b].todo[0])
  {
    assert Ordered(rooms, table[b]);
  }

  ghost predicate WaitPath(table: LockTable, path: seq<TxnId>) {
    forall i | 0 <= i < |path| - 1 :: WaitsFor(table, path[i], path[i + 1])
  }

  lemma {:induction false} PathsClimb(rooms: map<PublicId, Room>, table: LockTable, path: seq<TxnId>)
    requires LocksInv(rooms, table) && |path| >= 2 && WaitPath(table, path) && Waits(table, path[|path| - 1])
    ensures Waits(table, path[0]) && Below(rooms, table[path[0]].todo[0], table[path[|path| - 1]].todo[0])
  {
    assert WaitsFor(table, path[0], path[1]);
    if |path| == 2 {
      WaitingClimbs(rooms, table, path[0], path[1]);
    } else {
      var rest := path[1..];
      forall i | 0 <= i < |rest| - 1
        ensures WaitsFor(table, rest[i], rest[i + 1])
      {
        assert WaitsFor(table, path[i + 1], path[i + 2]);
      }
      PathsClimb(rooms, table, rest);
      WaitingClimbs(rooms, table, path[0], path[1]);
    }
  }

  /** The wait-for relation of every reachable lock table is acyclic. */
  lemma {:induction false} NoWaitCycle(rooms: map<PublicId, Room>, events: seq<LockEvent>, cycle: seq<TxnId>)
    requires |cycle| >= 2 && cycle[0] == cycle[|cycle| - 1]
    ensures !WaitPath(LockRun(rooms, events), cycle)
  {
    var table := LockRun(rooms, events);
    LocksStayOrdered(rooms, events);
    if WaitPath(table, cycle) {
      assert WaitsFor(table, cycle[0], cycle[1]);
      PathsClimb(rooms, table, cycle);
    }
  }

  /** The transaction can take its next lock, or has none left to take. */
  predicate CanProceed(table: LockTable, txn: TxnId) {
    txn in table && (table[txn].todo == [] || Unlocked(table, table[txn].todo[0]))
  }

  function Above(rooms: map<PublicId, Room>, resource: Resource): set<PublicId> {
    set room | room in rooms && Below(rooms, resource, RoomRow(room))
  }

  lemma HigherHasFewerAbove(rooms: map<PublicId, Room>, a: Resource, b: Resource)
    requires Below(rooms, a, b)
    ensures |Above(rooms, b)| < |Above(rooms, a)|
  {
    var fewer, more := Above(rooms, b), Above(rooms, a);
    assert b.room in more && b.room !in fewer;
    assert fewer + (more - fewer) == more;
  }

  /** Following the holders from any transaction leads to one that can proceed. */
  lemma {:induction false} SomeoneProceeds(rooms: map<PublicId, Room>, table: LockTable, txn: TxnId)
    returns (free: TxnId)
    requires LocksInv(rooms, table) && txn in table && NobodyHoldsItsOwnNext(table)
    ensures CanProceed(table, free)
    decreases if table[txn].todo == [] then -1 else |Above(rooms, table[txn].todo[0])|
  {
    if CanProceed(table, txn) {
      free := txn;
    } else {
      var holder :| holder in table && table[txn].todo[0] in table[holder].held;
      assert WaitsFor(table, txn, holder);
      if Waits(table, holder) {
        WaitingClimbs(rooms, table, txn, holder);
        HigherHasFewerAbove(rooms, table[txn].todo[0], table[holder].todo[0]);
      }
      free := SomeoneProceeds(rooms, table, holder);
    }
  }

  ghost predicate NobodyHoldsItsOwnNext(table: LockTable) {
    forall txn | Waits(table, txn) :: table[txn].todo[0] !in table[txn].held
  }

  /** Deadlock freedom: as long as transactions are open, one of them can proceed. */
  lemma {:induction false} NoDeadlock(rooms: map<PublicId, Room>, events: seq<LockEvent>) returns (free: TxnId)
    requires LockRun(rooms, events) != map[]
    ensures CanProceed(LockRun(rooms, events), free)
  {
    var table := LockRun(rooms, events);
    LocksStayOrdered(rooms, events);
    forall txn | Waits(table, txn)
      ensures table[txn].todo[0] !in table[txn].held
    {
      assert Ordered(rooms, table[txn]);
    }
    var some :| some in table;
    free := SomeoneProceeds(rooms, table, some);
  }

  // ---------------------------------------------------------------------------------------------
  // Who locks what
  // ---------------------------------------------------------------------------------------------

  /**
    A creation plans to lock its meeting first and then exactly the rooms that are active, in ascending
    (priority, public id) order; it holds nothing yet, and nobody else is affected.
   */
  lemma CreationLocksItsMeetingThenTheRooms(
    rooms: map<PublicId, Room>, table: LockTable, txn: TxnId, id: MeetingId, ids: set<PublicId>)
    requires txn !in table && ids <= rooms.Keys
    ensures var after := LockStep(rooms, table, StartCreation(txn, id, ids));
      && txn in after && after == table[txn := after[txn]] && after[txn].held == {}
      && after[txn].todo != [] && after[txn].todo[0] == MeetingRow(id)
      && (forall resource :: resource in after[txn].todo[1..] <==> resource.RoomRow? && resource.room in ids)
      && (forall i, j | 1 <= i < j < |after[txn].todo| ::
            var a, b := after[txn].todo[i].room, after[txn].todo[j].room;
            rooms[a].priority < rooms[b].priority || (rooms[a].priority == rooms[b].priority && a < b))
  {
    InOrderSorts(rooms, ids);
    RoomRowsOfAnOrder(InOrder(rooms, ids));
  }

  lemma RoomRowsOfAnOrder(order: seq<PublicId>)
    ensures forall resource :: resource in RoomRows(order) <==> resource.RoomRow? && resource.room in order
  {
    forall resource: Resource | resource.RoomRow? && resource.room in order
      ensures resource in RoomRows(order)
    {
      var i :| 0 <= i < |order| && order[i] == resource.room;
      assert RoomRows(order)[i] == resource;
    }
  }

  ghost predicate Exclusive(table: LockTable) {
    forall a, b | a in table && b in table && a != b :: table[a].held !! table[b].held
  }

  lemma StepStaysExclusive(rooms: map<PublicId, Room>, table: LockTable, event: LockEvent)
    requires Exclusive(table)
    ensures Exclusive(LockStep(rooms, table, event))
  {
    var after := LockStep(rooms, table, event);
    forall a, b | a in after && b in after && a != b
      ensures after[a].held !! after[b].held
    {
      assert a in table && b in table ==> table[a].held !! table[b].held;
    }
  }

  /** A row is never locked by two transactions at once. */
  lemma {:induction false} LocksAreExclusive(rooms: map<PublicId, Room>, events: seq<LockEvent>)
    ensures Exclusive(LockRun(rooms, events))
  {
    if events != [] {
      LocksAreExclusive(rooms, events[..|events| - 1]);
      StepStaysExclusive(rooms, LockRun(rooms, events[..|events| - 1]), events[|events| - 1]);
    }
  }
}
