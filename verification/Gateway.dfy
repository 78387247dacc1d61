/**
  The gateway's services as they run: rows are read, changed field by field and saved, loops scan
  rooms and rows, and a refused transaction rolls back. Every method is proved against the
  transaction of the same name.
 */
module Gateways {
  import opened Wrappers
  import opened Configuration
  import opened Models
  import opened Text
  import opened Rooms
  import opened AllocatorProofs
  import opened Provider
  import opened Transactions
  import opened Invariants
  import opened StepProofs

  /** What the stale sweep leaves of a row it may lock. */
  function Flagged(row: Meeting, now: int): Meeting {
    if Stale(row, now) then UnknownRow(row).(updatedAt := now) else row
  }

  /** What the release action leaves of a selected row. */
  function Released(row: Meeting, now: int): Meeting {
    if Releasable(row.status) then EndedRow(row).(updatedAt := now) else row
  }

  /** A saved row that keeps its core keeps a good store good. */
  lemma SavedRowKeepsDb(cfg: Settings, db: Db, id: MeetingId, row: Meeting)
    requires DbInv(cfg, db) && id in db.meetings && RowOk(cfg, row) && SameCore(db.meetings[id], row)
    requires Save(db, id, row).Saved?
    ensures DbInv(cfg, Save(db, id, row).db)
  {
    assert RoomKnown(db, db.meetings[id]);
    SaveKeepsDb(cfg, db, id, row);
  }

  /** The outcome commits and `cancel` keep a good store good. */
  lemma CommitsKeepDb(cfg: Settings, db: Db, id: MeetingId)
    requires DbInv(cfg, db) && id in db.meetings
    ensures forall error | LiveStatus(db.meetings[id].status) && CommitFailure(db, id, error).Saved? ::
      DbInv(cfg, CommitFailure(db, id, error).db)
    ensures forall data | AcceptsSuccess(db.meetings[id]) && CommitSuccess(db, id, data).Saved? ::
      DbInv(cfg, CommitSuccess(db, id, data).db)
    ensures Cancellable(db.meetings[id].status) && Save(db, id, CancelledRow(db.meetings[id])).Saved? ==>
      DbInv(cfg, Save(db, id, CancelledRow(db.meetings[id])).db)
  {
    var row := db.meetings[id];
    assert RowOk(cfg, row);
    forall error | LiveStatus(row.status) && CommitFailure(db, id, error).Saved?
      ensures DbInv(cfg, CommitFailure(db, id, error).db)
    {
      FailedRowOk(cfg, row, error);
      SavedRowKeepsDb(cfg, db, id, FailedRow(row, error));
    }
    forall data | AcceptsSuccess(row) && CommitSuccess(db, id, data).Saved?
      ensures DbInv(cfg, CommitSuccess(db, id, data).db)
    {
      ReadyRowOk(cfg, row, data);
      SavedRowKeepsDb(cfg, db, id, ReadyRow(row, data));
    }
    if Cancellable(row.status) && Save(db, id, CancelledRow(row)).Saved? {
      SavedRowKeepsDb(cfg, db, id, CancelledRow(row));
    }
  }

  /** `register` keeps a good store good. */
  lemma RegisterKeepsDb(cfg: Settings, db: Db, client: ClientId, values: Values, newId: MeetingId)
    requires DbInv(cfg, db) && newId !in db.meetings && Save(db, newId, DraftRow(client, values)).Saved?
    ensures DbInv(cfg, Save(db, newId, DraftRow(client, values)).db)
  {
    DraftKeepsDb(cfg, db, newId, DraftRow(client, values).(updatedAt := db.now));
  }

  /** A recovery from an instance with the row's own room and slot is saved and keeps a good store good. */
  lemma RecoveryKeepsDb(cfg: Settings, db: Db, id: MeetingId, loaded: Meeting, form: RecoveryForm)
    requires DbInv(cfg, db) && id in db.meetings && SameCore(db.meetings[id], loaded)
    requires RecoveryAccepted(db.meetings[id], loaded, form)
    ensures Save(db, id, RecoveredRow(loaded, form)).Saved?
    ensures DbInv(cfg, Save(db, id, RecoveredRow(loaded, form)).db)
  {
    RecoveredRowOk(cfg, db.meetings[id], loaded, form);
    KeptHoldIsFree(cfg, db, id, RecoveredRow(loaded, form));
    SaveKeepsDb(cfg, db, id, RecoveredRow(loaded, form));
  }

  class Gateway {
    const cfg: Settings
    var meetings: map<MeetingId, Meeting>
    var rooms: map<PublicId, Room>
    var presets: Presets
    var now: int

    /** The stored state. */
    function Stored(): Db
      reads this
    {
      Db(meetings, rooms, presets, now)
    }

    /** What every reachable state satisfies. */
    ghost predicate Valid()
      reads this
    {
      DbInv(cfg, Stored())
    }

    constructor (cfg: Settings, rooms: map<PublicId, Room>, presets: Presets, now: int)
      ensures Valid() && this.cfg == cfg && Stored() == Db(map[], rooms, presets, now)
    {
      this.cfg := cfg;
      this.meetings := map[];
      this.rooms := rooms;
      this.presets := presets;
      this.now := now;
    }

    /** `Model.save`: Some is the violated constraint, and then nothing is written. */
    method SaveRow(id: MeetingId, row: Meeting) returns (violation: Option<Refusal>)
      modifies this`meetings
      ensures match Save(old(Stored()), id, row)
              case Saved(after) => violation.None? && Stored() == after
              case ExclusionViolated => violation == Some(RoomSlotConflict) && Stored() == old(Stored())
              case ConstraintViolated => violation == Some(ServerError) && Stored() == old(Stored())
    {
      if !RowChecks(row) || !KeyIsFree(meetings, id, row) {
        return Some(ServerError);
      }
      if !ExclusionHolds(meetings, id, row) {
        return Some(RoomSlotConflict);
      }
      meetings := meetings[id := row.(updatedAt := now)];
      return None;
    }

    // -------------------------------------------------------------------------------------------
    // apps/rooms/services.py
    // -------------------------------------------------------------------------------------------

    /** `reserve_specific_room`: Some is the refusal, and then nothing has changed. */
    method Reserve(meeting: MeetingId, room: PublicId, start: int, end: int) returns (refusal: Option<Refusal>)
      requires meeting in meetings
      modifies this`meetings
      ensures match ReserveSpecificRoom(cfg, old(Stored()), meeting, room, start, end)
              case Ok(after) => refusal.None? && Stored() == after
              case Err(code) => refusal == Some(code) && Stored() == old(Stored())
    {
      var slot := Interval(cfg, start, end);
      if slot.Err? {
        return Some(slot.error);
      }
      var locked := meetings[meeting];
      if locked.status != Draft {
        return Some(InvalidState);
      }
      if room !in rooms || !Configured(cfg, Stored(), locked.client, rooms[room]) {
        return Some(RoomUnavailable);
      }
      var conflict := CapacityError(Stored(), room, slot.value);
      if conflict.Some? {
        return conflict;
      }
      locked := locked.(room := Some(room));
      locked := locked.(startAt := Some(start), endAt := Some(end));
      locked := locked.(reservation := Some(slot.value), active := true);
      locked := locked.(status := Reserved);
      refusal := SaveRow(meeting, locked);
    }

    /** `allocate_any_room`: the scan with its early return. */
    method AllocateRoom(meeting: MeetingId, start: int, end: int) returns (refusal: Option<Refusal>)
      requires meeting in meetings
      modifies this`meetings
      ensures match AllocateAnyRoom(cfg, old(Stored()), meeting, start, end)
              case Ok(after) => refusal.None? && Stored() == after
              case Err(code) => refusal == Some(code) && Stored() == old(Stored())
    {
      ghost var before := Stored();
      var order := ScanOrder(rooms);
      for i := 0 to |order|
        invariant Stored() == before
        invariant AllocateAnyRoom(cfg, before, meeting, start, end)
            == AllocateFrom(cfg, before, meeting, order[i..], start, end)
      {
        refusal := Reserve(meeting, order[i], start, end);
        if refusal.None? || !TriesNextRoom(refusal.value) {
          return;
        }
        assert order[i..][1..] == order[i + 1..];
      }
      refusal := Some(NoCapacityAvailable);
    }

    /** `availability`: the any() over the active rooms. */
    method CheckAvailability(client: ClientId, start: int, end: int) returns (available: Result<bool, Refusal>)
      ensures available == Availability(cfg, Stored(), client, start, end)
    {
      var slot := Interval(cfg, start, end);
      if slot.Err? {
        return Err(slot.error);
      }
      ScanOrderIsTheActiveRooms(rooms);
      var order := ScanOrder(rooms);
      for i := 0 to |order|
        invariant forall j | 0 <= j < i :: !Eligible(cfg, Stored(), client, order[j], slot.value)
      {
        assert order[i] in order;
        if Configured(cfg, Stored(), client, rooms[order[i]]) {
          var conflict := CapacityError(Stored(), order[i], slot.value);
          if conflict.None? {
            assert Eligible(cfg, Stored(), client, order[i], slot.value);
            return Ok(true);
          }
        }
      }
      assert forall room | room in ActiveRooms(rooms) :: room in order;
      return Ok(false);
    }

    // -------------------------------------------------------------------------------------------
    // apps/meetings/services.py
    // -------------------------------------------------------------------------------------------

    /** `register`: Ok is the row and whether this call created it. */
    method RegisterMeeting(client: ClientId, values: Values, newId: MeetingId)
      returns (result: Result<(MeetingId, bool), Refusal>)
      requires newId !in meetings
      modifies this`meetings
      ensures match Register(old(Stored()), client, values, newId)
              case Found(after, id, created) => result == Ok((id, created)) && Stored() == after
              case RegistrationRefused(code) => result == Err(code) && Stored() == old(Stored())
      ensures old(Valid()) ==> Valid()
    {
      if Valid() && Save(Stored(), newId, DraftRow(client, values)).Saved? {
        RegisterKeepsDb(cfg, Stored(), client, values, newId);
      }
      var rows := RowsOf(meetings, client, values.classId);
      if rows == {} {
        var violation := SaveRow(newId, DraftRow(client, values));
        if violation.Some? {
          return Err(ServerError);
        }
        return Ok((newId, true));
      }
      var id :| id in rows;
      if rows != {id} {
        return Err(ExistingMeetingRequiresReview);
      }
      var row := meetings[id];
      var differs := row.details != values.details;
      if row.startAt.Some? && row.startAt.value != values.startAt {
        differs := true;
      }
      if row.endAt.Some? && row.endAt.value != values.endAt {
        differs := true;
      }
      if differs {
        return Err(ExistingMeetingMismatch);
      }
      return Ok((id, false));
    }

    /** The guard on the status of the locked row, in the source's order. */
    method RefuseByStatus(status: Status) returns (refusal: Option<Refusal>)
      requires status !in {Ready, Live}
      ensures refusal.None? <==> status in {Draft, RetryableFailed}
      ensures forall db: Db, id: MeetingId, startAt: int, endAt: int
                | id in db.meetings && db.meetings[id].status == status && refusal.Some? ::
        Begin(cfg, db, id, startAt, endAt) == BeginRefused(refusal.value)
    {
      if status in {Status.Reserved, Provisioning} {
        return Some(CreationInProgress);
      }
      if status in {ProviderStateUnknown, ProviderResponseInvalid} {
        return Some(ProviderReconciliationRequired);
      }
      if status == Ended {
        return Some(ClassAlreadyCompleted);
      }
      if status in {NonRetryableFailed, Failed} {
        return Some(PreviousCreationFailed);
      }
      if status == Cancelled {
        return Some(ClassCancelled);
      }
      return None;
    }

    /** The first transaction of `provision`: Ok is None for a replay, else whether this is a retry. */
    method BeginProvision(id: MeetingId, startAt: int, endAt: int) returns (result: Result<Option<bool>, Refusal>)
      requires id in meetings
      modifies this`meetings
      ensures match Begin(cfg, old(Stored()), id, startAt, endAt)
              case Replayed => result == Ok(None) && Stored() == old(Stored())
              case BeginRefused(code) => result == Err(code) && Stored() == old(Stored())
              case Begun(after, retrying) => result == Ok(Some(retrying)) && Stored() == after
      ensures old(Valid() && meetings[id].startAt == Some(startAt) && meetings[id].endAt == Some(endAt)) ==> Valid()
    {
      if Valid() && meetings[id].startAt == Some(startAt) && meetings[id].endAt == Some(endAt)
        && Begin(cfg, Stored(), id, startAt, endAt).Begun? {
        BeginShape(cfg, Stored(), id, startAt, endAt);
      }
      var locked := meetings[id];
      if locked.status in {Ready, Live} {
        return Ok(None);
      }
      var refusal := RefuseByStatus(locked.status);
      if refusal.Some? {
        return Err(refusal.value);
      }
      var retrying := locked.status == RetryableFailed;
      if retrying && AnyTruthy(locked.provider) {
        return Err(ProviderReconciliationRequired);
      }
      if DateOf(cfg, startAt) != locked.details.classDate {
        return Err(ClassDateMismatch);
      }
      var savepoint := meetings;
      refusal := ReserveForProvision(id, startAt, endAt);
      if refusal.None? {
        refusal := EnterProvisioning(id, retrying);
      }
      if refusal.Some? {
        meetings := savepoint;
        return Err(refusal.value);
      }
      return Ok(Some(retrying));
    }

    /** A retry keeps its own hold; everything else goes back to DRAFT and allocates. */
    method ReserveForProvision(id: MeetingId, startAt: int, endAt: int) returns (refusal: Option<Refusal>)
      requires id in meetings
      modifies this`meetings
      ensures Stored() == old(Stored()).(meetings := meetings)
      ensures match Transactions.Reserve(cfg, old(Stored()), id, startAt, endAt)
              case Ok(after) => refusal.None? && Stored() == after
              case Err(code) => refusal == Some(code)
    {
      var locked := meetings[id];
      if locked.status == RetryableFailed && locked.active && locked.room.Some? {
        return None;
      }
      locked := locked.(status := Draft);
      var violation := SaveRow(id, locked);
      if violation.Some? {
        return Some(ServerError);
      }
      refusal := AllocateRoom(id, startAt, endAt);
    }

    /** The payload snapshot and the step to PROVISIONING. */
    method EnterProvisioning(id: MeetingId, retrying: bool) returns (refusal: Option<Refusal>)
      requires id in meetings && meetings[id].room.Some?
      modifies this`meetings
      ensures match Prepare(cfg, old(Stored()), id, retrying)
              case Begun(after, _) => refusal.None? && Stored() == after
              case BeginRefused(code) => refusal == Some(code) && Stored() == old(Stored())
              case Replayed => false
    {
      var reserved := meetings[id];
      var base := BasePayload(cfg, Stored(), reserved, retrying);
      if base.None? {
        return Some(ServerError);
      }
      var payload := base.value - {"meetingTitle"};
      payload := payload["title" := JStr(reserved.details.title)];
      if "meetingType" !in payload {
        return Some(ServerError);
      }
      if payload["meetingType"] == JStr("scheduled") {
        return Some(ProviderContractUnconfirmed);
      }
      reserved := reserved.(payload := Some(payload));
      reserved := reserved.(status := Provisioning);
      var violation := SaveRow(id, reserved);
      if violation.Some? {
        return Some(ServerError);
      }
      return None;
    }

    /** The error commit of `provision`: false is an aborted transaction. */
    method RecordFailure(id: MeetingId, error: ProviderError) returns (committed: bool)
      requires id in meetings
      modifies this`meetings
      ensures committed <==> CommitFailure(old(Stored()), id, error).Saved?
      ensures Stored() == if committed then CommitFailure(old(Stored()), id, error).db else old(Stored())
      ensures old(Valid() && LiveStatus(meetings[id].status)) ==> Valid()
    {
      if Valid() {
        CommitsKeepDb(cfg, Stored(), id);
      }
      var current := meetings[id];
      if error.knownCreated.Some? {
        current := current.(status := ProviderResponseInvalid);
        current := current.(active := true);
        var result := error.knownCreated.value;
        current := current.(provider := current.provider.(calendarId := Some(result.calendarId)));
        current := current.(provider := current.provider.(uniqueId := result.uniqueId));
        current := current.(provider := current.provider.(panelAddress := result.panelAddress));
      } else {
        if error.ambiguous {
          current := current.(status := ProviderStateUnknown);
        } else if error.code in {Unavailable, RateLimited, AuthBusy} {
          current := current.(status := RetryableFailed);
        } else {
          current := current.(status := NonRetryableFailed);
        }
        current := current.(active := error.ambiguous || current.status == RetryableFailed);
      }
      current := current.(lastError := Some(error.code));
      var violation := SaveRow(id, current);
      committed := violation.None?;
    }

    /** The success commit of `provision`: false when the row has been settled otherwise meanwhile. */
    method RecordSuccess(id: MeetingId, data: MeetingResult) returns (accepted: bool)
      requires id in meetings
      modifies this`meetings
      ensures accepted <==> AcceptsSuccess(old(meetings)[id]) && CommitSuccess(old(Stored()), id, data).Saved?
      ensures Stored() == if accepted then CommitSuccess(old(Stored()), id, data).db else old(Stored())
      ensures old(Valid()) ==> Valid()
    {
      if Valid() {
        CommitsKeepDb(cfg, Stored(), id);
      }
      var current := meetings[id];
      if current.status !in {Provisioning, ProviderStateUnknown} {
        return false;
      }
      var fields := current.provider;
      if !Truthy(fields.calendarId) { fields := fields.(calendarId := Some(data.calendarId)); }
      if !Truthy(fields.uniqueId) { fields := fields.(uniqueId := data.uniqueId); }
      if !Truthy(fields.panelAddress) { fields := fields.(panelAddress := data.panelAddress); }
      if fields.startUrl.None? { fields := fields.(startUrl := if Truthy(data.startUrl) then data.startUrl else None); }
      current := current.(provider := fields);
      current := current.(status := Ready);
      current := current.(lastError := None);
      var violation := SaveRow(id, current);
      accepted := violation.None?;
    }

    /** `cancel`. */
    method CancelMeeting(id: MeetingId) returns (refusal: Option<Refusal>)
      requires id in meetings
      modifies this`meetings
      ensures match Cancel(old(Stored()), id)
              case Err(code) => refusal == Some(code) && Stored() == old(Stored())
              case Ok(Saved(after)) => refusal.None? && Stored() == after
              case Ok(_) => refusal == Some(ServerError) && Stored() == old(Stored())
      ensures old(Valid()) ==> Valid()
    {
      if Valid() {
        CommitsKeepDb(cfg, Stored(), id);
      }
      var current := meetings[id];
      if current.status == Cancelled {
        return None;
      }
      if current.status !in {Draft, Status.Reserved, Failed, RetryableFailed, NonRetryableFailed} {
        return Some(ProviderReconciliationRequired);
      }
      current := current.(status := Cancelled);
      current := current.(active := false);
      var violation := SaveRow(id, current);
      return if violation.Some? then Some(ServerError) else None;
    }

    // -------------------------------------------------------------------------------------------
    // apps/meetings/tasks.py and apps/meetings/admin.py
    // -------------------------------------------------------------------------------------------

    /** A row that keeps its core and takes no new hold is always saved. */
    method SaveQuietRow(id: MeetingId, row: Meeting)
      requires Valid() && id in meetings
      requires RowOk(cfg, row) && SameCore(meetings[id], row) && (row.active ==> meetings[id].active)
      modifies this`meetings
      ensures Valid()
      ensures meetings == old(meetings)[id := row.(updatedAt := now)]
    {
      KeptHoldIsFree(cfg, Stored(), id, row);
      SaveKeepsDb(cfg, Stored(), id, row);
      var violation := SaveRow(id, row);
    }

    /** One pass of the loop below: a locked row that is not stale is not in its query. */
    method FlagOne(id: MeetingId)
      requires Valid()
      modifies this`meetings
      ensures Valid() && meetings.Keys == old(meetings.Keys)
      ensures forall other | other in meetings && other != id :: meetings[other] == old(meetings)[other]
      ensures id in meetings ==> meetings[id] == Flagged(old(meetings)[id], now)
    {
      if id in meetings && meetings[id].status == Provisioning && meetings[id].updatedAt < now - STALE_MINUTES {
        assert RowOk(cfg, meetings[id]);
        var meeting := meetings[id];
        meeting := meeting.(status := ProviderStateUnknown);
        meeting := meeting.(lastError := Some(Interrupted));
        SaveQuietRow(id, meeting);
      }
    }

    /** `flag_stale_provisioning` over the rows nobody else has locked. */
    method FlagStale(unlocked: set<MeetingId>)
      requires Valid()
      modifies this`meetings
      ensures Valid() && meetings.Keys == old(meetings.Keys)
      ensures forall id | id in meetings ::
        meetings[id] == if id in unlocked then Flagged(old(meetings)[id], now) else old(meetings)[id]
    {
      ghost var before := meetings;
      var left := unlocked;
      while left != {}
        invariant left <= unlocked && Valid() && meetings.Keys == before.Keys
        invariant forall id | id in before ::
          meetings[id] == (if id in unlocked - left then Flagged(before[id], now) else before[id])
        decreases |left|
      {
        var id :| id in left;
        left := left - {id};
        FlagOne(id);
      }
    }

    /** One pass of the loop below. */
    method EndOne(id: MeetingId)
      requires Valid()
      modifies this`meetings
      ensures Valid() && meetings.Keys == old(meetings.Keys)
      ensures forall other | other in meetings && other != id :: meetings[other] == old(meetings)[other]
      ensures id in meetings ==> meetings[id] == Released(old(meetings)[id], now)
    {
      if id in meetings && meetings[id].status in {Ready, Live, ProviderResponseInvalid, ProviderStateUnknown} {
        assert RowOk(cfg, meetings[id]);
        var meeting := meetings[id];
        meeting := meeting.(status := Ended);
        meeting := meeting.(active := false);
        SaveQuietRow(id, meeting);
      }
    }

    /** `confirm_provider_ended` over the selected rows. */
    method ConfirmProviderEnded(selected: set<MeetingId>)
      requires Valid()
      modifies this`meetings
      ensures Valid() && meetings.Keys == old(meetings.Keys)
      ensures forall id | id in meetings ::
        meetings[id] == if id in selected then Released(old(meetings)[id], now) else old(meetings)[id]
    {
      ghost var before := meetings;
      var left := selected;
      while left != {}
        invariant left <= selected && Valid() && meetings.Keys == before.Keys
        invariant forall id | id in before ::
          meetings[id] == (if id in selected - left then Released(before[id], now) else before[id])
        decreases |left|
      {
        var id :| id in left;
        left := left - {id};
        EndOne(id);
      }
    }

    /** `clean` over the row as it is stored now: None is a form error, Some says whether it validated. */
    method CheckForm(id: MeetingId, loaded: Meeting, form: RecoveryForm) returns (checked: Option<bool>)
      requires id in meetings
      ensures checked == CheckRecovery(cfg, loaded, meetings[id], form)
    {
      var calendarId, panel, startUrl := "", "", Strip(form.startUrl);
      if loaded.status == ProviderStateUnknown {
        calendarId, panel := Strip(form.calendarId), Strip(form.panelAddress);
        if calendarId == "" || panel == "" {
          return None;
        }
      }
      var original := meetings[id];
      if original.status != ProviderStateUnknown {
        return Some(false);
      }
      if calendarId == "" || panel == "" || startUrl == "" {
        return None;
      }
      if Truthy(original.provider.calendarId) && original.provider.calendarId != Some(calendarId) {
        return None;
      }
      if !TrustedUrl(cfg, startUrl) {
        return None;
      }
      return Some(true);
    }

    /** The UNKNOWN branch of `save_model`: false is the ValidationError or an aborted save. */
    method SaveRecovery(id: MeetingId, loaded: Meeting, form: RecoveryForm) returns (saved: bool)
      requires id in meetings && meetings[id].status == ProviderStateUnknown
      modifies this`meetings
      ensures saved <==> RecoveryAccepted(old(meetings)[id], loaded, form)
                         && Save(old(Stored()), id, RecoveredRow(loaded, form)).Saved?
      ensures meetings ==
        if saved then old(meetings)[id := RecoveredRow(loaded, form).(updatedAt := now)] else old(meetings)
      ensures old(Valid() && SameCore(meetings[id], loaded) && RecoveryAccepted(meetings[id], loaded, form))
              ==> Valid() && saved
    {
      var original := meetings[id];
      if Valid() && SameCore(original, loaded) && RecoveryAccepted(original, loaded, form) {
        RecoveryKeepsDb(cfg, Stored(), id, loaded, form);
      }
      var obj := loaded;
      if loaded.status == ProviderStateUnknown {
        obj := obj.(provider := obj.provider.(calendarId := Some(Strip(form.calendarId))));
        obj := obj.(provider := obj.provider.(panelAddress := Some(Strip(form.panelAddress))));
      }
      if Truthy(original.provider.calendarId) && original.provider.calendarId != obj.provider.calendarId {
        return false;
      }
      obj := obj.(provider := obj.provider.(startUrl := Some(Strip(form.startUrl))));
      obj := obj.(status := Ready);
      obj := obj.(active := true);
      obj := obj.(lastError := None);
      var violation := SaveRow(id, obj);
      saved := violation.None?;
    }
  }
}
