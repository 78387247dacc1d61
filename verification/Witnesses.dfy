/**
  Concrete runs behind the tiers: without the operator discipline a late error revives a released
  row or is aborted by the exclusion constraint, and a resumed row exceeds the provider cap. Each
  lemma extends a run by one event.
 */
module Witnesses {
  import opened Wrappers
  import opened Configuration
  import opened Models
  import opened Text
  import opened Rooms
  import opened Provider
  import opened Transactions
  import opened Protocol
  import opened Invariants
  import opened StepProofs
  import opened Moves
  import opened TierA
  import opened Capacity
  import opened Outcomes
  import opened CreationAnswers
  import opened PhaseSteps

  /** No buffers, instant meetings by default, and dates of 1440 minutes. */
  predicate Simple(cfg: Settings) {
    && cfg.bufferBefore == 0 && cfg.bufferAfter == 0 && cfg.earliest <= 0 && 1440 <= cfg.latest
    && cfg.utcOffset == 0 && cfg.defaultMeetingType == JStr("instant")
  }

  predicate OneRoom(db: Db, limit: Option<nat>) {
    && db.rooms == map[0 := Room(true, 0, 1, limit, "account", Readable("password"), JObj(map[]))]
    && db.presets == Presets(None, map[])
  }

  predicate Setup(cfg: Settings, start: State, limit: Option<nat>) {
    Simple(cfg) && Initial(start) && OneRoom(start.db, limit)
  }

  /** A request of client 0 on day 0. */
  predicate OnDayZero(values: Values) {
    values.details.classDate == 0 && 0 <= values.startAt < values.endAt <= 1440
  }

  lemma {:induction false} Extend(cfg: Settings, start: State, events: seq<Event>, event: Event)
    ensures Execute(cfg, start, events + [event]) == Next(cfg, Execute(cfg, start, events), event)
  {
    assert (events + [event])[..|events|] == events;
  }

  /** The default presets resolve to an instant meeting. */
  lemma {:induction false} DefaultsAreInstant(layers: seq<Json>)
    requires layers == [JObj(map[]), JObj(map[]), JObj(map[])]
    ensures Resolve(JStr("instant"), layers) == Some(map["meetingType" := JStr("instant")])
  {
    var base: Dict := map["meetingType" := JStr("instant")];
    assert AllValid(layers);
    var dicts: seq<Dict> := [map[], map[], map[]];
    assert Fields(layers) == dicts;
    assert "config" != "meetingType" by { assert |"config"| != |"meetingType"|; }
    assert MergeLayer(base, map[]) == base;
    assert dicts[1..] == [map[], map[]] && dicts[1..][1..] == [map[]] && dicts[1..][1..][1..] == [];
    assert MergeAll(base, dicts) == MergeAll(base, dicts[1..]) == MergeAll(base, dicts[1..][1..]) == MergeAll(base, []);
    assert ValidEntry("meetingType", JStr("instant"));
  }

  lemma RoomIsConfigured(cfg: Settings, db: Db, limit: Option<nat>)
    requires Simple(cfg) && OneRoom(db, limit)
    ensures Configured(cfg, db, 0, db.rooms[0]) && 0 in ActiveRooms(db.rooms)
  {
    DefaultsAreInstant(Layers(db.presets, 0, db.rooms[0]));
    assert "account"[0] == 'a';
  }

  // ---------------------------------------------------------------------------------------------
  // Booking a class
  // ---------------------------------------------------------------------------------------------

  /** Room 0 has a free slot for the values, and its count is below the limit. */
  ghost predicate Vacant(s: State, limit: Option<nat>, values: Values) {
    && OneRoom(s.db, limit) && OnDayZero(values)
    && !SlotTaken(s.db.meetings, 0, Range(values.startAt, values.endAt))
    && (limit.Some? ==> |CountedIn(s.db.meetings, 0)| < limit.value)
  }

  /** Row and request `n` are new or replaced; nothing else differs. */
  ghost predicate OnlyTouches(s: State, s': State, n: nat) {
    && s'.db.rooms == s.db.rooms && s'.db.presets == s.db.presets && s'.db.now == s.db.now && s'.forms == s.forms
    && s'.calls == s.calls && s'.creations == s.creations
    && s'.db.meetings.Keys == s.db.meetings.Keys + {n} && s'.requests.Keys == s.requests.Keys + {n}
    && (forall id | id in s.db.meetings && id != n :: s'.db.meetings[id] == s.db.meetings[id])
    && (forall req | req in s.requests && req != n :: s'.requests[req] == s.requests[req])
  }

  ghost predicate PostedDraft(s: State, n: nat, values: Values) {
    && n in s.db.meetings && n in s.requests
    && s.requests[n] == Request(0, values, n, true, Stage.Registered)
    && s.db.meetings[n] == DraftRow(0, values).(updatedAt := s.db.now)
  }

  /** A draft takes no slot and counts nowhere. */
  lemma DraftsLeaveVacancies(s: State, s': State, limit: Option<nat>, n: nat, values: Values)
    requires Vacant(s, limit, values) && n !in s.db.meetings && OnlyTouches(s, s', n) && PostedDraft(s', n, values)
    ensures Vacant(s', limit, values)
  {
    assert CountedIn(s'.db.meetings, 0) == CountedIn(s.db.meetings, 0);
    forall id | id in s'.db.meetings
      ensures !Occupies(s'.db.meetings[id], 0, Range(values.startAt, values.endAt))
    {
      if id != n { assert !Occupies(s.db.meetings[id], 0, Range(values.startAt, values.endAt)); }
    }
  }

  lemma PostIsASave(cfg: Settings, s: State, n: nat, values: Values)
    requires n !in s.requests && n !in s.db.meetings && values.startAt < values.endAt
    requires RowsOf(s.db.meetings, 0, values.classId) == {} && Save(s.db, n, DraftRow(0, values)).Saved?
    ensures Next(cfg, s, Post(n, 0, values, n))
         == s.(db := Save(s.db, n, DraftRow(0, values)).db,
               requests := s.requests[n := Request(0, values, n, true, Stage.Registered)])
  {
  }

  lemma {:induction false} PostCreates(
    cfg: Settings, start: State, limit: Option<nat>, events: seq<Event>, n: nat, values: Values)
    requires Setup(cfg, start, limit)
    requires var s := Execute(cfg, start, events);
      && Vacant(s, limit, values) && n !in s.requests && n !in s.db.meetings
      && RowsOf(s.db.meetings, 0, values.classId) == {}
    ensures var s, s' := Execute(cfg, start, events), Execute(cfg, start, events + [Post(n, 0, values, n)]);
      OnlyTouches(s, s', n) && PostedDraft(s', n, values) && Vacant(s', limit, values)
  {
    RunKeepsInv(cfg, start, events);
    Extend(cfg, start, events, Post(n, 0, values, n));
    PostStepCreates(cfg, Execute(cfg, start, events), limit, n, values);
  }

  lemma PostStepCreates(cfg: Settings, s: State, limit: Option<nat>, n: nat, values: Values)
    requires DbInv(cfg, s.db) && Vacant(s, limit, values) && n !in s.requests && n !in s.db.meetings
    requires RowsOf(s.db.meetings, 0, values.classId) == {}
    ensures var s' := Next(cfg, s, Post(n, 0, values, n));
      OnlyTouches(s, s', n) && PostedDraft(s', n, values) && Vacant(s', limit, values)
  {
    DraftIsSaved(cfg, s.db, 0, values, n);
    PostIsASave(cfg, s, n, values);
    var s' := Next(cfg, s, Post(n, 0, values, n));
    PostedTouchesOnly(s, s', n, values);
    DraftsLeaveVacancies(s, s', limit, n, values);
  }

  lemma PostedTouchesOnly(s: State, s': State, n: nat, values: Values)
    requires n !in s.requests && n !in s.db.meetings
    requires Wrote(s.db, s'.db, n, DraftRow(0, values).(updatedAt := s.db.now)) && s'.forms == s.forms
    requires s'.calls == s.calls && s'.creations == s.creations
    requires s'.requests == s.requests[n := Request(0, values, n, true, Stage.Registered)]
    ensures OnlyTouches(s, s', n) && PostedDraft(s', n, values)
  {
  }

  /** The row of a class that has begun in room 0. */
  predicate BegunInRoom0(row: Meeting, values: Values, now: int) {
    && row.status == Provisioning && row.provider == NO_PROVIDER_FIELDS && row.room == Some(0)
    && row.reservation == Some(Range(values.startAt, values.endAt)) && row.updatedAt == now
    && MatchesRequest(row, 0, values)
  }

  predicate LiveAt(s: State, req: RequestId, id: MeetingId, progress: Progress) {
    LiveOn(s, req, id) && s.requests[req].stage.progress == progress
  }

  lemma RoomIsAvailable(cfg: Settings, s: State, limit: Option<nat>, values: Values)
    requires Simple(cfg) && Vacant(s, limit, values)
    ensures Interval(cfg, values.startAt, values.endAt) == Ok(Range(values.startAt, values.endAt))
    ensures ActiveRooms(s.db.rooms) == {0}
    ensures Availability(cfg, s.db, 0, values.startAt, values.endAt) == Ok(true)
  {
    RoomIsConfigured(cfg, s.db, limit);
    assert Eligible(cfg, s.db, 0, 0, Range(values.startAt, values.endAt));
  }

  lemma DraftIsAccepted(cfg: Settings, s: State, limit: Option<nat>, n: nat, values: Values)
    requires Simple(cfg) && Inv(cfg, s) && Vacant(s, limit, values) && PostedDraft(s, n, values)
    ensures var result := Begin(cfg, s.db, n, values.startAt, values.endAt);
      && result.Begun? && Wrote(s.db, result.db, n, result.db.meetings[n])
      && BegunInRoom0(result.db.meetings[n], values, s.db.now)
  {
    RoomIsAvailable(cfg, s, limit, values);
    DraftBeginsIffAvailable(cfg, s.db, n, values.startAt, values.endAt);
    BeginShape(cfg, s.db, n, values.startAt, values.endAt);
    var result := Begin(cfg, s.db, n, values.startAt, values.endAt);
    BegunDraftRow(cfg, s.db, n, result.retrying, values, result.db.meetings[n]);
  }

  /** With room 0 alone, a draft that begins holds its own times there. */
  lemma BegunDraftRow(cfg: Settings, db: Db, n: nat, retrying: bool, values: Values, row: Meeting)
    requires Simple(cfg) && n in db.meetings && ActiveRooms(db.rooms) == {0}
    requires db.meetings[n] == DraftRow(0, values).(updatedAt := db.now)
    requires BegunRow(cfg, db, n, retrying, row)
    ensures BegunInRoom0(row, values, db.now)
  {
  }

  lemma {:induction false} DraftBegins(
    cfg: Settings, start: State, limit: Option<nat>, events: seq<Event>, n: nat, values: Values)
    requires Setup(cfg, start, limit)
    requires var s := Execute(cfg, start, events); Vacant(s, limit, values) && PostedDraft(s, n, values)
    ensures var s, s' := Execute(cfg, start, events), Execute(cfg, start, events + [BeginProvision(n)]);
      OnlyTouches(s, s', n) && LiveAt(s', n, n, FirstToken) && BegunInRoom0(s'.db.meetings[n], values, s.db.now)
  {
    RunKeepsInv(cfg, start, events);
    Extend(cfg, start, events, BeginProvision(n));
    DraftIsAccepted(cfg, Execute(cfg, start, events), limit, n, values);
  }

  /** Post and begin. */
  lemma {:induction false} Book(
    cfg: Settings, start: State, limit: Option<nat>, before: seq<Event>, n: nat, values: Values)
    returns (events: seq<Event>)
    requires Setup(cfg, start, limit)
    requires var s := Execute(cfg, start, before);
      && Vacant(s, limit, values) && n !in s.requests && n !in s.db.meetings
      && RowsOf(s.db.meetings, 0, values.classId) == {}
    ensures var s, s' := Execute(cfg, start, before), Execute(cfg, start, events);
      OnlyTouches(s, s', n) && LiveAt(s', n, n, FirstToken) && BegunInRoom0(s'.db.meetings[n], values, s.db.now)
  {
    var posted := before + [Post(n, 0, values, n)];
    PostCreates(cfg, start, limit, before, n, values);
    DraftBegins(cfg, start, limit, posted, n, values);
    events := posted + [BeginProvision(n)];
    Transit(Execute(cfg, start, before), Execute(cfg, start, posted), Execute(cfg, start, events), n);
  }

  lemma Transit(s: State, s': State, s'': State, n: nat)
    requires OnlyTouches(s, s', n) && OnlyTouches(s', s'', n)
    ensures OnlyTouches(s, s'', n)
  {
  }

  // ---------------------------------------------------------------------------------------------
  // One meeting, alone
  // ---------------------------------------------------------------------------------------------

  const LOST := ProviderError(StateUnknown, true, None, None)

  /** Meeting 1 is the only row and request 1 is live on it. */
  ghost predicate Alone(s: State, values: Values, status: Status, progress: Progress, fields: ProviderFields) {
    && OneRoom(s.db, None) && s.db.meetings.Keys == {1} && s.requests.Keys == {1} && LiveAt(s, 1, 1, progress)
    && s.db.meetings[1].status == status && s.db.meetings[1].provider == fields
    && s.db.meetings[1].updatedAt <= s.db.now
    && s.db.meetings[1].room == Some(0) && s.db.meetings[1].reservation == Some(Range(values.startAt, values.endAt))
    && MatchesRequest(s.db.meetings[1], 0, values)
  }

  /** The answer is an error other than the 401 that is repeated. */
  predicate AnswersWith(cfg: Settings, exchange: Exchange, error: ProviderError) {
    StartMeeting(cfg, exchange) == Err(error) && error.statusCode != Some(401)
  }

  /** One more event of a run, between good states. */
  lemma {:induction false} Then(cfg: Settings, start: State, events: seq<Event>, event: Event)
    requires Initial(start)
    ensures Execute(cfg, start, events + [event]) == Next(cfg, Execute(cfg, start, events), event)
    ensures Inv(cfg, Execute(cfg, start, events)) && Inv(cfg, Execute(cfg, start, events + [event]))
  {
    Extend(cfg, start, events, event);
    RunKeepsInv(cfg, start, events);
    RunKeepsInv(cfg, start, events + [event]);
  }

  lemma CallStaysAlone(cfg: Settings, s: State, values: Values, exchange: Exchange, error: ProviderError)
    requires Alone(s, values, Provisioning, FirstToken, NO_PROVIDER_FIELDS) && AnswersWith(cfg, exchange, error)
    ensures var s' := Next(cfg, s, Call(1, exchange, false));
      Alone(s', values, Provisioning, Finished(Err(error)), NO_PROVIDER_FIELDS) && s'.forms == s.forms
  {
  }

  lemma TickStaysAlone(cfg: Settings, s: State, values: Values, progress: Progress, now: int)
    requires Alone(s, values, Provisioning, progress, NO_PROVIDER_FIELDS) && now == s.db.now + STALE_MINUTES + 1
    ensures var s' := Next(cfg, s, Tick(now));
      && Alone(s', values, Provisioning, progress, NO_PROVIDER_FIELDS) && s'.forms == s.forms
      && Stale(s'.db.meetings[1], s'.db.now)
  {
  }

  lemma SweptStaysAlone(cfg: Settings, s: State, values: Values, progress: Progress)
    requires DbInv(cfg, s.db) && Alone(s, values, Provisioning, progress, NO_PROVIDER_FIELDS)
    requires Stale(s.db.meetings[1], s.db.now)
    ensures var s' := Written(s, Save(s.db, 1, UnknownRow(s.db.meetings[1])));
      Alone(s', values, ProviderStateUnknown, progress, NO_PROVIDER_FIELDS) && s'.forms == s.forms
  {
    assert RowOk(cfg, s.db.meetings[1]);
    OutsiderWrites(cfg, s, 1, UnknownRow(s.db.meetings[1]));
    RewrittenStaysAlone(s, values, Provisioning, progress, UnknownRow(s.db.meetings[1]));
  }

  lemma ReleasedStaysAlone(cfg: Settings, s: State, values: Values, progress: Progress)
    requires DbInv(cfg, s.db) && Alone(s, values, ProviderStateUnknown, progress, NO_PROVIDER_FIELDS)
    ensures var s' := Written(s, Save(s.db, 1, EndedRow(s.db.meetings[1])));
      Alone(s', values, Ended, progress, NO_PROVIDER_FIELDS)
  {
    assert RowOk(cfg, s.db.meetings[1]);
    OutsiderWrites(cfg, s, 1, EndedRow(s.db.meetings[1]));
    RewrittenStaysAlone(s, values, ProviderStateUnknown, progress, EndedRow(s.db.meetings[1]));
  }

  lemma RewrittenStaysAlone(s: State, values: Values, status: Status, progress: Progress, row: Meeting)
    requires 1 in s.db.meetings && SameCore(s.db.meetings[1], row)
    requires Alone(s, values, status, progress, s.db.meetings[1].provider)
    ensures Alone(s.(db := s.db.(meetings := s.db.meetings[1 := row.(updatedAt := s.db.now)])),
                  values, row.status, progress, row.provider)
  {
  }

  /** Form 1 is open on meeting 1. */
  predicate HasPage(s: State, form: RecoveryForm, loaded: Meeting, checked: Option<bool>) {
    1 in s.forms && s.forms[1] == Page(1, form, loaded, checked)
  }

  /** Opening and checking a form leaves everything else as it is. */
  lemma FormIsChecked(cfg: Settings, start: State, events: seq<Event>, form: RecoveryForm, verdict: bool)
    returns (after: seq<Event>)
    requires Initial(start)
    requires var s := Execute(cfg, start, events);
      && 1 in s.db.meetings && 1 !in s.forms
      && CheckRecovery(cfg, s.db.meetings[1], s.db.meetings[1], form) == Some(verdict)
    ensures var s, s' := Execute(cfg, start, events), Execute(cfg, start, after);
      s'.db == s.db && s'.requests == s.requests && HasPage(s', form, s.db.meetings[1], Some(verdict))
  {
    var s := Execute(cfg, start, events);
    var opening := events + [OpenForm(1, 1, form)];
    Extend(cfg, start, events, OpenForm(1, 1, form));
    OpenedIsChecked(cfg, s, Execute(cfg, start, opening), form, verdict);
    Extend(cfg, start, opening, CheckForm(1));
    after := opening + [CheckForm(1)];
  }

  lemma OpenedIsChecked(cfg: Settings, s: State, opening: State, form: RecoveryForm, verdict: bool)
    requires 1 in s.db.meetings && 1 !in s.forms && opening == Next(cfg, s, OpenForm(1, 1, form))
    requires CheckRecovery(cfg, s.db.meetings[1], s.db.meetings[1], form) == Some(verdict)
    ensures var s' := Next(cfg, opening, CheckForm(1));
      s'.db == s.db && s'.requests == s.requests && HasPage(s', form, s.db.meetings[1], Some(verdict))
  {
  }

  lemma SavedStaysAlone(
    cfg: Settings, s: State, values: Values, progress: Progress, form: RecoveryForm, loaded: Meeting, verdict: bool)
    requires Inv(cfg, s) && Alone(s, values, ProviderStateUnknown, progress, NO_PROVIDER_FIELDS)
    requires HasPage(s, form, loaded, Some(verdict)) && loaded.room.Some?
    ensures Alone(SaveStep(s, 1), values, Ready, progress, RecoveredRow(loaded, form).provider)
  {
    assert FormFits(s.db, s.forms[1]) && RowOk(cfg, s.db.meetings[1]);
    RecoveredRowOk(cfg, s.db.meetings[1], loaded, form);
    var left := s.(forms := s.forms - {1});
    OutsiderWrites(cfg, left, 1, RecoveredRow(loaded, form));
    RewrittenStaysAlone(left, values, ProviderStateUnknown, progress, RecoveredRow(loaded, form));
  }

  lemma SaveIsAStep(cfg: Settings, s: State)
    requires HasForm(s, 1) && s.forms[1].checked.Some? && s.db.meetings[s.forms[1].id].status == ProviderStateUnknown
    ensures Next(cfg, s, SaveForm(1)) == SaveStep(s, 1)
  {
  }

  lemma ReleaseIsAWrite(cfg: Settings, s: State)
    requires 1 in s.db.meetings && Releasable(s.db.meetings[1].status)
    ensures Next(cfg, s, Release(1)) == Written(s, Save(s.db, 1, EndedRow(s.db.meetings[1])))
  {
  }

  /** The three writes as events. */
  lemma SweepStaysAlone(cfg: Settings, s: State, values: Values, progress: Progress)
    requires DbInv(cfg, s.db) && Alone(s, values, Provisioning, progress, NO_PROVIDER_FIELDS)
    requires Stale(s.db.meetings[1], s.db.now)
    ensures var s' := Next(cfg, s, Sweep(1));
      Alone(s', values, ProviderStateUnknown, progress, NO_PROVIDER_FIELDS) && s'.forms == s.forms
  {
    SweptStaysAlone(cfg, s, values, progress);
  }

  lemma ReleaseStaysAlone(cfg: Settings, s: State, values: Values, progress: Progress)
    requires DbInv(cfg, s.db) && Alone(s, values, ProviderStateUnknown, progress, NO_PROVIDER_FIELDS)
    ensures Alone(Next(cfg, s, Release(1)), values, Ended, progress, NO_PROVIDER_FIELDS)
  {
    ReleaseIsAWrite(cfg, s);
    ReleasedStaysAlone(cfg, s, values, progress);
  }

  lemma SaveStaysAlone(
    cfg: Settings, s: State, values: Values, progress: Progress, form: RecoveryForm, loaded: Meeting, verdict: bool)
    requires Inv(cfg, s) && Alone(s, values, ProviderStateUnknown, progress, NO_PROVIDER_FIELDS)
    requires HasPage(s, form, loaded, Some(verdict)) && loaded.room.Some?
    ensures Alone(Next(cfg, s, SaveForm(1)), values, Ready, progress, RecoveredRow(loaded, form).provider)
  {
    SaveIsAStep(cfg, s);
    SavedStaysAlone(cfg, s, values, progress, form, loaded, verdict);
  }

  /** From a live phase over time and a sweep to UNKNOWN; open forms stay open. */
  lemma {:induction false} TimesOut(cfg: Settings, start: State, events: seq<Event>, values: Values, progress: Progress)
    returns (after: seq<Event>)
    requires Setup(cfg, start, None)
    requires Alone(Execute(cfg, start, events), values, Provisioning, progress, NO_PROVIDER_FIELDS)
    ensures Alone(Execute(cfg, start, after), values, ProviderStateUnknown, progress, NO_PROVIDER_FIELDS)
    ensures Execute(cfg, start, after).forms == Execute(cfg, start, events).forms
  {
    var s := Execute(cfg, start, events);
    var now := s.db.now + STALE_MINUTES + 1;
    var ticked := events + [Tick(now)];
    Then(cfg, start, events, Tick(now));
    TickStaysAlone(cfg, s, values, progress, now);
    Then(cfg, start, ticked, Sweep(1));
    SweepStaysAlone(cfg, Execute(cfg, start, ticked), values, progress);
    after := ticked + [Sweep(1)];
  }

  /** A booked meeting whose creation call has been answered, but not committed. */
  lemma {:induction false} BookedAndAnswered(
    cfg: Settings, start: State, values: Values, exchange: Exchange, error: ProviderError)
    returns (events: seq<Event>)
    requires Setup(cfg, start, None) && OnDayZero(values) && AnswersWith(cfg, exchange, error)
    ensures Alone(Execute(cfg, start, events), values, Provisioning, Finished(Err(error)), NO_PROVIDER_FIELDS)
    ensures Execute(cfg, start, events).forms == map[]
  {
    assert Execute(cfg, start, []) == start;
    var booked := Book(cfg, start, None, [], 1, values);
    CallStaysAlone(cfg, Execute(cfg, start, booked), values, exchange, error);
    Extend(cfg, start, booked, Call(1, exchange, false));
    events := booked + [Call(1, exchange, false)];
  }

  // ---------------------------------------------------------------------------------------------
  // A repeated call
  // ---------------------------------------------------------------------------------------------

  /** A complete answer that names meeting "7". */
  function CompleteExchange(url: string): Exchange {
    Exchange.Answered(200, Object(COMPLETE_BODY["startMeetingUrl" := JStr(url)]))
  }

  const COMPLETE_BODY: Dict := map["calendarId" := JStr("7"), "meetingPanelAddress" := JStr("p")]

  const REJECTED_TOKEN := Exchange.Answered(401, NotAnObject)

  function CompleteResult(url: string): MeetingResult {
    MeetingResult("7", Some("p"), Some(url), None)
  }

  lemma CompleteBodyFields(url: string)
    ensures var data := COMPLETE_BODY["startMeetingUrl" := JStr(url)];
      && "calendarId" in data && data["calendarId"] == JStr("7")
      && "meetingPanelAddress" in data && data["meetingPanelAddress"] == JStr("p")
      && "startMeetingUrl" in data && data["startMeetingUrl"] == JStr(url)
      && "uniqueId" !in data && "data" !in data && "success" !in data
  {
    assert |"calendarId"| == 10 && |"data"| == 4 && |"success"| == 7 && |"uniqueId"| == 8;
    assert |"meetingPanelAddress"| == 19 && |"startMeetingUrl"| == 15;
  }

  lemma CompleteExchangeCreates(cfg: Settings, url: string)
    requires Strip(url) == url && 1 <= |url| <= 16384 && SafeUrl(cfg, url)
    ensures StartMeeting(cfg, CompleteExchange(url)) == Ok(CompleteResult(url))
  {
    var data := COMPLETE_BODY["startMeetingUrl" := JStr(url)];
    CompleteBodyFields(url);
    FieldsCreate(cfg, CompleteExchange(url), data, url);
    SuccessIffComplete(cfg, CompleteExchange(url), CompleteResult(url));
  }

  lemma FieldsCreate(cfg: Settings, exchange: Exchange, data: Dict, url: string)
    requires exchange == Exchange.Answered(200, Object(data))
    requires "calendarId" in data && data["calendarId"] == JStr("7")
    requires "meetingPanelAddress" in data && data["meetingPanelAddress"] == JStr("p")
    requires "startMeetingUrl" in data && data["startMeetingUrl"] == JStr(url)
    requires "uniqueId" !in data && "data" !in data && "success" !in data
    requires Strip(url) == url && 1 <= |url| <= 16384 && SafeUrl(cfg, url)
    ensures Creates(cfg, exchange, CompleteResult(url))
  {
    assert Strip("7") == "7" && Strip("p") == "p";
    assert Names(cfg, exchange, data, "7") && CompleteData(cfg, data, CompleteResult(url));
  }

  lemma RejectedCallStaysAlone(cfg: Settings, s: State, values: Values)
    requires Alone(s, values, Provisioning, FirstToken, NO_PROVIDER_FIELDS)
    ensures var s' := Next(cfg, s, Call(1, REJECTED_TOKEN, false));
      && Alone(s', values, Provisioning, SecondToken, NO_PROVIDER_FIELDS)
      && |s'.calls| == |s.calls| + 1 && s'.creations == s.creations
  {
    CallAnswers(cfg, s, 1, REJECTED_TOKEN, false);
  }

  lemma CompleteCallStaysAlone(cfg: Settings, s: State, values: Values, url: string)
    requires Alone(s, values, Provisioning, SecondToken, NO_PROVIDER_FIELDS)
    requires StartMeeting(cfg, CompleteExchange(url)) == Ok(CompleteResult(url))
    ensures var s' := Next(cfg, s, Call(1, CompleteExchange(url), true));
      && Alone(s', values, Provisioning, Finished(Ok(CompleteResult(url))), NO_PROVIDER_FIELDS)
      && |s'.calls| == |s.calls| + 1 && |s'.creations| == |s.creations| + 1
  {
    CallAnswers(cfg, s, 1, CompleteExchange(url), true);
  }

  lemma SuccessIsCommitted(cfg: Settings, s: State, values: Values, url: string)
    requires Inv(cfg, s) && OutcomesInv(cfg, s)
    requires Alone(s, values, Provisioning, Finished(Ok(CompleteResult(url))), NO_PROVIDER_FIELDS)
    ensures var s' := Next(cfg, s, Commit(1));
      && 1 in s'.db.meetings && s'.db.meetings[1].status == Ready
      && s'.db.meetings[1].provider == ProviderFields(Some("7"), None, Some("p"), Some(url))
      && HasStage(s', 1) && s'.requests[1].stage == Replying && s'.requests[1].created == s.requests[1].created
      && s'.calls == s.calls && s'.creations == s.creations
  {
    assert PhaseOk(cfg, s, 1) && PhaseIsBlank(s, 1);
    BlankSuccessIsWritten(cfg, s, 1, CompleteResult(url));
  }

  lemma {:induction false} CalledOnce(cfg: Settings, start: State, values: Values) returns (events: seq<Event>)
    requires Setup(cfg, start, None) && OnDayZero(values)
    ensures var s := Execute(cfg, start, events);
      Alone(s, values, Provisioning, SecondToken, NO_PROVIDER_FIELDS) && |s.calls| == 1 && s.creations == []
  {
    assert Execute(cfg, start, []) == start;
    var booked := Book(cfg, start, None, [], 1, values);
    Extend(cfg, start, booked, Call(1, REJECTED_TOKEN, false));
    RejectedCallStaysAlone(cfg, Execute(cfg, start, booked), values);
    events := booked + [Call(1, REJECTED_TOKEN, false)];
  }

  lemma {:induction false} CalledTwice(cfg: Settings, start: State, values: Values, url: string)
    returns (events: seq<Event>)
    requires Setup(cfg, start, None) && OnDayZero(values)
    requires StartMeeting(cfg, CompleteExchange(url)) == Ok(CompleteResult(url))
    ensures var s := Execute(cfg, start, events);
      && Alone(s, values, Provisioning, Finished(Ok(CompleteResult(url))), NO_PROVIDER_FIELDS)
      && |s.calls| == 2 && |s.creations| == 1
  {
    var once := CalledOnce(cfg, start, values);
    Extend(cfg, start, once, Call(1, CompleteExchange(url), true));
    CompleteCallStaysAlone(cfg, Execute(cfg, start, once), values, url);
    events := once + [Call(1, CompleteExchange(url), true)];
  }

  /**
    A revoked token costs one repetition: the first call is answered 401, the second creates the meeting,
    and the row becomes READY. Two calls were made and one meeting exists.
   */
  lemma {:induction false} SecondCallSucceeds(cfg: Settings, start: State, values: Values, url: string)
    returns (events: seq<Event>)
    requires Setup(cfg, start, None) && OnDayZero(values)
    requires Strip(url) == url && 1 <= |url| <= 16384 && SafeUrl(cfg, url)
    ensures var s := Execute(cfg, start, events);
      && 1 in s.db.meetings && s.db.meetings[1].status == Ready
      && s.db.meetings[1].provider == ProviderFields(Some("7"), None, Some("p"), Some(url))
      && HasStage(s, 1) && s.requests[1].stage == Replying
      && |s.calls| == 2 && |s.creations| == 1
  {
    CompleteExchangeCreates(cfg, url);
    var twice := CalledTwice(cfg, start, values, url);
    Then(cfg, start, twice, Commit(1));
    RunKeepsOutcomes(cfg, start, twice);
    SuccessIsCommitted(cfg, Execute(cfg, start, twice), values, url);
    events := twice + [Commit(1)];
  }

  // ---------------------------------------------------------------------------------------------
  // A form that was not validated
  // ---------------------------------------------------------------------------------------------

  /**
    An operator submits the form of a PROVISIONING row, whatever it holds; `clean` lets it through
    unvalidated, the stale sweep commits, and the save makes the row READY without a calendar id or
    a panel address, with the submitted text, empty or not, as its start URL.
   */
  lemma {:induction false} UnvalidatedFormMakesReadyUnusable(
    cfg: Settings, start: State, values: Values, form: RecoveryForm)
    returns (events: seq<Event>)
    requires Setup(cfg, start, None) && OnDayZero(values)
    ensures var s, s' := Execute(cfg, start, events), Execute(cfg, start, events + [SaveForm(1)]);
      && 1 in s.forms && s.forms[1].checked == Some(false)
      && 1 in s'.db.meetings && s'.db.meetings[1].status == Ready
      && s'.db.meetings[1].provider == ProviderFields(None, None, None, Some(Strip(form.startUrl)))
  {
    assert Execute(cfg, start, []) == start;
    var booked := Book(cfg, start, None, [], 1, values);
    var loaded := Execute(cfg, start, booked).db.meetings[1];
    var checked := FormIsChecked(cfg, start, booked, form, false);
    assert Alone(Execute(cfg, start, checked), values, Provisioning, FirstToken, NO_PROVIDER_FIELDS);
    events := TimesOut(cfg, start, checked, values, FirstToken);
    Then(cfg, start, events, SaveForm(1));
    SaveStaysAlone(cfg, Execute(cfg, start, events), values, FirstToken, form, loaded, false);
  }

  /** Form 1 was loaded from meeting 1 as a DRAFT, and let through. */
  predicate HasStalePage(s: State) {
    && 1 in s.forms && s.forms[1].id == 1 && s.forms[1].checked == Some(false)
    && s.forms[1].loaded.status == Draft && s.forms[1].loaded.room.None?
  }

  lemma {:induction false} DraftIsLoaded(cfg: Settings, start: State, values: Values, form: RecoveryForm)
    returns (events: seq<Event>)
    requires Setup(cfg, start, None) && OnDayZero(values)
    ensures var s := Execute(cfg, start, events);
      && Vacant(s, None, values) && PostedDraft(s, 1, values) && HasStalePage(s)
      && s.db.meetings.Keys == {1} && s.requests.Keys == {1}
  {
    assert Execute(cfg, start, []) == start;
    var posted := [] + [Post(1, 0, values, 1)];
    PostCreates(cfg, start, None, [], 1, values);
    events := FormIsChecked(cfg, start, posted, form, false);
  }

  lemma BegunIsAlone(cfg: Settings, s: State, s': State, values: Values)
    requires Vacant(s, None, values) && s.db.meetings.Keys == {1} && s.requests.Keys == {1} && OnlyTouches(s, s', 1)
    requires LiveAt(s', 1, 1, FirstToken) && BegunInRoom0(s'.db.meetings[1], values, s.db.now)
    ensures Alone(s', values, Provisioning, FirstToken, NO_PROVIDER_FIELDS) && s'.forms == s.forms
  {
  }

  /**
    An operator submits the form of a DRAFT row, the row is reserved and swept, and the save breaks
    `active_reservation_complete`: the form's instance has no room.
   */
  lemma {:induction false} StaleFormIsAborted(cfg: Settings, start: State, values: Values, form: RecoveryForm)
    returns (events: seq<Event>)
    requires Setup(cfg, start, None) && OnDayZero(values)
    ensures var s := Execute(cfg, start, events); StaleForm(s, SaveForm(1)) && Aborts(cfg, s, SaveForm(1))
  {
    var loaded := DraftIsLoaded(cfg, start, values, form);
    DraftBegins(cfg, start, None, loaded, 1, values);
    var begun := loaded + [BeginProvision(1)];
    BegunIsAlone(cfg, Execute(cfg, start, loaded), Execute(cfg, start, begun), values);
    events := TimesOut(cfg, start, begun, values, FirstToken);
    RunKeepsInv(cfg, start, events);
    StaleSaveAborts(cfg, Execute(cfg, start, events), values);
  }

  lemma StaleSaveAborts(cfg: Settings, s: State, values: Values)
    requires Inv(cfg, s) && Alone(s, values, ProviderStateUnknown, FirstToken, NO_PROVIDER_FIELDS) && HasStalePage(s)
    ensures StaleForm(s, SaveForm(1)) && Aborts(cfg, s, SaveForm(1))
  {
    OnlyLateRevivalsAndStaleFormsAbort(cfg, s, SaveForm(1));
  }

  // ---------------------------------------------------------------------------------------------
  // A recovery before the answer
  // ---------------------------------------------------------------------------------------------

  /** The form is complete and its start URL is trusted. */
  predicate Complete(cfg: Settings, form: RecoveryForm) {
    && Strip(form.calendarId) != "" && Strip(form.panelAddress) != "" && Strip(form.startUrl) != ""
    && TrustedUrl(cfg, Strip(form.startUrl))
  }

  lemma {:induction false} RecoveryBeforeTheAnswer(
    cfg: Settings, start: State, values: Values, form: RecoveryForm, exchange: Exchange, error: ProviderError)
    returns (events: seq<Event>)
    requires Setup(cfg, start, None) && OnDayZero(values) && AnswersWith(cfg, exchange, error) && Complete(cfg, form)
    ensures Alone(Execute(cfg, start, events), values, Ready, Finished(Err(error)),
                  ProviderFields(Some(Strip(form.calendarId)), None,
                                 Some(Strip(form.panelAddress)), Some(Strip(form.startUrl))))
  {
    var answered := BookedAndAnswered(cfg, start, values, exchange, error);
    var unknown := TimesOut(cfg, start, answered, values, Finished(Err(error)));
    var loaded := Execute(cfg, start, unknown).db.meetings[1];
    var checked := FormIsChecked(cfg, start, unknown, form, true);
    assert Alone(Execute(cfg, start, checked), values, ProviderStateUnknown, Finished(Err(error)), NO_PROVIDER_FIELDS);
    Then(cfg, start, checked, SaveForm(1));
    SaveStaysAlone(cfg, Execute(cfg, start, checked), values, Finished(Err(error)), form, loaded, true);
    events := checked + [SaveForm(1)];
  }

  /** Over a row that was not released, the error commit always stands. */
  lemma ErrorIsCommitted(cfg: Settings, s: State, error: ProviderError)
    requires Inv(cfg, s) && LiveAt(s, 1, 1, Finished(Err(error))) && s.db.meetings[1].status != Ended
    ensures var s' := Next(cfg, s, Commit(1));
      && Wrote(s.db, s'.db, 1, FailedRow(s.db.meetings[1], error).(updatedAt := s.db.now))
      && s'.requests.Keys == s.requests.Keys
  {
    PendingWriteOutcome(cfg, s, Commit(1));
  }

  lemma LateErrorOverwrites(cfg: Settings, s: State, values: Values, fields: ProviderFields, error: ProviderError)
    requires Inv(cfg, s) && Alone(s, values, Ready, Finished(Err(error)), fields)
    ensures var s' := Next(cfg, s, Commit(1));
      && 1 in s'.db.meetings
      && s'.db.meetings[1] == FailedRow(s.db.meetings[1], error).(updatedAt := s.db.now)
  {
    ErrorIsCommitted(cfg, s, error);
  }

  /** Without the discipline READY is lost: the late error of the creating request overwrites a recovery. */
  lemma {:induction false} LateErrorUndoesARecovery(cfg: Settings, start: State, values: Values, form: RecoveryForm)
    returns (events: seq<Event>)
    requires Setup(cfg, start, None) && OnDayZero(values) && Complete(cfg, form)
    ensures var s, s' := Execute(cfg, start, events), Execute(cfg, start, events + [Commit(1)]);
      && 1 in s.db.meetings && s.db.meetings[1].status == Ready
      && 1 in s'.db.meetings && s'.db.meetings[1].status == ProviderStateUnknown
  {
    events := RecoveryBeforeTheAnswer(cfg, start, values, form, Lost, LOST);
    Then(cfg, start, events, Commit(1));
    var s := Execute(cfg, start, events);
    LateErrorOverwrites(cfg, s, values, s.db.meetings[1].provider, LOST);
  }

  /** An answer that names meeting `id` and nothing else. */
  function NamesOnly(id: string): Exchange {
    Exchange.Answered(200, Object(map["calendarId" := JStr(id)]))
  }

  const PARTIAL := ProviderError(ResponseInvalid, false, Some(200), Some(MeetingResult("B", None, None, None)))

  lemma NamesOnlyIsPartial(cfg: Settings)
    ensures AnswersWith(cfg, NamesOnly("B"), PARTIAL)
  {
    var body: Dict := map["calendarId" := JStr("B")];
    assert |"calendarId"| == 10 && |"data"| == 4 && |"success"| == 7 && |"uniqueId"| == 8;
    assert |"meetingPanelAddress"| == 19 && |"startMeetingUrl"| == 15;
    assert body.Keys == {"calendarId"};
    assert Strip("B") == "B";
  }

  /** Without the discipline a stored calendar id is replaced: "A" was recovered, "B" is what was created. */
  lemma {:induction false} LateErrorReplacesTheIdentifier(
    cfg: Settings, start: State, values: Values, panel: string, startUrl: string)
    returns (events: seq<Event>)
    requires Setup(cfg, start, None) && OnDayZero(values) && Complete(cfg, RecoveryForm("A", panel, startUrl))
    ensures var s, s' := Execute(cfg, start, events), Execute(cfg, start, events + [Commit(1)]);
      && 1 in s.db.meetings && s.db.meetings[1].status == Ready && s.db.meetings[1].provider.calendarId == Some("A")
      && 1 in s'.db.meetings && s'.db.meetings[1].status == ProviderResponseInvalid
      && s'.db.meetings[1].provider.calendarId == Some("B")
  {
    NamesOnlyIsPartial(cfg);
    assert Strip("A") == "A";
    events := RecoveryBeforeTheAnswer(cfg, start, values, RecoveryForm("A", panel, startUrl), NamesOnly("B"), PARTIAL);
    Then(cfg, start, events, Commit(1));
    var s := Execute(cfg, start, events);
    LateErrorOverwrites(cfg, s, values, s.db.meetings[1].provider, PARTIAL);
  }

  // ---------------------------------------------------------------------------------------------
  // A release before the answer
  // ---------------------------------------------------------------------------------------------

  /** A run after which an operator has released a row whose creating request is still live. */
  lemma {:induction false} ReleaseBeforeTheAnswer(cfg: Settings, start: State, values: Values)
    returns (events: seq<Event>)
    requires Setup(cfg, start, None) && OnDayZero(values)
    ensures Alone(Execute(cfg, start, events), values, Ended, Finished(Err(LOST)), NO_PROVIDER_FIELDS)
  {
    var answered := BookedAndAnswered(cfg, start, values, Lost, LOST);
    var unknown := TimesOut(cfg, start, answered, values, Finished(Err(LOST)));
    Then(cfg, start, unknown, Release(1));
    ReleaseStaysAlone(cfg, Execute(cfg, start, unknown), values, Finished(Err(LOST)));
    events := unknown + [Release(1)];
  }

  /** Without the discipline ENDED is not absorbing: a late unknown outcome takes the slot back. */
  lemma {:induction false} LateErrorRevivesAReleasedRow(cfg: Settings, start: State, values: Values)
    returns (events: seq<Event>)
    requires Setup(cfg, start, None) && OnDayZero(values)
    ensures var s, s' := Execute(cfg, start, events), Execute(cfg, start, events + [Commit(1)]);
      && 1 in s.db.meetings && s.db.meetings[1].status == Ended && !s.db.meetings[1].active
      && 1 in s'.db.meetings && s'.db.meetings[1].status == ProviderStateUnknown && s'.db.meetings[1].active
  {
    events := ReleaseBeforeTheAnswer(cfg, start, values);
    var s := Execute(cfg, start, events);
    RunKeepsInv(cfg, start, events);
    assert RowOk(cfg, s.db.meetings[1]);
    Extend(cfg, start, events, Commit(1));
    PendingWriteOutcome(cfg, s, Commit(1));
    assert ExclusionHolds(s.db.meetings, 1, FailedRow(s.db.meetings[1], LOST));
    NextMovesRow(cfg, s, Commit(1), 1);
  }

  /** If another class booked the released slot meanwhile, the exclusion constraint aborts the commit. */
  lemma {:induction false} LateErrorIsAborted(cfg: Settings, start: State, values: Values, other: Values)
    returns (events: seq<Event>)
    requires Setup(cfg, start, None) && OnDayZero(values) && OnDayZero(other) && values.classId != other.classId
    requires Overlap(Range(values.startAt, values.endAt), Range(other.startAt, other.endAt))
    ensures var s := Execute(cfg, start, events);
      && PendingWrite(s, Commit(1)).Some?
      && Save(s.db, PendingWrite(s, Commit(1)).value.0, PendingWrite(s, Commit(1)).value.1).ExclusionViolated?
  {
    var released := ReleaseBeforeTheAnswer(cfg, start, values);
    RunKeepsInv(cfg, start, released);
    assert RowOk(cfg, Execute(cfg, start, released).db.meetings[1]);
    events := Book(cfg, start, None, released, 2, other);
    RunKeepsInv(cfg, start, events);
    RevivalClashes(cfg, Execute(cfg, start, events), values, other);
  }

  lemma RevivalClashes(cfg: Settings, s: State, values: Values, other: Values)
    requires Inv(cfg, s) && LiveAt(s, 1, 1, Finished(Err(LOST))) && 2 in s.db.meetings
    requires s.db.meetings[1].status == Ended && s.db.meetings[1].room == Some(0)
    requires s.db.meetings[1].reservation == Some(Range(values.startAt, values.endAt))
    requires BegunInRoom0(s.db.meetings[2], other, s.db.now)
    requires Overlap(Range(values.startAt, values.endAt), Range(other.startAt, other.endAt))
    ensures PendingWrite(s, Commit(1)) == Some((1, FailedRow(s.db.meetings[1], LOST)))
    ensures Save(s.db, 1, FailedRow(s.db.meetings[1], LOST)).ExclusionViolated?
  {
    assert RowOk(cfg, s.db.meetings[2]);
    assert Clash(s.db.meetings[2], FailedRow(s.db.meetings[1], LOST));
    PendingWriteOutcome(cfg, s, Commit(1));
  }

  // ---------------------------------------------------------------------------------------------
  // The provider cap
  // ---------------------------------------------------------------------------------------------

  const REFUSED := ProviderError(Unavailable, false, None, None)

  /** Meeting 1 failed before anything was sent; it keeps its slot and is not counted. */
  ghost predicate FirstFailed(s: State, values: Values) {
    && OneRoom(s.db, Some(1)) && 1 in s.db.meetings && s.db.meetings[1].status == RetryableFailed
    && s.db.meetings[1].provider == NO_PROVIDER_FIELDS && s.db.meetings[1].room == Some(0)
    && s.db.meetings[1].reservation == Some(Range(values.startAt, values.endAt))
    && MatchesRequest(s.db.meetings[1], 0, values)
  }

  lemma {:induction false} FirstFails(cfg: Settings, start: State, values: Values) returns (events: seq<Event>)
    requires Setup(cfg, start, Some(1)) && OnDayZero(values)
    ensures var s := Execute(cfg, start, events);
      FirstFailed(s, values) && s.db.meetings.Keys == {1} && s.requests.Keys == {1}
  {
    assert Execute(cfg, start, []) == start;
    assert CountedIn(start.db.meetings, 0) == {};
    var begun := Book(cfg, start, Some(1), [], 1, values);
    var refused := begun + [TokenFails(1, REFUSED)];
    Extend(cfg, start, begun, TokenFails(1, REFUSED));
    events := refused + [Commit(1)];
    FailureIsCommitted(cfg, start, refused, values);
  }

  lemma {:induction false} FailureIsCommitted(cfg: Settings, start: State, events: seq<Event>, values: Values)
    requires Setup(cfg, start, Some(1))
    requires var s := Execute(cfg, start, events);
      && OneRoom(s.db, Some(1)) && s.db.meetings.Keys == {1} && s.requests.Keys == {1}
      && LiveAt(s, 1, 1, Finished(Err(REFUSED))) && BegunInRoom0(s.db.meetings[1], values, s.db.meetings[1].updatedAt)
    ensures var s := Execute(cfg, start, events + [Commit(1)]);
      FirstFailed(s, values) && s.db.meetings.Keys == {1} && s.requests.Keys == {1}
  {
    RunKeepsInv(cfg, start, events);
    Extend(cfg, start, events, Commit(1));
    ErrorIsCommitted(cfg, Execute(cfg, start, events), REFUSED);
  }

  /**
    The unrestricted cap fails even without operators: a failed meeting is not counted, a second one
    takes the only place, and the resumed first one makes two.
   */
  lemma {:induction false} ResumedRowExceedsTheCap(cfg: Settings, start: State, values: Values, other: Values)
    returns (events: seq<Event>)
    requires Setup(cfg, start, Some(1)) && OnDayZero(values) && OnDayZero(other) && values.classId != other.classId
    requires values.endAt <= other.startAt
    ensures var s := Execute(cfg, start, events); LimitIs(s, 0, 1) && |CountedIn(s.db.meetings, 0)| == 2
  {
    var failed := FirstFails(cfg, start, values);
    assert CountedIn(Execute(cfg, start, failed).db.meetings, 0) == {};
    var full := Book(cfg, start, Some(1), failed, 2, other);
    var again := Post(3, 0, values, 3);
    RetryIsFound(cfg, start, full, values, other);
    RetryIsResumed(cfg, start, full + [again], values, other);
    events := full + [again] + [BeginProvision(3)];
  }

  ghost predicate FirstFailedSecondBegun(s: State, values: Values, other: Values) {
    && FirstFailed(s, values) && s.db.meetings.Keys == {1, 2}
    && s.db.meetings[2].status == Provisioning && s.db.meetings[2].room == Some(0)
    && s.db.meetings[2].classId != values.classId
  }

  lemma {:induction false} RetryIsFound(cfg: Settings, start: State, events: seq<Event>, values: Values, other: Values)
    requires Setup(cfg, start, Some(1)) && OnDayZero(values)
    requires var s := Execute(cfg, start, events); FirstFailedSecondBegun(s, values, other) && 3 !in s.requests
    ensures var s := Execute(cfg, start, events + [Post(3, 0, values, 3)]);
      && FirstFailedSecondBegun(s, values, other) && 3 in s.requests
      && s.requests[3] == Request(0, values, 1, false, Stage.Registered)
  {
    var s := Execute(cfg, start, events);
    Extend(cfg, start, events, Post(3, 0, values, 3));
    assert RowsOf(s.db.meetings, 0, values.classId) == {1};
  }

  lemma {:induction false} RetryIsResumed(
    cfg: Settings, start: State, events: seq<Event>, values: Values, other: Values)
    requires Setup(cfg, start, Some(1)) && OnDayZero(values)
    requires var s := Execute(cfg, start, events);
      && FirstFailedSecondBegun(s, values, other) && 3 in s.requests
      && s.requests[3] == Request(0, values, 1, false, Stage.Registered)
    ensures var s := Execute(cfg, start, events + [BeginProvision(3)]);
      LimitIs(s, 0, 1) && |CountedIn(s.db.meetings, 0)| == 2
  {
    var s := Execute(cfg, start, events);
    RunKeepsInv(cfg, start, events);
    Extend(cfg, start, events, BeginProvision(3));
    RetryResumes(cfg, s.db, 1, values.startAt, values.endAt);
    ResumedRowCounts(cfg, s, Next(cfg, s, BeginProvision(3)).db, values, other);
  }

  lemma ResumedRowCounts(cfg: Settings, s: State, after: Db, values: Values, other: Values)
    requires FirstFailedSecondBegun(s, values, other) && BegunFrom(cfg, s.db, 1, true, after)
    ensures 0 in after.rooms && after.rooms[0].activeLimit == Some(1) && |CountedIn(after.meetings, 0)| == 2
  {
    assert CountedIn(after.meetings, 0) == {1, 2};
  }
}
