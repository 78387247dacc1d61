/**
  What one event can do to one row: the table of row moves that the history arguments use.
 */
module Moves {
  import opened Models
  import opened Provider
  import opened Transactions
  import opened Protocol
  import opened Invariants
  import opened StepProofs

  datatype Move =
    | Stays
    | Begins(retrying: bool)
    | Fails(error: ProviderError)
    | Succeeds(data: MeetingResult)
    | TimesOut
    | Recovers(loaded: Meeting, form: RecoveryForm)
    | Ends
    | Cancels

  function BeginMove(cfg: Settings, s: State, req: RequestId, id: MeetingId): Move
    requires HasStage(s, req)
  {
    var request := s.requests[req];
    var result := Begin(cfg, s.db, request.id, request.values.startAt, request.values.endAt);
    if request.id == id && result.Begun? then Begins(result.retrying) else Stays
  }

  function CommitMove(s: State, req: RequestId, id: MeetingId): Move
    requires IsLive(s, req) && s.requests[req].stage.progress.Finished?
  {
    if s.requests[req].id != id then Stays
    else
      match s.requests[req].stage.progress.outcome
      case Err(error) => if CommitFailure(s.db, id, error).Saved? then Fails(error) else Stays
      case Ok(data) => if AcceptsSuccess(s.db.meetings[id]) then Succeeds(data) else Stays
  }

  function SaveMove(s: State, page: FormId, id: MeetingId): Move
    requires HasForm(s, page)
  {
    var p := s.forms[page];
    if p.id == id && RecoveryAccepted(s.db.meetings[p.id], p.loaded, p.form) && p.loaded.room.Some?
    then Recovers(p.loaded, p.form) else Stays
  }

  /** The move an event makes on the row of `id`. */
  function MoveOf(cfg: Settings, s: State, event: Event, id: MeetingId): Move
    requires id in s.db.meetings
  {
    if !Enabled(s, event) then Stays
    else
      match event
      case BeginProvision(req) => BeginMove(cfg, s, req, id)
      case Commit(req) => CommitMove(s, req, id)
      case Sweep(swept) => if swept == id then TimesOut else Stays
      case SaveForm(page) => SaveMove(s, page, id)
      case Release(released) => if released == id then Ends else Stays
      case CancelMeeting(cancelled) =>
        if cancelled == id && Cancellable(s.db.meetings[id].status) then Cancels else Stays
      case _ => Stays
  }

  /** The row after a move. */
  ghost predicate Moved(cfg: Settings, db: Db, id: MeetingId, move: Move, row: Meeting)
    requires id in db.meetings
  {
    var before := db.meetings[id];
    match move
    case Stays => row == before
    case Begins(retrying) => BegunRow(cfg, db, id, retrying, row)
    case Fails(error) => LiveStatus(before.status) && row == FailedRow(before, error).(updatedAt := db.now)
    case Succeeds(data) => AcceptsSuccess(before) && row == ReadyRow(before, data).(updatedAt := db.now)
    case TimesOut => Stale(before, db.now) && row == UnknownRow(before).(updatedAt := db.now)
    case Recovers(loaded, form) =>
      && RecoveryAccepted(before, loaded, form) && SameCore(before, loaded)
      && row == RecoveredRow(loaded, form).(updatedAt := db.now)
    case Ends => Releasable(before.status) && row == EndedRow(before).(updatedAt := db.now)
    case Cancels => Cancellable(before.status) && row == CancelledRow(before).(updatedAt := db.now)
  }

  ghost predicate MovesRow(cfg: Settings, db: Db, after: Db, id: MeetingId, move: Move)
    requires id in db.meetings
  {
    id in after.meetings && Moved(cfg, db, id, move, after.meetings[id])
  }

  /** A row that keeps its core and takes no new hold is always written. */
  lemma OutsiderWrites(cfg: Settings, s: State, id: MeetingId, row: Meeting)
    requires DbInv(cfg, s.db) && id in s.db.meetings
    requires RowOk(cfg, row) && SameCore(s.db.meetings[id], row) && (row.active ==> s.db.meetings[id].active)
    ensures Save(s.db, id, row) == Saved(s.db.(meetings := s.db.meetings[id := row.(updatedAt := s.db.now)]))
  {
    KeptHoldIsFree(cfg, s.db, id, row);
    SaveKeepsDb(cfg, s.db, id, row);
  }

  lemma OutsiderMovesRow(cfg: Settings, s: State, touched: MeetingId, row: Meeting, id: MeetingId, move: Move)
    requires DbInv(cfg, s.db) && id in s.db.meetings && touched in s.db.meetings
    requires RowOk(cfg, row) && SameCore(s.db.meetings[touched], row)
    requires row.active ==> s.db.meetings[touched].active
    requires Moved(cfg, s.db, touched, move, row.(updatedAt := s.db.now))
    ensures MovesRow(cfg, s.db, Written(s, Save(s.db, touched, row)).db, id, if touched == id then move else Stays)
  {
    OutsiderWrites(cfg, s, touched, row);
  }

  lemma BegunMovesRow(cfg: Settings, db: Db, after: Db, touched: MeetingId, retrying: bool, id: MeetingId)
    requires touched in db.meetings && id in db.meetings && BegunFrom(cfg, db, touched, retrying, after)
    ensures MovesRow(cfg, db, after, id, if touched == id then Begins(retrying) else Stays)
  {
  }

  lemma BeginMovesRow(cfg: Settings, s: State, req: RequestId, id: MeetingId)
    requires Inv(cfg, s) && id in s.db.meetings && HasStage(s, req) && s.requests[req].stage.Registered?
    ensures MovesRow(cfg, s.db, BeginStep(cfg, s, req).db, id, BeginMove(cfg, s, req, id))
  {
    var request := s.requests[req];
    assert RequestOk(s, request);
    var result := Begin(cfg, s.db, request.id, request.values.startAt, request.values.endAt);
    if result.Begun? {
      BeginShape(cfg, s.db, request.id, request.values.startAt, request.values.endAt);
      BegunMovesRow(cfg, s.db, result.db, request.id, result.retrying, id);
    }
  }

  /** The outcome commit, as what it leaves stored. */
  lemma CommitWrites(s: State, req: RequestId)
    requires IsLive(s, req) && s.requests[req].stage.progress.Finished?
    ensures var id := s.requests[req].id;
      CommitStep(s, req).db
      == match s.requests[req].stage.progress.outcome
         case Err(error) => Written(s, CommitFailure(s.db, id, error)).db
         case Ok(data) =>
           if AcceptsSuccess(s.db.meetings[id]) then Written(s, CommitSuccess(s.db, id, data)).db else s.db
  {
  }

  lemma CommitMovesRow(cfg: Settings, s: State, req: RequestId, id: MeetingId)
    requires Inv(cfg, s) && id in s.db.meetings && IsLive(s, req) && s.requests[req].stage.progress.Finished?
    ensures MovesRow(cfg, s.db, CommitStep(s, req).db, id, CommitMove(s, req, id))
  {
    CommitWrites(s, req);
    assert RequestOk(s, s.requests[req]);
    match s.requests[req].stage.progress.outcome {
      case Err(error) => FailureMovesRow(cfg, s, s.requests[req].id, error, id);
      case Ok(data) =>
        if AcceptsSuccess(s.db.meetings[s.requests[req].id]) { SuccessIsSaved(cfg, s, s.requests[req].id); }
    }
  }

  lemma FailureMovesRow(cfg: Settings, s: State, touched: MeetingId, error: ProviderError, id: MeetingId)
    requires touched in s.db.meetings && id in s.db.meetings && LiveStatus(s.db.meetings[touched].status)
    ensures var result := CommitFailure(s.db, touched, error);
      MovesRow(cfg, s.db, Written(s, result).db, id, if touched == id && result.Saved? then Fails(error) else Stays)
  {
  }

  function ReadyDb(db: Db, id: MeetingId, data: MeetingResult): Db
    requires id in db.meetings
  {
    db.(meetings := db.meetings[id := ReadyRow(db.meetings[id], data).(updatedAt := db.now)])
  }

  lemma SuccessIsSaved(cfg: Settings, s: State, id: MeetingId)
    requires DbInv(cfg, s.db) && id in s.db.meetings && AcceptsSuccess(s.db.meetings[id])
    ensures forall data :: CommitSuccess(s.db, id, data) == Saved(ReadyDb(s.db, id, data))
  {
    forall data
      ensures CommitSuccess(s.db, id, data) == Saved(ReadyDb(s.db, id, data))
    {
      ReadyRowOk(cfg, s.db.meetings[id], data);
      OutsiderWrites(cfg, s, id, ReadyRow(s.db.meetings[id], data));
    }
  }

  /** The save of a form, as what it leaves stored; an instance without a room is never written. */
  lemma SaveWrites(s: State, page: FormId)
    requires HasForm(s, page)
    ensures var p := s.forms[page];
      SaveStep(s, page).db
      == if RecoveryAccepted(s.db.meetings[p.id], p.loaded, p.form) && p.loaded.room.Some?
         then Written(s, Save(s.db, p.id, RecoveredRow(p.loaded, p.form))).db else s.db
  {
  }

  lemma SaveMovesRow(cfg: Settings, s: State, page: FormId, id: MeetingId)
    requires DbInv(cfg, s.db) && FormsOk(s) && id in s.db.meetings && HasForm(s, page)
    ensures MovesRow(cfg, s.db, SaveStep(s, page).db, id, SaveMove(s, page, id))
  {
    var p := s.forms[page];
    assert FormFits(s.db, p);
    SaveWrites(s, page);
    if RecoveryAccepted(s.db.meetings[p.id], p.loaded, p.form) && p.loaded.room.Some? {
      RecoveryMovesRow(cfg, s, p.id, p.loaded, p.form, id);
    }
  }

  lemma RecoveryMovesRow(
    cfg: Settings, s: State, touched: MeetingId, loaded: Meeting, form: RecoveryForm, id: MeetingId)
    requires DbInv(cfg, s.db) && touched in s.db.meetings && id in s.db.meetings
    requires RecoveryAccepted(s.db.meetings[touched], loaded, form) && SameCore(s.db.meetings[touched], loaded)
    ensures var after := Written(s, Save(s.db, touched, RecoveredRow(loaded, form))).db;
      MovesRow(cfg, s.db, after, id, if touched == id then Recovers(loaded, form) else Stays)
  {
    RecoveredRowOk(cfg, s.db.meetings[touched], loaded, form);
    OutsiderMovesRow(cfg, s, touched, RecoveredRow(loaded, form), id, Recovers(loaded, form));
  }

  lemma SweepMovesRow(cfg: Settings, s: State, touched: MeetingId, id: MeetingId)
    requires DbInv(cfg, s.db) && touched in s.db.meetings && id in s.db.meetings
    requires Stale(s.db.meetings[touched], s.db.now)
    ensures var after := Written(s, Save(s.db, touched, UnknownRow(s.db.meetings[touched]))).db;
      MovesRow(cfg, s.db, after, id, if touched == id then TimesOut else Stays)
  {
    assert RowOk(cfg, s.db.meetings[touched]);
    OutsiderMovesRow(cfg, s, touched, UnknownRow(s.db.meetings[touched]), id, TimesOut);
  }

  lemma ReleaseMovesRow(cfg: Settings, s: State, touched: MeetingId, id: MeetingId)
    requires DbInv(cfg, s.db) && touched in s.db.meetings && id in s.db.meetings
    requires Releasable(s.db.meetings[touched].status)
    ensures var after := Written(s, Save(s.db, touched, EndedRow(s.db.meetings[touched]))).db;
      MovesRow(cfg, s.db, after, id, if touched == id then Ends else Stays)
  {
    assert RowOk(cfg, s.db.meetings[touched]);
    OutsiderMovesRow(cfg, s, touched, EndedRow(s.db.meetings[touched]), id, Ends);
  }

  lemma CancelMovesRow(cfg: Settings, s: State, touched: MeetingId, id: MeetingId)
    requires DbInv(cfg, s.db) && touched in s.db.meetings && id in s.db.meetings
    requires Cancellable(s.db.meetings[touched].status)
    ensures var after := Written(s, Save(s.db, touched, CancelledRow(s.db.meetings[touched]))).db;
      MovesRow(cfg, s.db, after, id, if touched == id then Cancels else Stays)
  {
    assert RowOk(cfg, s.db.meetings[touched]);
    OutsiderMovesRow(cfg, s, touched, CancelledRow(s.db.meetings[touched]), id, Cancels);
  }

  lemma RequestMovesRow(cfg: Settings, s: State, event: Event, id: MeetingId)
    requires Inv(cfg, s) && id in s.db.meetings && Enabled(s, event) && OfRequest(event)
    ensures MovesRow(cfg, s.db, Next(cfg, s, event).db, id, MoveOf(cfg, s, event, id))
  {
    match event {
      case BeginProvision(req) => BeginMovesRow(cfg, s, req, id);
      case Commit(req) => CommitMovesRow(cfg, s, req, id);
      case _ =>
    }
  }

  lemma OtherMovesRow(cfg: Settings, s: State, event: Event, id: MeetingId)
    requires Inv(cfg, s) && id in s.db.meetings && Enabled(s, event) && !OfRequest(event)
    ensures MovesRow(cfg, s.db, Next(cfg, s, event).db, id, MoveOf(cfg, s, event, id))
  {
    match event {
      case Sweep(touched) => SweepMovesRow(cfg, s, touched, id);
      case SaveForm(page) => SaveMovesRow(cfg, s, page, id);
      case Release(touched) => ReleaseMovesRow(cfg, s, touched, id);
      case CancelMeeting(touched) =>
        if Cancellable(s.db.meetings[touched].status) { CancelMovesRow(cfg, s, touched, id); }
      case _ =>
    }
  }

  /** Every event moves every existing row by the table, and never loses one. */
  lemma {:induction false} NextMovesRow(cfg: Settings, s: State, event: Event, id: MeetingId)
    requires Inv(cfg, s) && id in s.db.meetings
    ensures id in Next(cfg, s, event).db.meetings
    ensures Moved(cfg, s.db, id, MoveOf(cfg, s, event, id), Next(cfg, s, event).db.meetings[id])
  {
    if Enabled(s, event) {
      if OfRequest(event) { RequestMovesRow(cfg, s, event, id); } else { OtherMovesRow(cfg, s, event, id); }
    }
  }

  /** A row appears as a DRAFT and not otherwise. */
  lemma {:induction false} RowsAppearAsDrafts(cfg: Settings, s: State, event: Event, id: MeetingId)
    requires Inv(cfg, s) && id !in s.db.meetings && id in Next(cfg, s, event).db.meetings
    ensures Next(cfg, s, event).db.meetings[id].status == Draft
  {
    match event {
      case Post(_, _, _, _) =>
      case BeginProvision(req) => if Enabled(s, event) { BeginAddsNoRow(cfg, s, req); }
      case _ => OnlyPostsAddRows(cfg, s, event);
    }
  }

  lemma OnlyPostsAddRows(cfg: Settings, s: State, event: Event)
    requires !event.Post? && !event.BeginProvision?
    ensures Next(cfg, s, event).db.meetings.Keys == s.db.meetings.Keys
  {
    if OfRequest(event) { RequestsAddNoRow(cfg, s, event); } else { OthersAddNoRow(cfg, s, event); }
  }

  lemma RequestsAddNoRow(cfg: Settings, s: State, event: Event)
    requires OfRequest(event) && !event.Post? && !event.BeginProvision?
    ensures Next(cfg, s, event).db.meetings.Keys == s.db.meetings.Keys
  {
  }

  lemma OthersAddNoRow(cfg: Settings, s: State, event: Event)
    requires !OfRequest(event)
    ensures Next(cfg, s, event).db.meetings.Keys == s.db.meetings.Keys
  {
  }

  lemma BeginAddsNoRow(cfg: Settings, s: State, req: RequestId)
    requires Inv(cfg, s) && Enabled(s, BeginProvision(req))
    ensures Next(cfg, s, BeginProvision(req)).db.meetings.Keys == s.db.meetings.Keys
  {
    var request := s.requests[req];
    assert RequestOk(s, request);
    if Begin(cfg, s.db, request.id, request.values.startAt, request.values.endAt).Begun? {
      BeginShape(cfg, s.db, request.id, request.values.startAt, request.values.endAt);
    }
  }
}
