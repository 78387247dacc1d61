/**
  Tier A: what the recorded provider fields of a settled row are worth.
 */
module Outcomes {
  import opened Wrappers
  import opened Models
  import opened Provider
  import opened Transactions
  import opened Protocol
  import opened Invariants
  import opened StepProofs
  import opened Moves
  import opened TierB

  /** A READY row is usable; a row with an invalid answer at least names its meeting. */
  predicate Usable(cfg: Settings, row: Meeting) {
    && (row.status == Ready ==> UsableFields(cfg, row.provider))
    && (row.status == ProviderResponseInvalid ==> Truthy(row.provider.calendarId))
  }

  predicate UsableFields(cfg: Settings, fields: ProviderFields) {
    && Truthy(fields.calendarId) && Truthy(fields.panelAddress)
    && Truthy(fields.startUrl) && TrustedUrl(cfg, fields.startUrl.value)
  }

  predicate OutcomeOk(cfg: Settings, outcome: Result<MeetingResult, ProviderError>) {
    match outcome
    case Ok(data) => UsableMeeting(cfg, data)
    case Err(error) => error.knownCreated.Some? ==> error.knownCreated.value.calendarId != ""
  }

  predicate PhaseOk(cfg: Settings, s: State, req: RequestId)
    requires IsLive(s, req)
  {
    s.requests[req].stage.progress.Finished? ==> OutcomeOk(cfg, s.requests[req].stage.progress.outcome)
  }

  /** The row of a phase that may still succeed has nothing from the provider yet. */
  predicate PhaseIsBlank(s: State, req: RequestId)
    requires IsLive(s, req)
  {
    var row := s.db.meetings[s.requests[req].id];
    AcceptsSuccess(row) ==> !AnyTruthy(row.provider)
  }

  /** What a recovery from this form writes is usable. */
  predicate UsableForm(cfg: Settings, page: Page) {
    UsableFields(cfg, RecoveredRow(page.loaded, page.form).provider)
  }

  ghost predicate OutcomesInv(cfg: Settings, s: State) {
    && (forall req | IsLive(s, req) :: PhaseOk(cfg, s, req) && PhaseIsBlank(s, req))
    && (forall page | page in s.forms && s.forms[page].checked == Some(true) :: UsableForm(cfg, s.forms[page]))
  }

  lemma AnswersAreOk(cfg: Settings, exchange: Exchange)
    ensures OutcomeOk(cfg, StartMeeting(cfg, exchange))
  {
    CreationIsKept(cfg, exchange);
  }

  // ---------------------------------------------------------------------------------------------
  // The outcomes of live phases
  // ---------------------------------------------------------------------------------------------

  /** A call leaves the classified answer, or waits for the second token. */
  lemma CallsLeaveGoodOutcomes(cfg: Settings, s: State, event: Event, req: RequestId)
    requires (event.Call? || event.TokenFails?) && Enabled(s, event) && IsLive(Next(cfg, s, event), req)
    requires IsLive(s, req) ==> PhaseOk(cfg, s, req)
    ensures PhaseOk(cfg, Next(cfg, s, event), req)
  {
    if event.Call? { AnswersAreOk(cfg, event.exchange); }
  }

  /** No other event gives a live phase an outcome. */
  lemma OthersLeaveOutcomes(cfg: Settings, s: State, event: Event, req: RequestId)
    requires !event.Call? && !event.TokenFails? && !event.BeginProvision?
    requires IsLive(s, req) && IsLive(Next(cfg, s, event), req)
    ensures Next(cfg, s, event).requests[req].stage == s.requests[req].stage
  {
  }

  lemma BeginsLeaveOutcomes(cfg: Settings, s: State, begun: RequestId, req: RequestId)
    requires IsLive(s, req) ==> PhaseOk(cfg, s, req)
    requires Inv(cfg, s) && IsLive(Next(cfg, s, BeginProvision(begun)), req)
    ensures PhaseOk(cfg, Next(cfg, s, BeginProvision(begun)), req)
  {
    assert req in s.requests ==> RequestOk(s, s.requests[req]);
    LiveAfterBegin(cfg, s, begun, req);
  }

  lemma PhaseAfterStep(cfg: Settings, s: State, event: Event, req: RequestId)
    requires Inv(cfg, s) && OutcomesInv(cfg, s) && IsLive(Next(cfg, s, event), req)
    ensures PhaseOk(cfg, Next(cfg, s, event), req)
  {
    assert IsLive(s, req) ==> PhaseOk(cfg, s, req);
    match event {
      case BeginProvision(begun) => BeginsLeaveOutcomes(cfg, s, begun, req);
      case Call(_, _, _) => if Enabled(s, event) { CallsLeaveGoodOutcomes(cfg, s, event, req); }
      case TokenFails(_, _) => if Enabled(s, event) { CallsLeaveGoodOutcomes(cfg, s, event, req); }
      case _ =>
        LiveAfterStep(cfg, s, event, req);
        OthersLeaveOutcomes(cfg, s, event, req);
    }
  }

  // ---------------------------------------------------------------------------------------------
  // The rows of live phases
  // ---------------------------------------------------------------------------------------------

  lemma MovesLeaveRowsBlank(cfg: Settings, db: Db, id: MeetingId, move: Move, row: Meeting)
    requires id in db.meetings && Moved(cfg, db, id, move, row) && RowOk(cfg, db.meetings[id])
    requires !move.Fails? && !move.Succeeds? && AcceptsSuccess(row)
    requires AcceptsSuccess(db.meetings[id]) ==> !AnyTruthy(db.meetings[id].provider)
    ensures !AnyTruthy(row.provider)
  {
  }

  lemma BlankAfterStep(cfg: Settings, s: State, event: Event, req: RequestId)
    requires Inv(cfg, s) && OutcomesInv(cfg, s) && IsLive(Next(cfg, s, event), req)
    ensures PhaseIsBlank(Next(cfg, s, event), req)
  {
    LiveAfterStep(cfg, s, event, req);
    var id := s.requests[req].id;
    NextMovesRow(cfg, s, event, id);
    assert RowOk(cfg, s.db.meetings[id]);
    OthersDoNotCommit(cfg, s, event, req);
    if IsLive(s, req) {
      assert PhaseIsBlank(s, req);
    }
    if AcceptsSuccess(Next(cfg, s, event).db.meetings[id]) {
      BlankBefore(cfg, s, event, req);
      MovesLeaveRowsBlank(cfg, s.db, id, MoveOf(cfg, s, event, id), Next(cfg, s, event).db.meetings[id]);
    }
  }

  /** A live phase is ended only by its own commit. */
  lemma OthersDoNotCommit(cfg: Settings, s: State, event: Event, req: RequestId)
    requires Inv(cfg, s) && HasStage(s, req) && IsLive(Next(cfg, s, event), req)
    requires IsLive(s, req) || MoveOf(cfg, s, event, s.requests[req].id).Begins?
    ensures !MoveOf(cfg, s, event, s.requests[req].id).Fails? && !MoveOf(cfg, s, event, s.requests[req].id).Succeeds?
  {
    LiveAfterStep(cfg, s, event, req);
  }

  lemma BlankBefore(cfg: Settings, s: State, event: Event, req: RequestId)
    requires Inv(cfg, s) && HasStage(s, req)
    requires IsLive(s, req) ==> PhaseIsBlank(s, req)
    requires IsLive(s, req) || MoveOf(cfg, s, event, s.requests[req].id).Begins?
    ensures var row := s.db.meetings[s.requests[req].id]; AcceptsSuccess(row) ==> !AnyTruthy(row.provider)
  {
    if !IsLive(s, req) { NextMovesRow(cfg, s, event, s.requests[req].id); }
  }

  // ---------------------------------------------------------------------------------------------
  // Forms
  // ---------------------------------------------------------------------------------------------

  /** A form that `clean` validated on an UNKNOWN row holds usable values. */
  lemma ValidationMeansUsable(cfg: Settings, page: Page, row: Meeting)
    requires CheckRecovery(cfg, page.loaded, row, page.form) == Some(true)
    ensures UsableForm(cfg, page) && row.status == ProviderStateUnknown
  {
  }

  lemma FormsAfterStep(cfg: Settings, s: State, event: Event, page: FormId)
    requires forall p | p in s.forms && s.forms[p].checked == Some(true) :: UsableForm(cfg, s.forms[p])
    requires page in Next(cfg, s, event).forms && Next(cfg, s, event).forms[page].checked == Some(true)
    ensures UsableForm(cfg, Next(cfg, s, event).forms[page])
  {
    if event == CheckForm(page) && Enabled(s, event) {
      var p := s.forms[page];
      if CheckRecovery(cfg, p.loaded, s.db.meetings[p.id], p.form) == Some(true) {
        ValidationMeansUsable(cfg, p, s.db.meetings[p.id]);
      }
    }
  }

  lemma {:induction false} RunKeepsOutcomes(cfg: Settings, start: State, events: seq<Event>)
    requires Initial(start)
    ensures OutcomesInv(cfg, Execute(cfg, start, events))
  {
    if events != [] {
      var front, last := events[..|events| - 1], events[|events| - 1];
      var s := Execute(cfg, start, front);
      RunKeepsOutcomes(cfg, start, front);
      RunKeepsInv(cfg, start, front);
      forall req | IsLive(Next(cfg, s, last), req)
        ensures PhaseOk(cfg, Next(cfg, s, last), req) && PhaseIsBlank(Next(cfg, s, last), req)
      {
        PhaseAfterStep(cfg, s, last, req);
        BlankAfterStep(cfg, s, last, req);
      }
      forall page | page in Next(cfg, s, last).forms && Next(cfg, s, last).forms[page].checked == Some(true)
        ensures UsableForm(cfg, Next(cfg, s, last).forms[page])
      {
        FormsAfterStep(cfg, s, last, page);
      }
    }
  }

  // ---------------------------------------------------------------------------------------------
  // READY has something from the provider
  // ---------------------------------------------------------------------------------------------

  predicate HasFieldsWhenReady(row: Meeting) {
    row.status == Ready ==> AnyTruthy(row.provider)
  }

  ghost predicate ReadyRowsHaveFields(s: State) {
    forall id | id in s.db.meetings :: HasFieldsWhenReady(s.db.meetings[id])
  }

  lemma MovesKeepReadyFields(cfg: Settings, db: Db, id: MeetingId, move: Move, row: Meeting)
    requires id in db.meetings && Moved(cfg, db, id, move, row) && HasFieldsWhenReady(db.meetings[id])
    requires move.Succeeds? ==> OutcomeOk(cfg, Ok(move.data))
    ensures HasFieldsWhenReady(row)
  {
  }

  lemma ReadyFieldsAfterStep(cfg: Settings, s: State, event: Event, id: MeetingId)
    requires Inv(cfg, s) && OutcomesInv(cfg, s) && ReadyRowsHaveFields(s) && id in Next(cfg, s, event).db.meetings
    ensures HasFieldsWhenReady(Next(cfg, s, event).db.meetings[id])
  {
    if id in s.db.meetings {
      NextMovesRow(cfg, s, event, id);
      MovesCommitLiveOutcomes(cfg, s, event, id);
      MovesKeepReadyFields(cfg, s.db, id, MoveOf(cfg, s, event, id), Next(cfg, s, event).db.meetings[id]);
    } else {
      RowsAppearAsDrafts(cfg, s, event, id);
    }
  }

  /** A READY row, however it became one, stores something from the provider or from a recovery. */
  lemma {:induction false} RunKeepsReadyFields(cfg: Settings, start: State, events: seq<Event>)
    requires Initial(start)
    ensures ReadyRowsHaveFields(Execute(cfg, start, events))
  {
    if events != [] {
      var front, last := events[..|events| - 1], events[|events| - 1];
      RunKeepsReadyFields(cfg, start, front);
      RunKeepsInv(cfg, start, front);
      RunKeepsOutcomes(cfg, start, front);
      forall id | id in Execute(cfg, start, events).db.meetings
        ensures HasFieldsWhenReady(Execute(cfg, start, events).db.meetings[id])
      {
        ReadyFieldsAfterStep(cfg, Execute(cfg, start, front), last, id);
      }
    }
  }

  // ---------------------------------------------------------------------------------------------
  // READY is usable
  // ---------------------------------------------------------------------------------------------

  /** The save of a recovery form whose values are not usable; it is readable before the save. */
  predicate UnusableRecovery(cfg: Settings, s: State, event: Event, id: MeetingId) {
    && event.SaveForm? && Enabled(s, event) && s.forms[event.page].id == id
    && RecoveryAccepted(s.db.meetings[id], s.forms[event.page].loaded, s.forms[event.page].form)
    && s.forms[event.page].loaded.room.Some?
    && !UsableForm(cfg, s.forms[event.page])
  }

  /** A move with a good outcome leaves a usable row, unless it is an unusable recovery. */
  lemma MovesKeepUsable(cfg: Settings, db: Db, id: MeetingId, move: Move, row: Meeting)
    requires id in db.meetings && Moved(cfg, db, id, move, row) && Usable(cfg, db.meetings[id])
    requires move.Fails? ==> OutcomeOk(cfg, Err(move.error))
    requires move.Succeeds? ==> OutcomeOk(cfg, Ok(move.data)) && !AnyTruthy(db.meetings[id].provider)
    ensures Usable(cfg, row)
       <==> !(move.Recovers? && !UsableFields(cfg, RecoveredRow(move.loaded, move.form).provider))
  {
  }

  lemma RecoversUnusably(cfg: Settings, s: State, event: Event, id: MeetingId)
    requires id in s.db.meetings
    ensures var move := MoveOf(cfg, s, event, id);
      move.Recovers? && !UsableFields(cfg, RecoveredRow(move.loaded, move.form).provider)
      <==> UnusableRecovery(cfg, s, event, id)
  {
  }

  /** An outcome that a move commits is the outcome of a live phase. */
  lemma MovesCommitLiveOutcomes(cfg: Settings, s: State, event: Event, id: MeetingId)
    requires id in s.db.meetings && OutcomesInv(cfg, s)
    ensures var move := MoveOf(cfg, s, event, id);
      && (move.Fails? ==> OutcomeOk(cfg, Err(move.error)))
      && (move.Succeeds? ==> OutcomeOk(cfg, Ok(move.data)) && !AnyTruthy(s.db.meetings[id].provider))
  {
    if event.Commit? && Enabled(s, event) {
      assert PhaseOk(cfg, s, event.req) && PhaseIsBlank(s, event.req);
    }
  }

  /** A usable row stays usable at a step exactly when the step is no unusable recovery of it. */
  lemma UsableAfterStep(cfg: Settings, s: State, event: Event, id: MeetingId)
    requires Inv(cfg, s) && OutcomesInv(cfg, s) && id in Next(cfg, s, event).db.meetings
    requires id in s.db.meetings ==> Usable(cfg, s.db.meetings[id])
    ensures Usable(cfg, Next(cfg, s, event).db.meetings[id]) <==> !UnusableRecovery(cfg, s, event, id)
  {
    if id in s.db.meetings {
      NextMovesRow(cfg, s, event, id);
      MovesCommitLiveOutcomes(cfg, s, event, id);
      RecoversUnusably(cfg, s, event, id);
      MovesKeepUsable(cfg, s.db, id, MoveOf(cfg, s, event, id), Next(cfg, s, event).db.meetings[id]);
    } else {
      RowsAppearAsDrafts(cfg, s, event, id);
    }
  }

  ghost predicate AllUsable(cfg: Settings, s: State) {
    forall id | id in s.db.meetings :: Usable(cfg, s.db.meetings[id])
  }

  /** Every state of the run, the first and the last included, has only usable rows. */
  ghost predicate AlwaysUsable(cfg: Settings, start: State, events: seq<Event>) {
    AllUsable(cfg, Execute(cfg, start, events)) && (events == [] || AlwaysUsable(cfg, start, events[..|events| - 1]))
  }

  ghost predicate HasUnusableRecovery(cfg: Settings, s: State, event: Event) {
    exists id :: UnusableRecovery(cfg, s, event, id)
  }

  /** No event of the run is an unusable recovery in the state it meets. */
  ghost predicate NoUnusableRecovery(cfg: Settings, start: State, events: seq<Event>) {
    events == []
    || (NoUnusableRecovery(cfg, start, events[..|events| - 1])
        && !HasUnusableRecovery(cfg, Execute(cfg, start, events[..|events| - 1]), events[|events| - 1]))
  }

  lemma AllUsableAfterStep(cfg: Settings, s: State, event: Event)
    requires Inv(cfg, s) && OutcomesInv(cfg, s) && AllUsable(cfg, s)
    ensures AllUsable(cfg, Next(cfg, s, event)) <==> !HasUnusableRecovery(cfg, s, event)
  {
    forall id | id in Next(cfg, s, event).db.meetings
      ensures Usable(cfg, Next(cfg, s, event).db.meetings[id]) <==> !UnusableRecovery(cfg, s, event, id)
    {
      UsableAfterStep(cfg, s, event, id);
    }
    forall id | UnusableRecovery(cfg, s, event, id)
      ensures id in Next(cfg, s, event).db.meetings
    {
      NextMovesRow(cfg, s, event, id);
    }
  }

  /**
    READY is usable, exactly: throughout a run every READY row carries a calendar id, a panel address
    and a start URL on a trusted host, and every row with an invalid answer names its meeting, if and
    only if no recovery form with other values is saved.
   */
  lemma {:induction false} ReadyRowsAreUsable(cfg: Settings, start: State, events: seq<Event>)
    requires Initial(start)
    ensures AlwaysUsable(cfg, start, events) <==> NoUnusableRecovery(cfg, start, events)
  {
    if events != [] {
      var front, last := events[..|events| - 1], events[|events| - 1];
      ReadyRowsAreUsable(cfg, start, front);
      RunKeepsInv(cfg, start, front);
      RunKeepsOutcomes(cfg, start, front);
      if AlwaysUsable(cfg, start, front) { AllUsableAfterStep(cfg, Execute(cfg, start, front), last); }
    }
  }

  /** In any run, a form that was validated is never an unusable recovery. */
  lemma {:induction false} ValidatedFormsAreUsable(
    cfg: Settings, start: State, events: seq<Event>, page: FormId, id: MeetingId)
    requires Initial(start)
    requires var s := Execute(cfg, start, events); page in s.forms && s.forms[page].checked == Some(true)
    ensures !UnusableRecovery(cfg, Execute(cfg, start, events), SaveForm(page), id)
  {
    RunKeepsOutcomes(cfg, start, events);
  }

  /**
    An accepted success records exactly what the provider reported, in any run: nothing was stored
    before.
   */
  lemma {:induction false} AcceptedSuccessIsTheReport(cfg: Settings, start: State, events: seq<Event>, req: RequestId)
    requires Initial(start)
    requires var s := Execute(cfg, start, events);
      && Enabled(s, Commit(req)) && s.requests[req].stage.progress.outcome.Ok?
      && AcceptsSuccess(s.db.meetings[s.requests[req].id])
    ensures var s := Execute(cfg, start, events);
      var s', id, data := Next(cfg, s, Commit(req)), s.requests[req].id, s.requests[req].stage.progress.outcome.value;
      && id in s'.db.meetings && s'.db.meetings[id].status == Ready && s'.requests[req].stage == Replying
      && s'.db.meetings[id].provider
         == ProviderFields(Some(data.calendarId), data.uniqueId, data.panelAddress, data.startUrl)
      && UsableFields(cfg, s'.db.meetings[id].provider)
  {
    RunKeepsInv(cfg, start, events);
    RunKeepsOutcomes(cfg, start, events);
    var s := Execute(cfg, start, events);
    assert PhaseOk(cfg, s, req) && PhaseIsBlank(s, req);
    BlankSuccessIsTheReport(cfg, s, req, s.requests[req].stage.progress.outcome.value);
  }

  lemma BlankSuccessIsTheReport(cfg: Settings, s: State, req: RequestId, data: MeetingResult)
    requires DbInv(cfg, s.db) && IsLive(s, req) && s.requests[req].stage.progress == Finished(Ok(data))
    requires UsableMeeting(cfg, data) && AcceptsSuccess(s.db.meetings[s.requests[req].id])
    requires !AnyTruthy(s.db.meetings[s.requests[req].id].provider)
    ensures var s', id := CommitStep(s, req), s.requests[req].id;
      && id in s'.db.meetings && s'.db.meetings[id].status == Ready && s'.requests[req].stage == Replying
      && s'.db.meetings[id].provider
         == ProviderFields(Some(data.calendarId), data.uniqueId, data.panelAddress, data.startUrl)
      && UsableFields(cfg, s'.db.meetings[id].provider)
  {
    SuccessIsSaved(cfg, s, s.requests[req].id);
  }
}
