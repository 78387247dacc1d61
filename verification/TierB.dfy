/**
  Tier B: what holds when operators reconcile an UNKNOWN row only after its creating request has
  finished, as docs/architecture.md demands.
 */
module TierB {
  import opened Wrappers
  import opened Models
  import opened Transactions
  import opened Protocol
  import opened Invariants
  import opened StepProofs
  import opened Moves
  import opened TierA

  /** The row still waits for its outcome and nothing about the provider is recorded yet. */
  predicate AwaitsOutcome(row: Meeting) {
    AcceptsSuccess(row) && !AnyTruthy(row.provider)
  }

  /** A live phase owns its row: it is unsettled. */
  predicate OwnsRow(s: State, req: RequestId)
    requires IsLive(s, req)
  {
    AwaitsOutcome(s.db.meetings[s.requests[req].id])
  }

  ghost predicate PhasesOwnRows(s: State) {
    forall req | IsLive(s, req) :: OwnsRow(s, req)
  }

  lemma LiveAfterBegin(cfg: Settings, s: State, begun: RequestId, req: RequestId)
    requires IsLive(Next(cfg, s, BeginProvision(begun)), req)
    requires req in s.requests ==> RequestOk(s, s.requests[req])
    ensures HasStage(s, req) && s.requests[req].id == Next(cfg, s, BeginProvision(begun)).requests[req].id
    ensures IsLive(s, req) || (begun == req && MoveOf(cfg, s, BeginProvision(begun), s.requests[req].id).Begins?)
  {
  }

  lemma LiveAfterCommit(cfg: Settings, s: State, committed: RequestId, req: RequestId)
    requires IsLive(Next(cfg, s, Commit(committed)), req)
    requires req in s.requests ==> RequestOk(s, s.requests[req])
    ensures IsLive(s, req) && s.requests[req].id == Next(cfg, s, Commit(committed)).requests[req].id
    ensures committed == req ==> !Enabled(s, Commit(committed))
  {
  }

  /** A request that is live after the step was live before on the same row, or has just begun. */
  lemma LiveAfterStep(cfg: Settings, s: State, event: Event, req: RequestId)
    requires Inv(cfg, s) && IsLive(Next(cfg, s, event), req)
    ensures req in s.requests && s.requests[req].Request? && s.requests[req].id == Next(cfg, s, event).requests[req].id
    ensures s.requests[req].id in s.db.meetings
    ensures IsLive(s, req) || (event == BeginProvision(req) && MoveOf(cfg, s, event, s.requests[req].id).Begins?)
    ensures event == Commit(req) ==> !Enabled(s, event)
  {
    assert req in s.requests ==> RequestOk(s, s.requests[req]);
    match event {
      case BeginProvision(begun) => LiveAfterBegin(cfg, s, begun, req);
      case Commit(committed) => LiveAfterCommit(cfg, s, committed, req);
      case _ => LiveAfterOther(cfg, s, event, req);
    }
  }

  lemma LiveAfterOther(cfg: Settings, s: State, event: Event, req: RequestId)
    requires !event.BeginProvision? && !event.Commit? && IsLive(Next(cfg, s, event), req)
    requires req in s.requests ==> RequestOk(s, s.requests[req])
    ensures IsLive(s, req) && s.requests[req].id == Next(cfg, s, event).requests[req].id
  {
  }

  lemma {:induction false} StepKeepsOwnership(cfg: Settings, s: State, event: Event)
    requires Inv(cfg, s) && PhasesOwnRows(s) && Disciplined(s, event)
    ensures PhasesOwnRows(Next(cfg, s, event))
  {
    forall req | IsLive(Next(cfg, s, event), req)
      ensures OwnsRow(Next(cfg, s, event), req)
    {
      LiveAfterStep(cfg, s, event, req);
      var id := s.requests[req].id;
      NextMovesRow(cfg, s, event, id);
      assert RowOk(cfg, s.db.meetings[id]);
      if IsLive(s, req) {
        assert OwnsRow(s, req) && LiveOn(s, req, id);
        LivePhaseBlocksSettling(cfg, s, event, req);
      }
      MovesKeepOwnership(cfg, s.db, id, MoveOf(cfg, s, event, id), Next(cfg, s, event).db.meetings[id]);
    }
  }

  /** Of the moves on an unsettled row only those of its own commit and of operators settle it. */
  lemma MovesKeepOwnership(cfg: Settings, db: Db, id: MeetingId, move: Move, row: Meeting)
    requires id in db.meetings && Moved(cfg, db, id, move, row) && RowOk(cfg, db.meetings[id])
    ensures AwaitsOutcome(db.meetings[id]) && (move.Stays? || move.TimesOut?) ==> AwaitsOutcome(row)
    ensures AwaitsOutcome(db.meetings[id]) ==> !move.Begins? && !move.Cancels?
    ensures move.Begins? ==> AwaitsOutcome(row)
  {
  }

  /** While a phase is live, the discipline leaves only its own commit to settle its row. */
  lemma LivePhaseBlocksSettling(cfg: Settings, s: State, event: Event, req: RequestId)
    requires Inv(cfg, s) && IsLive(s, req) && OwnsRow(s, req) && Disciplined(s, event)
    ensures var move := MoveOf(cfg, s, event, s.requests[req].id);
      && !move.Recovers? && !move.Ends?
      && (move.Fails? || move.Succeeds? ==> event == Commit(req))
  {
    assert LiveOn(s, req, s.requests[req].id);
  }

  lemma {:induction false} DisciplinedFront(cfg: Settings, start: State, events: seq<Event>)
    requires events != [] && DisciplinedRun(cfg, start, events)
    ensures DisciplinedRun(cfg, start, events[..|events| - 1])
  {
    var front := events[..|events| - 1];
    forall i | 0 <= i < |front|
      ensures Disciplined(Execute(cfg, start, front[..i]), front[i])
    {
      assert front[..i] == events[..i];
      assert Disciplined(Execute(cfg, start, events[..i]), events[i]);
    }
  }

  lemma {:induction false} RunKeepsOwnership(cfg: Settings, start: State, events: seq<Event>)
    requires Initial(start) && DisciplinedRun(cfg, start, events)
    ensures PhasesOwnRows(Execute(cfg, start, events))
  {
    if events != [] {
      var front := events[..|events| - 1];
      DisciplinedFront(cfg, start, events);
      RunKeepsOwnership(cfg, start, front);
      RunKeepsInv(cfg, start, front);
      assert Disciplined(Execute(cfg, start, events[..|front|]), events[|front|]);
      StepKeepsOwnership(cfg, Execute(cfg, start, front), events[|front|]);
    }
  }

  /**
    Write-once and absorbing: in a disciplined run the provider calendar id never changes once set,
    ENDED and CANCELLED are never left, and READY is left only to ENDED.
   */
  lemma {:induction false} SettledRowsStay(cfg: Settings, start: State, events: seq<Event>, event: Event, id: MeetingId)
    requires Initial(start) && DisciplinedRun(cfg, start, events)
    requires id in Execute(cfg, start, events).db.meetings
    ensures var s := Execute(cfg, start, events);
      var s' := Next(cfg, s, event);
      && id in s'.db.meetings
      && var row, row' := s.db.meetings[id], s'.db.meetings[id];
      && (Truthy(row.provider.calendarId) ==> row'.provider.calendarId == row.provider.calendarId)
      && (row.status == Ended ==> row'.status == Ended)
      && (row.status == Cancelled ==> row'.status == Cancelled)
      && (row.status == Ready ==> row'.status in {Ready, Ended})
  {
    RunKeepsInv(cfg, start, events);
    RunKeepsOwnership(cfg, start, events);
    var s := Execute(cfg, start, events);
    ExactlyLateErrorsOverwrite(cfg, s, event, id);
    if ErrorCommitOn(s, event, id) {
      assert OwnsRow(s, event.req);
    }
  }

  /**
    In a disciplined run, taking every transaction as one step, nothing aborts but the save of a
    recovery form that was loaded before its row had a room.
   */
  lemma {:induction false} OnlyStaleFormsAbort(cfg: Settings, start: State, events: seq<Event>, event: Event)
    requires Initial(start) && DisciplinedRun(cfg, start, events)
    ensures var s := Execute(cfg, start, events); Aborts(cfg, s, event) <==> StaleForm(s, event)
  {
    RunKeepsInv(cfg, start, events);
    RunKeepsOwnership(cfg, start, events);
    var s := Execute(cfg, start, events);
    OnlyLateRevivalsAndStaleFormsAbort(cfg, s, event);
    assert event.Commit? && Enabled(s, event) ==> OwnsRow(s, event.req);
  }

  /**
    A success is never lost: in a disciplined run the commit of a successful creation, however late,
    makes its row READY with exactly the reported fields, and the request answers.
   */
  lemma {:induction false} SuccessIsAlwaysRecorded(cfg: Settings, start: State, events: seq<Event>, req: RequestId)
    requires Initial(start) && DisciplinedRun(cfg, start, events)
    requires var s := Execute(cfg, start, events); Enabled(s, Commit(req)) && s.requests[req].stage.progress.outcome.Ok?
    ensures var s := Execute(cfg, start, events);
      var s', id, data := Next(cfg, s, Commit(req)), s.requests[req].id, s.requests[req].stage.progress.outcome.value;
      && id in s'.db.meetings && s'.db.meetings[id].status == Ready
      && s'.db.meetings[id].provider
         == ProviderFields(Some(data.calendarId), data.uniqueId, data.panelAddress,
                           if Truthy(data.startUrl) then data.startUrl else None)
      && s'.requests[req].stage == Replying
  {
    RunKeepsInv(cfg, start, events);
    RunKeepsOwnership(cfg, start, events);
    var s := Execute(cfg, start, events);
    assert OwnsRow(s, req);
    SuccessIsSaved(cfg, s, s.requests[req].id);
  }
}
