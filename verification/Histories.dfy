/**
  Statements about whole histories: how often a meeting can change its status.
 */
module Histories {
  import opened Models
  import opened Transactions
  import opened Protocol
  import opened Invariants
  import opened StepProofs
  import opened Moves
  import opened TierB
  import opened Outcomes

  // ---------------------------------------------------------------------------------------------
  // Bounded status history
  // ---------------------------------------------------------------------------------------------

  predicate ChangesStatus(cfg: Settings, s: State, event: Event, id: MeetingId) {
    && id in s.db.meetings && id in Next(cfg, s, event).db.meetings
    && s.db.meetings[id].status != Next(cfg, s, event).db.meetings[id].status
  }

  predicate ResumesRow(cfg: Settings, s: State, event: Event, id: MeetingId) {
    id in s.db.meetings && MoveOf(cfg, s, event, id) == Begins(true)
  }

  /** How often the committed status of a meeting changed during a run. */
  function StatusChanges(cfg: Settings, start: State, events: seq<Event>, id: MeetingId): nat {
    if events == [] then 0
    else
      var front, last := events[..|events| - 1], events[|events| - 1];
      StatusChanges(cfg, start, front, id) + (if ChangesStatus(cfg, Execute(cfg, start, front), last, id) then 1 else 0)
  }

  /** How often a failed meeting was resumed during a run. */
  function Resumes(cfg: Settings, start: State, events: seq<Event>, id: MeetingId): nat {
    if events == [] then 0
    else
      var front, last := events[..|events| - 1], events[|events| - 1];
      Resumes(cfg, start, front, id) + (if ResumesRow(cfg, Execute(cfg, start, front), last, id) then 1 else 0)
  }

  /** The status changes still possible without a resume, under the operator discipline. */
  function DisciplinedBudget(status: Status): nat {
    match status
    case Draft => 4
    case Provisioning => 3
    case ProviderStateUnknown => 2
    case Ready => 1
    case ProviderResponseInvalid => 1
    case RetryableFailed => 1
    case NonRetryableFailed => 1
    case _ => 0
  }

  lemma {:induction false} DisciplinedStepSpends(cfg: Settings, s: State, event: Event, id: MeetingId)
    requires Inv(cfg, s) && PhasesOwnRows(s) && id in s.db.meetings
    ensures id in Next(cfg, s, event).db.meetings
    ensures DisciplinedBudget(Next(cfg, s, event).db.meetings[id].status)
            + (if ChangesStatus(cfg, s, event, id) then 1 else 0)
         <= DisciplinedBudget(s.db.meetings[id].status) + (if ResumesRow(cfg, s, event, id) then 3 else 0)
  {
    NextMovesRow(cfg, s, event, id);
    assert RowOk(cfg, s.db.meetings[id]);
    if event.Commit? && Enabled(s, event) {
      assert OwnsRow(s, event.req);
    }
    DisciplinedMoveSpends(cfg, s.db, id, MoveOf(cfg, s, event, id), Next(cfg, s, event).db.meetings[id]);
  }

  lemma DisciplinedMoveSpends(cfg: Settings, db: Db, id: MeetingId, move: Move, row: Meeting)
    requires id in db.meetings && Moved(cfg, db, id, move, row) && RowOk(cfg, db.meetings[id])
    requires move.Fails? ==> AcceptsSuccess(db.meetings[id])
    ensures DisciplinedBudget(row.status) + (if db.meetings[id].status != row.status then 1 else 0)
         <= DisciplinedBudget(db.meetings[id].status) + (if move == Begins(true) then 3 else 0)
  {
  }

  /** A row that does not exist has no history. */
  lemma {:induction false} NoRowNoHistory(cfg: Settings, start: State, events: seq<Event>, id: MeetingId)
    requires Initial(start) && id !in Execute(cfg, start, events).db.meetings
    ensures StatusChanges(cfg, start, events, id) == 0 && Resumes(cfg, start, events, id) == 0
  {
    if events != [] {
      var front, last := events[..|events| - 1], events[|events| - 1];
      RunKeepsInv(cfg, start, front);
      if id in Execute(cfg, start, front).db.meetings {
        NextMovesRow(cfg, Execute(cfg, start, front), last, id);
      }
      NoRowNoHistory(cfg, start, front, id);
    }
  }

  lemma {:induction false} DisciplinedAccount(cfg: Settings, start: State, events: seq<Event>, id: MeetingId)
    requires Initial(start) && DisciplinedRun(cfg, start, events) && id in Execute(cfg, start, events).db.meetings
    ensures StatusChanges(cfg, start, events, id)
            + DisciplinedBudget(Execute(cfg, start, events).db.meetings[id].status)
         <= 4 + 3 * Resumes(cfg, start, events, id)
  {
    if events != [] {
      var front, last := events[..|events| - 1], events[|events| - 1];
      var s := Execute(cfg, start, front);
      RunKeepsInv(cfg, start, front);
      DisciplinedFront(cfg, start, events);
      if id in s.db.meetings {
        DisciplinedAccount(cfg, start, front, id);
        RunKeepsOwnership(cfg, start, front);
        DisciplinedStepSpends(cfg, s, last, id);
      } else {
        NoRowNoHistory(cfg, start, front, id);
        RowsAppearAsDrafts(cfg, s, last, id);
      }
    }
  }

  /** Tier B: a meeting that is resumed r times changes its status at most 3r + 4 times in its life. */
  lemma {:induction false} BoundedStatusHistory(cfg: Settings, start: State, events: seq<Event>, id: MeetingId)
    requires Initial(start) && DisciplinedRun(cfg, start, events)
    ensures StatusChanges(cfg, start, events, id) <= 3 * Resumes(cfg, start, events, id) + 4
  {
    if id in Execute(cfg, start, events).db.meetings {
      DisciplinedAccount(cfg, start, events, id);
    } else {
      NoRowNoHistory(cfg, start, events, id);
    }
  }

  ghost predicate HasLive(s: State, id: MeetingId) {
    exists req :: LiveOn(s, req, id)
  }

  /**
    The same budget without any discipline; a live phase can still overwrite the row once. A failed row
    can be resumed only while nothing from the provider is stored in it.
   */
  function Budget(row: Meeting, live: bool): nat {
    match row.status
    case Draft => 7
    case Provisioning => if live then 6 else 3
    case ProviderStateUnknown => if live then 5 else 2
    case Ready => if live then 4 else 1
    case Ended => if !live then 0 else if AnyTruthy(row.provider) then 3 else 4
    case RetryableFailed => if AnyTruthy(row.provider) then 1 else 3
    case ProviderResponseInvalid => 1
    case NonRetryableFailed => 1
    case _ => 0
  }

  /** A phase is live after a step only if it was live before or has just begun. */
  lemma LivenessAfterStep(cfg: Settings, s: State, event: Event, id: MeetingId)
    requires Inv(cfg, s) && id in s.db.meetings
    ensures HasLive(Next(cfg, s, event), id) ==> HasLive(s, id) || MoveOf(cfg, s, event, id).Begins?
    ensures MoveOf(cfg, s, event, id).Fails? || MoveOf(cfg, s, event, id).Succeeds? ==>
      HasLive(s, id) && !HasLive(Next(cfg, s, event), id)
  {
    if HasLive(Next(cfg, s, event), id) {
      var req :| LiveOn(Next(cfg, s, event), req, id);
      LiveAfterStep(cfg, s, event, req);
      if IsLive(s, req) {
        assert LiveOn(s, req, id);
      }
    }
    if event.Commit? && Enabled(s, event) && s.requests[event.req].id == id {
      CommitEndsThePhase(cfg, s, event.req);
    }
  }

  lemma CommitEndsThePhase(cfg: Settings, s: State, req: RequestId)
    requires Inv(cfg, s) && Enabled(s, Commit(req))
    ensures HasLive(s, s.requests[req].id) && !HasLive(Next(cfg, s, Commit(req)), s.requests[req].id)
  {
    assert LiveOn(s, req, s.requests[req].id);
    forall other
      ensures !LiveOn(Next(cfg, s, Commit(req)), other, s.requests[req].id)
    {
      if LiveOn(Next(cfg, s, Commit(req)), other, s.requests[req].id) { LiveAfterStep(cfg, s, Commit(req), other); }
    }
  }

  lemma {:induction false} StepSpends(cfg: Settings, s: State, event: Event, id: MeetingId)
    requires Inv(cfg, s) && OutcomesInv(cfg, s) && ReadyRowsHaveFields(s) && id in s.db.meetings
    ensures id in Next(cfg, s, event).db.meetings
    ensures Budget(Next(cfg, s, event).db.meetings[id], HasLive(Next(cfg, s, event), id))
            + (if ChangesStatus(cfg, s, event, id) then 1 else 0)
         <= Budget(s.db.meetings[id], HasLive(s, id)) + (if ResumesRow(cfg, s, event, id) then 4 else 0)
  {
    NextMovesRow(cfg, s, event, id);
    LivenessAfterStep(cfg, s, event, id);
    assert RowOk(cfg, s.db.meetings[id]) && HasFieldsWhenReady(s.db.meetings[id]);
    if HasLive(s, id) {
      var req :| LiveOn(s, req, id);
      assert RequestOk(s, s.requests[req]) && PhaseIsBlank(s, req);
    }
    MoveSpends(cfg, s.db, id, MoveOf(cfg, s, event, id), Next(cfg, s, event).db.meetings[id],
               HasLive(s, id), HasLive(Next(cfg, s, event), id));
  }

  lemma MoveSpends(cfg: Settings, db: Db, id: MeetingId, move: Move, row: Meeting, live: bool, live': bool)
    requires id in db.meetings && Moved(cfg, db, id, move, row) && RowOk(cfg, db.meetings[id])
    requires HasFieldsWhenReady(db.meetings[id])
    requires live && AcceptsSuccess(db.meetings[id]) ==> !AnyTruthy(db.meetings[id].provider)
    requires (live ==> LiveStatus(db.meetings[id].status)) && (live' ==> live || move.Begins?)
    requires move.Fails? || move.Succeeds? ==> live && !live'
    ensures Budget(row, live') + (if db.meetings[id].status != row.status then 1 else 0)
         <= Budget(db.meetings[id], live) + (if move == Begins(true) then 4 else 0)
  {
  }

  lemma {:induction false} Account(cfg: Settings, start: State, events: seq<Event>, id: MeetingId)
    requires Initial(start) && id in Execute(cfg, start, events).db.meetings
    ensures StatusChanges(cfg, start, events, id)
            + Budget(Execute(cfg, start, events).db.meetings[id], HasLive(Execute(cfg, start, events), id))
         <= 7 + 4 * Resumes(cfg, start, events, id)
  {
    if events != [] {
      var front, last := events[..|events| - 1], events[|events| - 1];
      var s := Execute(cfg, start, front);
      RunKeepsInv(cfg, start, front);
      if id in s.db.meetings {
        Account(cfg, start, front, id);
        RunKeepsOutcomes(cfg, start, front);
        RunKeepsReadyFields(cfg, start, front);
        StepSpends(cfg, s, last, id);
      } else {
        NoRowNoHistory(cfg, start, front, id);
        RowsAppearAsDrafts(cfg, s, last, id);
      }
    }
  }

  /** Tier A: without the discipline the bound is 4r + 7; an endless history still needs endless resumes. */
  lemma {:induction false} BoundedStatusHistoryAnyOperator(
    cfg: Settings, start: State, events: seq<Event>, id: MeetingId)
    requires Initial(start)
    ensures StatusChanges(cfg, start, events, id) <= 4 * Resumes(cfg, start, events, id) + 7
  {
    if id in Execute(cfg, start, events).db.meetings {
      Account(cfg, start, events, id);
    } else {
      NoRowNoHistory(cfg, start, events, id);
    }
  }
}
