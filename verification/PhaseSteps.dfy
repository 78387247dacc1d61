/**
  The provider phase of a request, spelled out: its calls, what their answers leave stored, and what
  the caller is told.
 */
module PhaseSteps {
  import opened Wrappers
  import opened Models
  import opened Rooms
  import opened Provider
  import opened Transactions
  import opened Protocol
  import opened Invariants
  import opened StepProofs
  import opened Moves
  import opened TierA
  import opened Outcomes
  import opened CreationAnswers
  import opened RequestSteps

  // ---------------------------------------------------------------------------------------------
  // One call
  // ---------------------------------------------------------------------------------------------

  /** The answer rejects the token. */
  predicate Unauthorized(exchange: Exchange) {
    exchange.Answered? && exchange.status == 401
  }

  /**
    After a call the request waits for a second token if and only if this was its first call and the
    answer is a 401; otherwise its outcome is what the answer means. The call and, if there is one, the
    creation are recorded, and nothing is stored.
   */
  lemma CallAnswers(cfg: Settings, s: State, req: RequestId, exchange: Exchange, creates: bool)
    requires Enabled(s, Call(req, exchange, creates))
    ensures var s', request := Next(cfg, s, Call(req, exchange, creates)), s.requests[req];
      && IsLive(s', req) && s'.db == s.db && s'.forms == s.forms
      && var progress := s'.requests[req].stage.progress;
      && s'.requests == s.requests[req := request.(stage := request.stage.(progress := progress))]
      && (progress == SecondToken <==> request.stage.progress == FirstToken && Unauthorized(exchange))
      && (progress != SecondToken ==> progress == Finished(StartMeeting(cfg, exchange)))
      && s'.calls == s.calls + [CallRecord(request.id, request.stage.room, s.db.meetings[request.id].reservation,
                                           request.stage.payload)]
      && s'.creations == if creates then s.creations + [CreationOf(s, request.id)] else s.creations
  {
    CodeOf401(cfg, exchange);
  }

  function CreationOf(s: State, id: MeetingId): Creation
    requires id in s.db.meetings
  {
    Creation(id, s.db.meetings[id].client, s.db.meetings[id].classId)
  }

  lemma CodeOf401(cfg: Settings, exchange: Exchange)
    ensures StartMeeting(cfg, exchange).Err? && StartMeeting(cfg, exchange).error.statusCode == Some(401)
       <==> Unauthorized(exchange)
  {
  }

  /** Without a token the outcome is that failure, and nothing else changes. */
  lemma TokenFailureAnswers(cfg: Settings, s: State, req: RequestId, error: ProviderError)
    requires Enabled(s, TokenFails(req, error))
    ensures var s', request := Next(cfg, s, TokenFails(req, error)), s.requests[req];
      s' == s.(requests := s.requests[req := request.(stage := request.stage.(progress := Finished(Err(error))))])
  {
  }

  // ---------------------------------------------------------------------------------------------
  // Whose event it is
  // ---------------------------------------------------------------------------------------------

  predicate OfThis(event: Event, req: RequestId) {
    match event
    case Post(r, _, _, _) => r == req
    case BeginProvision(r) => r == req
    case TokenFails(r, _) => r == req
    case Call(r, _, _) => r == req
    case Commit(r) => r == req
    case Reply(r, _) => r == req
    case Crash(r) => r == req
    case _ => false
  }

  /** Nobody else changes a request. */
  lemma OthersLeaveRequestAlone(cfg: Settings, s: State, event: Event, req: RequestId)
    requires !OfThis(event, req)
    ensures req in Next(cfg, s, event).requests <==> req in s.requests
    ensures req in s.requests ==> Next(cfg, s, event).requests[req] == s.requests[req]
  {
  }

  lemma {:induction false} OtherRunLeavesRequestAlone(cfg: Settings, s: State, others: seq<Event>, req: RequestId)
    requires req in s.requests && forall i | 0 <= i < |others| :: !OfThis(others[i], req)
    ensures var s' := Execute(cfg, s, others); req in s'.requests && s'.requests[req] == s.requests[req]
  {
    if others != [] {
      var front := others[..|others| - 1];
      OtherRunLeavesRequestAlone(cfg, s, front, req);
      OthersLeaveRequestAlone(cfg, Execute(cfg, s, front), others[|others| - 1], req);
    }
  }

  lemma {:induction false} RunKeepsInvFrom(cfg: Settings, s: State, events: seq<Event>)
    requires Inv(cfg, s)
    ensures Inv(cfg, Execute(cfg, s, events))
  {
    if events != [] {
      RunKeepsInvFrom(cfg, s, events[..|events| - 1]);
      StepKeepsInv(cfg, Execute(cfg, s, events[..|events| - 1]), events[|events| - 1]);
    }
  }

  // ---------------------------------------------------------------------------------------------
  // The exchanges of a phase
  // ---------------------------------------------------------------------------------------------

  /** What a phase meets: the answer to a call, or a failure to get a token. */
  datatype Meets = CallAnswer(exchange: Exchange) | NoToken(error: ProviderError)

  function MeetsNow(s: State, event: Event, req: RequestId): seq<Meets> {
    if !Enabled(s, event) then []
    else
      match event
      case Call(r, exchange, _) => if r == req then [CallAnswer(exchange)] else []
      case TokenFails(r, error) => if r == req then [NoToken(error)] else []
      case _ => []
  }

  /** Everything the phase of a request has met in a run. */
  function Trace(cfg: Settings, start: State, events: seq<Event>, req: RequestId): seq<Meets> {
    if events == [] then []
    else
      var front := events[..|events| - 1];
      Trace(cfg, start, front, req) + MeetsNow(Execute(cfg, start, front), events[|events| - 1], req)
  }

  function OutcomeOf(cfg: Settings, met: Meets): Result<MeetingResult, ProviderError> {
    match met
    case CallAnswer(exchange) => StartMeeting(cfg, exchange)
    case NoToken(error) => Err(error)
  }

  predicate Is401(met: Meets) {
    met.CallAnswer? && Unauthorized(met.exchange)
  }

  /** At most two, the second only after a first answer of 401. */
  predicate AtMostOneRepeat(trace: seq<Meets>) {
    |trace| <= 2 && (|trace| == 2 ==> Is401(trace[0]))
  }

  predicate TraceFits(cfg: Settings, trace: seq<Meets>, s: State, req: RequestId) {
    && AtMostOneRepeat(trace)
    && if req !in s.requests || s.requests[req].Unregistered? then trace == []
       else
         match s.requests[req].stage
         case Registered => trace == []
         case Calling(_, _, _, progress) =>
           (match progress
            case FirstToken => trace == []
            case SecondToken => |trace| == 1 && Is401(trace[0])
            case Finished(outcome) =>
              && trace != [] && outcome == OutcomeOf(cfg, trace[|trace| - 1])
              && (|trace| == 1 ==> !Is401(trace[0])))
         case _ => true
  }

  lemma CallKeepsTrace(cfg: Settings, s: State, trace: seq<Meets>, req: RequestId, exchange: Exchange, creates: bool)
    requires TraceFits(cfg, trace, s, req) && Enabled(s, Call(req, exchange, creates))
    ensures TraceFits(cfg, trace + [CallAnswer(exchange)], Next(cfg, s, Call(req, exchange, creates)), req)
  {
    CallAnswers(cfg, s, req, exchange, creates);
  }

  lemma TokenFailureKeepsTrace(cfg: Settings, s: State, trace: seq<Meets>, req: RequestId, error: ProviderError)
    requires TraceFits(cfg, trace, s, req) && Enabled(s, TokenFails(req, error))
    ensures TraceFits(cfg, trace + [NoToken(error)], Next(cfg, s, TokenFails(req, error)), req)
  {
    TokenFailureAnswers(cfg, s, req, error);
  }

  /** The other events of a request meet nothing and never lead back into the middle of a phase. */
  lemma OwnStepKeepsTrace(cfg: Settings, s: State, trace: seq<Meets>, event: Event, req: RequestId)
    requires TraceFits(cfg, trace, s, req) && Enabled(s, event)
    requires OfThis(event, req) && !event.Call? && !event.TokenFails?
    ensures TraceFits(cfg, trace, Next(cfg, s, event), req)
  {
  }

  lemma StepKeepsTrace(cfg: Settings, s: State, trace: seq<Meets>, event: Event, req: RequestId)
    requires TraceFits(cfg, trace, s, req)
    ensures TraceFits(cfg, trace + MeetsNow(s, event, req), Next(cfg, s, event), req)
  {
    assert trace + [] == trace;
    if Enabled(s, event) {
      if !OfThis(event, req) {
        OthersLeaveRequestAlone(cfg, s, event, req);
      } else if event.Call? {
        CallKeepsTrace(cfg, s, trace, req, event.exchange, event.creates);
      } else if event.TokenFails? {
        TokenFailureKeepsTrace(cfg, s, trace, req, event.error);
      } else {
        OwnStepKeepsTrace(cfg, s, trace, event, req);
      }
    }
  }

  /**
    One repetition at most: over every run the phase of a request makes at most two calls, the second
    only after a first answer of 401, and its outcome is what the last thing it met means.
   */
  lemma {:induction false} PhasesRepeatAtMostOnce(cfg: Settings, start: State, events: seq<Event>, req: RequestId)
    requires Initial(start)
    ensures TraceFits(cfg, Trace(cfg, start, events, req), Execute(cfg, start, events), req)
  {
    if events != [] {
      var front := events[..|events| - 1];
      PhasesRepeatAtMostOnce(cfg, start, front, req);
      StepKeepsTrace(cfg, Execute(cfg, start, front), Trace(cfg, start, front, req), events[|events| - 1], req);
    }
  }

  // ---------------------------------------------------------------------------------------------
  // The outcome commit
  // ---------------------------------------------------------------------------------------------

  /** What an error commit leaves of the row, by what the phase met last. */
  ghost predicate FailureLeaves(cfg: Settings, row: Meeting, row': Meeting, met: Meets) {
    && SameCore(row, row')
    && (row'.active <==> row'.status != NonRetryableFailed)
    && match met
       case NoToken(error) =>
         && row'.status == (if error.code in {Unavailable, RateLimited, AuthBusy} then RetryableFailed
                            else NonRetryableFailed)
         && row'.provider == row.provider && row'.lastError == Some(error.code)
       case CallAnswer(exchange) =>
         && (row'.status == RetryableFailed <==> AsksToRetry(exchange))
         && (row'.status == ProviderStateUnknown <==> LeavesOpen(cfg, exchange))
         && (row'.status == ProviderResponseInvalid <==> exists partial :: CreatesPartly(cfg, exchange, partial))
         && (row'.status == NonRetryableFailed <==> Rejects(exchange))
         && (forall partial | CreatesPartly(cfg, exchange, partial) ::
               row'.provider == ProviderFields(Some(partial.calendarId), partial.uniqueId, partial.panelAddress,
                                               row.provider.startUrl))
         && (row'.status != ProviderResponseInvalid ==> row'.provider == row.provider)
         && StartMeeting(cfg, exchange).Err? && row'.lastError == Some(StartMeeting(cfg, exchange).error.code)
  }

  lemma FailedRowIsLeft(cfg: Settings, row: Meeting, met: Meets, error: ProviderError)
    requires OutcomeOf(cfg, met) == Err(error) && (met.NoToken? ==> Definite(error))
    ensures FailureLeaves(cfg, row, FailedRow(row, error), met)
  {
    if met.CallAnswer? {
      ErrorKinds(cfg, met.exchange);
      DefiniteIffRefused(cfg, met.exchange);
      forall partial | CreatesPartly(cfg, met.exchange, partial)
        ensures error.knownCreated == Some(partial)
      {
        KnownIffPartial(cfg, met.exchange, partial);
      }
    }
  }

  /** A phase without a token has failed definitely. */
  predicate TokenFailuresOk(trace: seq<Meets>) {
    forall i | 0 <= i < |trace| :: trace[i].NoToken? ==> Definite(trace[i].error)
  }

  lemma {:induction false} TokenFailuresAreOk(cfg: Settings, start: State, events: seq<Event>, req: RequestId)
    ensures TokenFailuresOk(Trace(cfg, start, events, req))
  {
    if events != [] { TokenFailuresAreOk(cfg, start, events[..|events| - 1], req); }
  }

  lemma ErrorCommitIsAStep(cfg: Settings, s: State, req: RequestId, error: ProviderError)
    requires Enabled(s, Commit(req)) && s.requests[req].stage.progress == Finished(Err(error))
    ensures var id, s' := s.requests[req].id, Next(cfg, s, Commit(req));
      && OnlyStage(s, s', req)
      && (Aborts(cfg, s, Commit(req)) ==> s'.db == s.db && s'.requests[req].stage == Refused(ServerError))
      && (!Aborts(cfg, s, Commit(req)) ==>
            && s'.requests[req].stage == Refused(ProviderRefusal)
            && Wrote(s.db, s'.db, id, FailedRow(s.db.meetings[id], error).(updatedAt := s.db.now)))
  {
  }

  /**
    The error commit: what a failed phase leaves depends only on what it met last. Nothing sent or a
    429 stays retryable with its hold, an open answer is UNKNOWN, a partly readable creation is
    PROVIDER_RESPONSE_INVALID with its identifiers, and every other refusal gives the hold up.
   */
  lemma {:induction false} ErrorCommitLeaves(cfg: Settings, start: State, events: seq<Event>, req: RequestId)
    requires Initial(start)
    requires var s := Execute(cfg, start, events);
      Enabled(s, Commit(req)) && s.requests[req].stage.progress.outcome.Err?
    ensures var s, trace := Execute(cfg, start, events), Trace(cfg, start, events, req);
      var s', id := Next(cfg, s, Commit(req)), s.requests[req].id;
      && trace != [] && OnlyStage(s, s', req) && id in s'.db.meetings
      && (Aborts(cfg, s, Commit(req)) ==> s'.db == s.db && s'.requests[req].stage == Refused(ServerError))
      && (!Aborts(cfg, s, Commit(req)) ==>
            && s'.requests[req].stage == Refused(ProviderRefusal)
            && Wrote(s.db, s'.db, id, s'.db.meetings[id]) && s'.db.meetings[id].updatedAt == s.db.now
            && FailureLeaves(cfg, s.db.meetings[id], s'.db.meetings[id], trace[|trace| - 1]))
  {
    var s, trace := Execute(cfg, start, events), Trace(cfg, start, events, req);
    PhasesRepeatAtMostOnce(cfg, start, events, req);
    TokenFailuresAreOk(cfg, start, events, req);
    var error := s.requests[req].stage.progress.outcome.error;
    ErrorCommitIsAStep(cfg, s, req, error);
    FailedRowIsLeft(cfg, s.db.meetings[s.requests[req].id], trace[|trace| - 1], error);
  }

  /** What a success commit leaves of state and request. */
  ghost predicate SuccessLeaves(s: State, s': State, req: RequestId, data: MeetingResult)
    requires IsLive(s, req)
  {
    var id := s.requests[req].id;
    && OnlyStage(s, s', req)
    && (if s.db.meetings[id].status in {Provisioning, ProviderStateUnknown} then
          && s'.requests[req].stage == Replying
          && Wrote(s.db, s'.db, id, s.db.meetings[id].(
               status := Ready, lastError := None, updatedAt := s.db.now,
               provider := ProviderFields(Some(data.calendarId), data.uniqueId, data.panelAddress, data.startUrl)))
        else s'.db == s.db && s'.requests[req].stage == Refused(ProviderReconciliationRequired))
  }

  /** A phase succeeds only by a complete answer as the last thing it met, and its outcome is that answer. */
  lemma {:induction false} SuccessWasComplete(cfg: Settings, start: State, events: seq<Event>, req: RequestId)
    requires Initial(start)
    requires var s := Execute(cfg, start, events);
      Enabled(s, Commit(req)) && s.requests[req].stage.progress.outcome.Ok?
    ensures var s, trace := Execute(cfg, start, events), Trace(cfg, start, events, req);
      && trace != [] && trace[|trace| - 1].CallAnswer?
      && Creates(cfg, trace[|trace| - 1].exchange, s.requests[req].stage.progress.outcome.value)
  {
    PhasesRepeatAtMostOnce(cfg, start, events, req);
    FinishedByCompleteAnswer(cfg, Trace(cfg, start, events, req), Execute(cfg, start, events), req);
  }

  lemma FinishedByCompleteAnswer(cfg: Settings, trace: seq<Meets>, s: State, req: RequestId)
    requires TraceFits(cfg, trace, s, req) && Enabled(s, Commit(req)) && s.requests[req].stage.progress.outcome.Ok?
    ensures trace != [] && trace[|trace| - 1].CallAnswer?
    ensures Creates(cfg, trace[|trace| - 1].exchange, s.requests[req].stage.progress.outcome.value)
  {
    SuccessIffComplete(cfg, trace[|trace| - 1].exchange, s.requests[req].stage.progress.outcome.value);
  }

  /**
    The success commit: a row that is still PROVISIONING or UNKNOWN becomes READY with exactly the four
    fields of the complete answer; any other row is left alone and the caller is told to reconcile.
   */
  lemma {:induction false} SuccessCommitLeaves(cfg: Settings, start: State, events: seq<Event>, req: RequestId)
    requires Initial(start)
    requires var s := Execute(cfg, start, events);
      Enabled(s, Commit(req)) && s.requests[req].stage.progress.outcome.Ok?
    ensures var s := Execute(cfg, start, events);
      SuccessLeaves(s, Next(cfg, s, Commit(req)), req, s.requests[req].stage.progress.outcome.value)
  {
    RunKeepsInv(cfg, start, events);
    RunKeepsOutcomes(cfg, start, events);
    var s := Execute(cfg, start, events);
    assert PhaseOk(cfg, s, req) && PhaseIsBlank(s, req);
    BlankSuccessIsWritten(cfg, s, req, s.requests[req].stage.progress.outcome.value);
  }

  lemma BlankSuccessIsWritten(cfg: Settings, s: State, req: RequestId, data: MeetingResult)
    requires DbInv(cfg, s.db) && Enabled(s, Commit(req)) && s.requests[req].stage.progress == Finished(Ok(data))
    requires UsableMeeting(cfg, data) && PhaseIsBlank(s, req)
    ensures SuccessLeaves(s, Next(cfg, s, Commit(req)), req, data)
  {
    if AcceptsSuccess(s.db.meetings[s.requests[req].id]) { SuccessIsSaved(cfg, s, s.requests[req].id); }
  }

  // ---------------------------------------------------------------------------------------------
  // The answer to the caller
  // ---------------------------------------------------------------------------------------------

  /** A delivered reply is a 201 exactly for the request that created the row, else a 200. */
  lemma ReplyAnswers(cfg: Settings, s: State, req: RequestId, delivered: bool)
    requires Enabled(s, Reply(req, delivered))
    ensures var s' := Next(cfg, s, Reply(req, delivered));
      && OnlyStage(s, s', req) && s'.db == s.db
      && s'.requests[req].stage == if !delivered then Refused(ServerError)
                                   else if s.requests[req].created then Stage.Answered(201) else Stage.Answered(200)
  {
  }

  /** A crash ends an unfinished request and leaves everything else, its row included, as it is. */
  lemma CrashAnswers(cfg: Settings, s: State, req: RequestId)
    requires HasStage(s, req)
    requires var stage := s.requests[req].stage; stage.Registered? || stage.Calling? || stage.Replying?
    ensures var s' := Next(cfg, s, Crash(req)); OnlyStage(s, s', req) && s'.db == s.db && s'.requests[req].stage == Gone
  {
  }

  /**
    A repeated request is replayed: with the data of a READY row, and as long as the row is READY when
    the request looks at it, a POST ends in a 200 for that row, whatever others do in between.
   */
  lemma {:induction false} RepeatedRequestIsReplayed(
    cfg: Settings, s: State, req: RequestId, client: ClientId, values: Values, newId: MeetingId, id: MeetingId,
    others: seq<Event>, more: seq<Event>)
    requires Inv(cfg, s) && req !in s.requests && newId !in s.db.meetings && values.startAt < values.endAt
    requires id in s.db.meetings && IsOf(s.db.meetings[id], client, values.classId)
    requires StoresRequest(s.db.meetings[id], values)
    requires forall i | 0 <= i < |others| :: !OfThis(others[i], req)
    requires forall i | 0 <= i < |more| :: !OfThis(more[i], req)
    requires var waiting := Execute(cfg, Next(cfg, s, Post(req, client, values, newId)), others);
      id in waiting.db.meetings && waiting.db.meetings[id].status == Ready
    ensures var posted := Next(cfg, s, Post(req, client, values, newId));
      var waiting := Execute(cfg, posted, others);
      var begun := Next(cfg, waiting, BeginProvision(req));
      var replying := Execute(cfg, begun, more);
      var replied := Next(cfg, replying, Reply(req, true));
      && posted.db == s.db && begun.db == waiting.db && replied.db == replying.db
      && begun.calls == waiting.calls && replied.calls == replying.calls
      && req in replied.requests
      && replied.requests[req] == Request(client, values, id, false, Stage.Answered(200))
  {
    var posted := Next(cfg, s, Post(req, client, values, newId));
    PostAnswers(cfg, s, req, client, values, newId);
    StepKeepsInv(cfg, s, Post(req, client, values, newId));
    var waiting := Execute(cfg, posted, others);
    OtherRunLeavesRequestAlone(cfg, posted, others, req);
    RunKeepsInvFrom(cfg, posted, others);
    ReplayIffReady(cfg, waiting, req);
    BeginAnswers(cfg, waiting, req);
    var begun := Next(cfg, waiting, BeginProvision(req));
    StepKeepsInv(cfg, waiting, BeginProvision(req));
    var replying := Execute(cfg, begun, more);
    OtherRunLeavesRequestAlone(cfg, begun, more, req);
    RunKeepsInvFrom(cfg, begun, more);
    assert RequestOk(replying, replying.requests[req]);
    ReplyAnswers(cfg, replying, req, true);
  }
}
