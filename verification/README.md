# Verified model of the Convay meeting gateway

The gateway registers one meeting per (client, class), reserves a licensed room for its time, and has
the provider Convay create the meeting. This project models that work in Dafny and proves what it
keeps.

## What is modelled

- **The creation protocol** (`Transactions`, `Protocol`). Every database transaction is one step over
  the stored rows; a request between its two transactions is a live provider phase. Requests, process
  crashes, the stale sweep, operator recovery (form loaded, checked, saved) and release, cancellation,
  changes of rooms and presets and the clock interleave in any order. `Execute` is the state after any list of events; an event that
  is not possible changes nothing. The state also records every creation call and every meeting that
  came into being at the provider.
- **The room allocator** (`Rooms`, `AllocatorProofs`, `RoomRace`, `RowLocks`): buffered half-open
  intervals, overlap query, provider cap, priority scan with savepoints, the availability snapshot, the
  race of many requests over few rooms, and the order in which rows are locked.
- **The services as they run** (`Gateway.dfy`): a class whose methods change rows field by field and
  save them against the constraints, each proved equal to the transaction of the same name.
- **The provider adapter** (`Provider`), **the token cache** (`Tokens`, `TokenStores`), **the layered configuration**
  (`Configuration`, `ConfigResolver`) and **the exchange limit** (`RateLimit`).
- **What every step answers** (`RequestSteps`, `PhaseSteps`, `OperatorSteps`, `CreationAnswers`,
  `TokenAnswers`, `Eligibility`): the effect of each step, spelled out over the state or the message
  fields before and after it, without the functions that compute it.

## Two tiers

The success commit checks the status of its row again; the error commit does not. A late error can
therefore overwrite a row that an operator has settled in the meantime.

- **Tier A** theorems (`TierA`, `Outcomes`, `Capacity`, part of `Histories`) hold over every run,
  whatever operators do.
- **Tier B** theorems (`TierB`, part of `Histories`) need `DisciplinedRun`: operators reconcile an
  UNKNOWN row only after its creating request has finished (docs/architecture.md:45).

`TierA.ExactlyLateErrorsOverwrite` and `TierA.OnlyLateRevivalsAndStaleFormsAbort` say exactly what the
discipline rules out, and `Witnesses` gives a run for each: ENDED left, READY left, a stored calendar id
replaced, an error commit aborted. Only the save of a stale form can abort in Tier B as well.

The only assumption about the provider is in `Protocol.Enabled`: an exchange that is a definite refusal
(nothing sent, a rejecting status, `success: false`) created nothing.

## Where code and documentation differ

The model follows the code.

- docs/convay-contract.md:46-48 says that a 429 and a connect failure release the reservation and fail
  the meeting; apps/meetings/services.py:170-177 keeps the reservation as RETRYABLE_FAILED.
- docs/convay-contract.md:52 says that a valid `calendarId` in a 200 answer is always stored as a known
  creation. apps/convay/client.py:323 calls `urlsplit`, and its ValueError (an unclosed IPv6 bracket,
  say) is classified like an unreadable body: PROVIDER_STATE_UNKNOWN without the identifier
  (`Provider.CreationIsKept` has the exact condition).
- docs/convay-contract.md:56 says that a recovery uses a confirmed calendar id, a panel address and a
  trusted URL. The form check reads the row without a lock and lets a row that is not UNKNOWN through
  unvalidated; if the row is UNKNOWN by the time of the save, any values become READY
  (`Outcomes.ReadyRowsAreUsable` has the exact condition).

## Model

| member | source | states |
|---|---|---|
| `TierA.AtMostOneCreation` | apps/meetings/services.py:66-239 | Tier A: over every run of requests, crashes, sweeps, operator steps and cancellations the provider creates at most one meeting per (client, class) |
| `TierA.CreatedMeetingsAreNeverGivenUp` | apps/meetings/services.py:159-189 | Tier A: in every run the row of each meeting that exists at the provider holds its reservation or was ended, it is never cancelled or failed, and no creation for it starts again |
| `TierA.SingleLivePhase` | apps/meetings/services.py:67-102 | Tier A: a meeting has at most one request between its two transactions, its row is then PROVISIONING, UNKNOWN, READY or ENDED, and nobody else can start a creation |
| `TierA.AllCallsOfAMeetingAreEqual` | apps/meetings/services.py:115-155 | Tier A: every creation call ever made for a meeting, the 401 repeat and later retries included, carries the same payload, room and slot, however presets change in between |
| `TierA.HoldCondition` | apps/meetings/services.py:161-177 | Tier A: a row holds its reservation exactly in seven statuses, and a retry that starts keeps its room, slot and payload |
| `TierA.NoDoubleBooking` | apps/rooms/services.py:46-50 | Tier A: two holders of one room have disjoint ranges and times at least both buffers apart, and at any instant at most as many reservations are active as there are rooms |
| `TierA.OnlyLateRevivalsAndStaleFormsAbort` | apps/meetings/models.py:87-109 | Tier A, every transaction being one step: a transaction aborts if and only if it is a late error commit re-activating an ENDED row whose slot is taken, or the save of a recovery form loaded before its row had a room; registration and the first transaction never do |
| `TierA.PendingWriteOutcome` | apps/meetings/models.py:87-109 | of the writes outside registration and allocation, the exclusion constraint aborts exactly the clashing late revivals, a check constraint exactly the stale forms |
| `TierA.RegistrationNeverAborts` | apps/meetings/services.py:17-63 | registration finds the only row of its key or creates it; it never ends in a server error or a review |
| `TierA.FirstTransactionNeverAborts` | apps/meetings/services.py:67-143 | Tier A, the transaction being one step (a preset edited in the middle of it can reach the scheduled refusal): the first transaction never ends in a server error or the scheduled-payload refusal; a draft begins if and only if its date fits and availability says yes, a failed row if and only if its date fits and nothing from the provider is stored |
| `TierA.DraftBeginsIffAvailable` | apps/rooms/services.py:124-129 | a creation succeeds in reserving exactly when the snapshot would answer true, else it names the date, the interval or the capacity |
| `TierA.ExactlyLateErrorsOverwrite` | apps/meetings/services.py:159-183 | CANCELLED is never left; ENDED is left, READY is left for anything but ENDED, and a stored calendar id is replaced exactly by an error commit that takes no hold or whose slot is still free |
| `TierA.AnswersIdentifyOneRow` | apps/meetings/views.py:202-218 | Tier A: all 2xx answers for one (client, class) name one row whose originals equal each request's data, and at most one of them is a 201 |
| `TierA.OriginalsNeverChange` | apps/meetings/services.py:46-63 | no step changes a row's client, class, details or times |
| `StepProofs.StepKeepsInv` | apps/meetings/services.py:66-264 | every event keeps the protocol invariant: row shape, unique keys, no overlap, single phase, one 201, equal calls, one creation |
| `StepProofs.RunKeepsInv` | apps/meetings/services.py:66-264 | the invariant holds in every reachable state |
| `StepProofs.BeginShape` | apps/meetings/services.py:110-141 | a started creation writes one row: PROVISIONING, instant payload with the row's own title, and either the kept hold of a failed row or the least eligible room for a draft |
| `StepProofs.RetryResumes` | apps/meetings/services.py:96-127 | a failed row begins again exactly when its date fits and no provider field is stored, and then on its own room, slot and payload |
| `StepProofs.FinalPayloadIsStable` | apps/meetings/services.py:128-130 | preparing a stored payload again yields the same payload |
| `Moves.NextMovesRow` | apps/meetings/services.py:159-238 | every event changes every existing row by one of eight moves, and no row is ever lost |
| `Outcomes.ReadyRowsAreUsable` | apps/meetings/admin.py:115-139 | Tier A: throughout a run every READY row carries a calendar id, a panel address and a start URL on a trusted host, and every row with an invalid answer names its meeting, if and only if no recovery form with other values is saved |
| `Outcomes.ValidatedFormsAreUsable` | apps/meetings/admin.py:26-62 | Tier A: a form that was validated, which happens only on an UNKNOWN row, never is such a form |
| `Outcomes.AcceptedSuccessIsTheReport` | apps/meetings/services.py:226-235 | Tier A: an accepted success stores exactly the reported fields, because nothing was stored before, and they are usable |
| `Witnesses.UnvalidatedFormMakesReadyUnusable` | apps/meetings/admin.py:26-32 | a concrete run: the form of a PROVISIONING row passes unvalidated, the sweep commits, and the save makes the row READY without calendar id and panel address |
| `RequestSteps.PostAnswers` | apps/meetings/services.py:17-63 | over any reachable state a POST finds the row of its (client, class) when it stores the same data, is refused as EXISTING_MEETING_MISMATCH when it stores other data, creates a DRAFT when there is none, and refuses an empty interval |
| `RequestSteps.BeginAnswers` | apps/meetings/services.py:67-143 | the stage that the first transaction gives its request, for each status of the row and for each way a draft or a failed row can be refused; without a start nothing else changes |
| `RequestSteps.ReplayIffReady` | apps/meetings/services.py:69-95 | a request is replayed exactly on a READY row, and told completed, cancelled, failed before or in progress exactly on an ENDED, CANCELLED, NON_RETRYABLE_FAILED or PROVISIONING one |
| `RequestSteps.ResumedRow` | apps/meetings/services.py:115-141 | a resumed row becomes PROVISIONING, and nothing else about it changes; the call carries its own room and payload |
| `RequestSteps.FreshRow` | apps/rooms/services.py:105-121 | a creation that starts from a DRAFT takes the first open room by (priority, public id), holds its own buffered slot there, and stores the payload that room, client and system presets choose, in that order, under the row's title |
| `PhaseSteps.CallAnswers` | apps/meetings/services.py:145-155 | after a call the request waits for a second token if and only if it was the first call and the answer is a 401; otherwise its outcome is what the answer means; the call is recorded and nothing is stored |
| `PhaseSteps.PhasesRepeatAtMostOnce` | apps/meetings/services.py:145-155 | over every run a provider phase makes at most two calls, the second only after a first answer of 401, and its outcome is that of the last thing it met |
| `Witnesses.SecondCallSucceeds` | apps/meetings/services.py:149-155 | a concrete run: 401, then a complete answer, two calls, one meeting, and the row is READY with the reported fields |
| `PhaseSteps.ErrorCommitLeaves` | apps/meetings/services.py:159-189 | over every run an error commit leaves RETRYABLE_FAILED with its hold exactly when nothing was sent or the answer is a 429, UNKNOWN exactly for a lost, uncertain or unreadable answer, PROVIDER_RESPONSE_INVALID with its identifiers exactly for a partly readable creation, and NON_RETRYABLE_FAILED without a hold for every other refusal; a token failure is retryable by its code |
| `PhaseSteps.SuccessWasComplete` | apps/meetings/services.py:145-155 | a phase succeeds only by a complete answer as the last thing it met, and the outcome is that answer |
| `PhaseSteps.SuccessCommitLeaves` | apps/meetings/services.py:210-235 | a success commit makes a PROVISIONING or UNKNOWN row READY with exactly the reported fields and nothing else changed; any other row is left alone and the caller told to reconcile |
| `PhaseSteps.RepeatedRequestIsReplayed` | apps/meetings/views.py:202-218 | with the data of a row that is READY when the request looks at it, a POST ends in a 200 for that row with nothing stored or called, whatever others do in between |
| `PhaseSteps.ReplyAnswers` | apps/meetings/views.py:214-218 | a delivered reply is a 201 exactly for the request that created the row, else a 200 |
| `PhaseSteps.OthersLeaveRequestAlone` | apps/meetings/services.py:144-158 | no event of another request, operator or sweep changes a request |
| `OperatorSteps.CancelAnswers` | apps/meetings/services.py:242-264 | the effect of cancel for each status: DRAFT, RESERVED and the failed statuses become CANCELLED without a hold, every other row is left alone |
| `OperatorSteps.SweepAnswers` | apps/meetings/tasks.py:12-20 | the sweep turns exactly the rows that have been PROVISIONING for more than ten minutes UNKNOWN |
| `OperatorSteps.ReleaseAnswers` | apps/meetings/admin.py:147-160 | the release ends exactly READY, LIVE, PROVIDER_RESPONSE_INVALID and UNKNOWN rows |
| `OperatorSteps.CheckAnswers` | apps/meetings/admin.py:26-62 | what the form check does: an UNKNOWN row is validated or the form refused, any other row is let through unread |
| `OperatorSteps.SaveAnswers` | apps/meetings/admin.py:115-139 | what the locked save writes, field by field, and when it is refused or aborted |
| `TierB.RunKeepsOwnership` | apps/meetings/services.py:210-215 | Tier B: while a request is live its row is PROVISIONING or UNKNOWN with no provider field stored |
| `TierB.SettledRowsStay` | apps/meetings/services.py:212-233 | Tier B: a stored calendar id never changes, ENDED and CANCELLED are never left, READY is left only to ENDED |
| `TierB.OnlyStaleFormsAbort` | apps/meetings/models.py:87-109 | Tier B, every transaction being one step: nothing is aborted but the save of a recovery form loaded before its row had a room |
| `TierB.SuccessIsAlwaysRecorded` | apps/meetings/services.py:210-239 | Tier B: the commit of a successful creation, however late, makes the row READY with exactly the reported fields |
| `Histories.BoundedStatusHistory` | apps/meetings/services.py:87-141 | Tier B: a meeting resumed r times makes at most 3r + 4 status changes in its life |
| `Histories.BoundedStatusHistoryAnyOperator` | apps/meetings/services.py:159-183 | Tier A: without the discipline the bound is 4r + 7, so an endless history still needs endless resumes |
| `Moves.RowsAppearAsDrafts` | apps/meetings/services.py:19-33 | a row comes into being only as a DRAFT |
| `Capacity.FreshStaysRespectTheCap` | apps/rooms/services.py:51-59 | Tier A: under a fixed limit the counted meetings of a room whose stay began with a fresh reservation never exceed it |
| `Capacity.CapBreaksExactlyOnUncheckedEntry` | apps/rooms/services.py:51-59 | the count exceeds the limit at a step if and only if the room is full and a failed row of it is about to be resumed without objection, or a late error that does not rule out a creation is about to be written over an ENDED row of it whose slot is free |
| `Capacity.UncheckedEntriesAreResumesOrRevivals` | apps/meetings/services.py:115-116 | an uncounted row of a room re-enters its count if and only if one of these two guards holds before the step |
| `Witnesses.ResumedRowExceedsTheCap` | apps/meetings/services.py:115-116 | a concrete run after which a room with limit 1 counts two meetings |
| `Witnesses.LateErrorRevivesAReleasedRow` | apps/meetings/services.py:160-183 | a concrete run in which a late error takes an ENDED row back to UNKNOWN with its hold |
| `Witnesses.LateErrorIsAborted` | apps/meetings/services.py:160-183 | a concrete run in which the exclusion constraint aborts such an error commit |
| `Witnesses.StaleFormIsAborted` | apps/meetings/admin.py:115-139 | a concrete run in which the save of a form loaded from a DRAFT breaks the check that an active reservation is complete |
| `Witnesses.LateErrorUndoesARecovery` | apps/meetings/services.py:160-183 | a concrete run in which a late error takes a recovered READY row back to UNKNOWN |
| `Witnesses.LateErrorReplacesTheIdentifier` | apps/meetings/services.py:161-167 | a concrete run in which a late answer replaces the recovered calendar id A by B |
| `AllocatorProofs.ScanOrderIsTheActiveRooms` | apps/rooms/services.py:107-109 | the scan visits exactly the active rooms in ascending (priority, public id) order |
| `AllocatorProofs.FreeSlotSaves` | apps/rooms/services.py:86-93 | check and write being one step, the exclusion constraint cannot refuse the write (a late error commit between them takes no room lock and could) |
| `AllocatorProofs.CapacityErrorPredictsTheReservation` | apps/rooms/services.py:46-60 | for a draft, a slot conflict is exactly what the exclusion constraint would refuse, and no error means exactly that the reservation also keeps the room within its limit |
| `AllocatorProofs.AttemptSucceedsIffEligible` | apps/rooms/services.py:66-103 | one attempt succeeds if and only if the room is eligible, and then writes exactly the reservation; otherwise it fails with a code that lets the scan go on |
| `AllocatorProofs.ScanTakesTheFirstEligible` | apps/rooms/services.py:105-121 | the scan stops at the first eligible candidate and reports no capacity exactly when there is none |
| `AllocatorProofs.AllocationTakesTheLeast` | apps/rooms/services.py:105-121 | the allocator takes the least eligible room by (priority, public id), or names why there is none |
| `AllocatorProofs.SnapshotAgreesWithAllocation` | apps/rooms/services.py:124-134 | availability is true if and only if the allocator would succeed for a draft of that client |
| `RoomRace.ExactlyMinWin` | tests/test_concurrency.py:17-65 | n overlapping requests racing over the active rooms in scan order, k of them open for everyone and the others for nobody, interleaved attempt by attempt, end with exactly min(n, k) winners in distinct open rooms, each holding its slot |
| `RoomRace.EnoughAttemptsSettle` | apps/rooms/services.py:105-121 | a racing request is settled at the latest when it has tried every active room |
| `RowLocks.NoWaitCycle` | apps/meetings/services.py:67-68 | the wait-for relation among creations, commits, cancellations and sweeps is acyclic in every reachable lock table, for fixed priorities and any set of active rooms at each start |
| `RowLocks.LocksAreExclusive` | apps/rooms/services.py:70-81 | over every run of lock events no row is locked by two transactions at once |
| `RowLocks.CreationLocksItsMeetingThenTheRooms` | apps/rooms/services.py:105-111 | a creation plans to lock its meeting and then exactly the active rooms in ascending (priority, public id) order |
| `RowLocks.NoDeadlock` | apps/rooms/services.py:77-81 | as long as transactions are open, one of them can take its next lock |
| `Text.StripOfBlank` | apps/rooms/services.py:34 | an account name counts as blank exactly when stripping leaves nothing |
| `Eligibility.EligibleIffOpen` | apps/rooms/services.py:32-60 | a room is eligible exactly when it is active and single-booking, has an account name, a readable non-empty password and valid presets that choose an instant meeting, nobody holds it during the slot, and fewer unresolved meetings than its limit are in it |
| `Eligibility.ResolvedFollows` | apps/rooms/configuration.py:74-85 | a resolved configuration gives each key and flag the room's value if it defines one, else the client's, else the system's |
| `Eligibility.ResolvesIffChosen` | apps/rooms/configuration.py:81-86 | for any default type, resolution succeeds exactly for valid layers that choose a known meeting type |
| `Eligibility.IntervalIsBuffered` | apps/rooms/services.py:16-29 | the buffered interval is valid exactly when it is not empty and within the supported dates |
| `Gateways.Gateway.Reserve` | apps/rooms/services.py:65-103 | the reservation with its savepoint equals its specification, and a refusal changes nothing |
| `Gateways.Gateway.AllocateRoom` | apps/rooms/services.py:105-121 | the scanning loop equals the allocation function |
| `Gateways.Gateway.CheckAvailability` | apps/rooms/services.py:124-134 | the any() over the rooms equals the existence of an eligible active room |
| `Gateways.Gateway.RegisterMeeting` | apps/meetings/services.py:17-63 | registration equals its specification and keeps the stored state good |
| `Gateways.Gateway.BeginProvision` | apps/meetings/services.py:67-143 | the first transaction with its rollback equals its specification and keeps the stored state good |
| `Gateways.Gateway.RefuseByStatus` | apps/meetings/services.py:69-102 | the guards on the locked row's status refuse everything but DRAFT and RETRYABLE_FAILED with the specified code |
| `Gateways.Gateway.ReserveForProvision` | apps/meetings/services.py:115-122 | a failed row with its hold is kept, anything else goes back to DRAFT and through the allocator |
| `Gateways.Gateway.EnterProvisioning` | apps/meetings/services.py:123-141 | the payload snapshot and the step to PROVISIONING, or a refusal that changes nothing |
| `Gateways.Gateway.RecordFailure` | apps/meetings/services.py:159-183 | the error commit, written whatever the status, equals its specification |
| `Gateways.Gateway.RecordSuccess` | apps/meetings/services.py:210-238 | the success commit equals its specification and is refused on a row settled otherwise |
| `Gateways.Gateway.CancelMeeting` | apps/meetings/services.py:242-264 | cancellation equals its specification |
| `Gateways.Gateway.FlagStale` | apps/meetings/tasks.py:10-20 | the sweep turns exactly the unlocked stale PROVISIONING rows UNKNOWN and keeps the stored state good |
| `Gateways.Gateway.ConfirmProviderEnded` | apps/meetings/admin.py:147-160 | the release ends exactly the selected releasable rows and keeps the stored state good |
| `Gateways.Gateway.CheckForm` | apps/meetings/admin.py:26-62 | the form check equals its specification: it validates only what it sees as UNKNOWN |
| `Gateways.Gateway.SaveRecovery` | apps/meetings/admin.py:115-139 | the locked save of an UNKNOWN row writes the form's instance exactly when the calendar ids agree and no constraint objects, and then keeps the stored state good |
| `Gateways.CommitsKeepDb` | apps/meetings/services.py:159-264 | the outcome commits and cancellation keep unique keys, row shape and disjoint reservations |
| `Provider.DefiniteIffRefused` | apps/convay/client.py:168-243 | a creation error is definite exactly when nothing was sent, the status rejects the request, or the body says success: false |
| `Provider.CreationIsKept` | apps/convay/client.py:265-350 | a named creation reaches the gateway as a result or a known creation if and only if its start URL can be split |
| `Provider.AnUnsplittableUrlLosesTheIdentifier` | apps/convay/client.py:322-323 | a concrete answer with a valid calendar id that ends as an unknown outcome |
| `CreationAnswers.SuccessIffComplete` | apps/convay/client.py:265-350 | a creation call succeeds exactly on a success status with an object that does not say success: false and has a usable identifier (string, integer or Boolean), panel address, unique id and trusted start URL; the result is exactly those fields, stripped |
| `CreationAnswers.KnownIffPartial` | apps/convay/client.py:280-343 | a creation is known but unusable exactly on an answer with a usable identifier that is not complete and whose URL does not raise, and exactly these fields are kept |
| `CreationAnswers.ErrorKinds` | apps/convay/client.py:168-243 | every error is ambiguous, a known creation, retryable or a rejection exactly as its exchange says |
| `CreationAnswers.ErrorCodes` | apps/convay/client.py:200-243 | the error code of every failing creation call |
| `TokenAnswers.AuthenticationIffToken` | apps/convay/client.py:53-97 | an authentication succeeds exactly on success: true with a token of 1 to 32768 characters, as accessToken of an object, of an object's JSON text, or as the data itself, with the earliest known expiry |
| `TokenAnswers.AuthErrorCodes` | apps/convay/client.py:168-243 | the error code of every failing authentication |
| `TokenAnswers.GetAnswers` | apps/convay/tokens.py:19-82 | everything a call can do: what it returns or fails with and what is cached afterwards, by what it meets |
| `TokenAnswers.CachedTokenIsReturned` | apps/convay/tokens.py:28-42 | an unforced call under a held lock returns a live readable entry outside the skew as it is and stores nothing |
| `TokenAnswers.NewTokenIsReturnedAndStored` | apps/convay/tokens.py:43-80 | an accepted answer that lasts long enough is returned and is what the next call finds |
| `TokenAnswers.FailuresAndEscapes` | apps/convay/tokens.py:19-82 | exactly when a call returns a token, fails with ROOM_INACTIVE, PROVIDER_AUTH_BUSY, PROVIDER_TOKEN_EXPIRED or an unavailable provider, or escapes with an undecryptable entry |
| `TokenAnswers.RetryableTokenFailures` | apps/meetings/services.py:170-177 | a failure to get a token leaves a creation retryable exactly for a lock or an unavailable provider |
| `Tokens.TokenFailuresAreDefinite` | apps/convay/tokens.py:43-53 | no failure to get a token claims anything about a creation |
| `Tokens.KnownExpiryIsTheEarliest` | apps/convay/client.py:66-97 | the known expiry is the earlier of the exp claim (section 4.1.4 of RFC 7519) and the reported bound |
| `Tokens.ReturnedTokensAreSound` | apps/convay/tokens.py:19-80 | over any run a returned token was issued for the caller's room and credential version, with more than the skew left when checked |
| `Tokens.AuthenticatesOnlyWhenNeeded` | apps/convay/tokens.py:28-45 | over any run the provider is asked if and only if the call forces it, nothing is cached, the entry does not decode, or it is inside the skew; the last only when the pauses of the authentication that stored this entry and of this check exceed its slack |
| `Tokens.SkewCheckFiresIffTooSlow` | apps/convay/tokens.py:37-63 | a call with a given pause between read and check can meet a stored entry inside the skew if and only if that pause and the one between computing its lifetime and storing it exceed the truncated fraction of a second |
| `Tokens.SkewCheckFires` | apps/convay/tokens.py:37-63 | a concrete run in which it does, with one microsecond of pause |
| `Tokens.InvalidationForcesAuthentication` | apps/convay/tokens.py:15-16 | after an invalidation, whatever happens next, every call asks the provider until another token has been issued for that room and version |
| `Tokens.RotationForcesAuthentication` | apps/rooms/models.py:60-62 | over any run, a call with a credential version that no token was issued for asks the provider |
| `TokenStores.TokenStore.Get` | apps/convay/tokens.py:19-82 | outcome, cache and the room's authentication record after a call are those of the full table TokenAnswers.Answers |
| `TokenStores.TokenStore.Reauthenticate` | apps/meetings/services.py:152-154 | after a 401 the refused token is gone: the returned token and whatever is cached for the account are the provider's new answer, and no other entry changes |
| `Configuration.MergeIsLastDefiner` | apps/rooms/configuration.py:76-85 | the merge gives each key and each nested flag the value of the last layer defining it |
| `Configuration.ResolveIsLastDefiner` | apps/rooms/configuration.py:70-87 | a resolved configuration is the last-definer lookup over the default type and the three layers |
| `Configuration.ResolveFailsOnlyOnABadLayer` | apps/rooms/configuration.py:81-86 | with a valid default type, resolution fails if and only if a layer is invalid |
| `Configuration.ResolveNamesAType` | apps/rooms/configuration.py:74 | a resolved configuration always has a meeting type |
| `Eligibility.AcceptedConfigurations` | apps/rooms/configuration.py:3-67 | validation accepts exactly the listed keys, each with a Boolean, a listed text or an object of listed switches and choices |
| `ConfigResolver.ValidateConfig` | apps/rooms/configuration.py:46-67 | the validation loop accepts exactly the valid configurations |
| `ConfigResolver.ResolveConfig` | apps/rooms/configuration.py:70-87 | the merge loop over dictionaries on the heap equals the merge function, yields a new dictionary and changes no layer |
| `RateLimit.CountersAreExact` | apps/integrations/tokens.py:36-38 | a counter never resets within its own minute: it counts every exchange of its bucket |
| `RateLimit.PassesIffBelowTheLimit` | apps/integrations/tokens.py:39-40 | an exchange passes if and only if fewer than 60 came before it in its minute |
| `RateLimit.FirstSixtyPass` | apps/integrations/tokens.py:32-40 | within a minute exactly the first sixty exchanges of an address pass |
| `RateLimit.RateBound` | apps/integrations/tokens.py:32-40 | in any half-open interval of 60 seconds at most 120 exchanges of an address pass |
| `RateLimit.BoundIsTight` | apps/integrations/tokens.py:32-40 | some sequence reaches 120 |
| `RateLimit.Throttle.Admit` | apps/integrations/tokens.py:32-40 | one exchange counts in its bucket and passes exactly up to the limit |

## Left out

- HTTP, Redis, Celery, the ORM and PostgreSQL themselves: only atomic transactions, row locks, savepoints, constraint aborts, an expiring key-value store and a free choice of provider answers are modelled.
- Statements of other transactions becoming visible inside a running transaction (READ COMMITTED): a transaction is one step; `RoomRace` interleaves single room attempts.
- Foreign-key share locks, the lock inside an exclusion-constraint insert, and the multi-row lock order of the operator release: `RowLocks` covers creations, outcome commits, cancellation and the sweep, under fixed priorities.
- Multi-row operator actions and the sweep as one transaction in the protocol: there they act row by row; the loops are in `Gateways.Gateway`.
- The admin save of a row that is not UNKNOWN. The cleaning of form fields other than stripping and requiring them (URL normalisation, lengths).
- Legacy rows: FAILED, LIVE, missing times, duplicate keys. The status branches for them are modelled, but reachable runs start without meetings.
- The columns `provider_created_at`, `cancelled_at`, `schedule_type`, `provider_meeting_type`, `provision_strategy` and the subject columns; nothing modelled reads them.
- Provider strings longer than their column or refused by the database: such an error commit fails, which is a crash of the request with the row left PROVISIONING.
- Exceptions that are no provider error (a failing Redis, an undecryptable credential or payload, an undecodable cache text that raises RecursionError): the request ends, which is a crash in the protocol.
- Encryption: stored secrets are the values themselves, and only a failing decryption is kept.
- `json.loads`, `urlsplit`, `str` of an integer, JWT and ISO decoding: parameters of the model.
- Time zones: instants are integers, and the class-date check uses a fixed offset from UTC. Naive times are refused by the request serializer and do not occur.
- Public room ids are numbers ordered as numbers, and a room keeps its id; rooms are never deleted while the gateway runs.
- Aliasing of nested dictionaries between merge layers and the result: dictionaries are values inside `JsonObject`.
- The Redis lock around a cached token is an outcome of each call (busy, held, expired), so two calls inside an expired lock do not interleave.
- The token cache and the rate limit assume one clock shared by the gateway and the store, which never runs backwards.
- The HTTP status chosen for each refusal other than 200 and 201, response bodies, scopes, serializers, list and detail views, audit rows, logging, redaction, client credentials and access-token claims: no state of the protocol depends on them.
- Numeric limits of `expiresIn` and `exp` beyond what the decoders return, and the refresh token.
