# Verification of the BattleBelief session, coordinator, runner and oracle

A Dafny 4.11 model of the battle session that BattleBelief runs against a Showdown server, of the public state it
reduces events into, of the coordinator that finds its room, of the runner that publishes its result, and of three
self-contained algorithms of the lab. `dafny verify dfyconfig.toml` checks everything.

## What is modelled

- **Public state.** `ObservedStates` and `Reducer` hold the battle state and the event reducer, branch by branch,
  with its two kinds of error. `ReducerInvariants` proves what every accepted event sequence keeps; `RosterKeys` what
  events leave alone and when switch keys stay different; `ReducerMeaning` what the small loops compute.
  `EventMeanings` says for every event which fields it leaves how, which stay, and when and how it is refused, and
  `EventReadback` proves that the reducer does that.
- **Requests.** `Submissions`, `Reconciler` and `DecisionRecords` hold the safe sets, the heuristic policy, the gate,
  the command encoder, the reconciler and the record matrix.
- **Session.** `SessionModel` is the session as step functions, with the policy, the encoder, the connection, the sink's
  delegate and the canonicalizer as parameters that may answer anything, call by call. `SessionInvariants` proves an
  invariant over every line and every failure, `SessionEffects` what one line may add to the logs and why, and
  `SessionTheorems` the results about whole runs. `SessionFreshness` says which requests are new,
  `SessionWaits` what a running session still waits for,
  `SessionDispositions` how an open request ends, `SessionLaw` exactly when every fresh request gets its record, and
  `SessionFates` composes them: the whole ledger of a run, entry by entry. A fate is only a record's status and code: it
  leaves out the traces, the calls made, the logs, the counters and the first error of the steps it is computed beside.
  `BattleSessions` is the session as an object whose methods update its fields, each proved equal to its step function.
- **Runner.** `MeasurementResults` and `MeasurementRunners` hold the result, its constructor, its validator and the
  runner; the end-to-end theorem says that the validator never rejects what a real session produced. `RunOutcomes` reads a
  published result back to the stream.
- **Coordinator.** `Discovery` is discovery as a fold over the wire, `ChallengeSearches` and `Coordinators` the objects
  the source updates, and `DiscoveryTheorems` proves what is handed to the session and composes with its theorems.
  `DiscoveryMeanings` tells by the wire alone which room is found and for what cause a setup ends without one.
- **Algorithms.** `Supersession` finds the cycles of the supersession graph, `Schedules` builds and checks schedules,
  `OracleBarrier` and `OracleShutdown` are the oracle's response barrier under every interleaving and its shutdown.

## Readings

- Digests are kept as the value they are computed from, so equal digests mean equal contents; for the public state this
  is only used as "equal states have equal digests", because its projection drops nicknames and user names.
- A session's `notes` are an observer's log of why requests were not answered and of defensive branches, and the call
  number of a `Dispatch` and the call numbers in `emits`, of the records handed to the sink, are an observer's too;
  nothing reads them.
- An exception is its class name and its optional `code`. A collaborator's outcomes are functions of the number of
  calls made so far, so every pattern of failures is covered.
- `Coherent` says that the request reader gives a request and its safe set one identity; `PrefixConsistent` says that
  the parser yields a player, game-type, generation or tier declaration only for a line with that prefix; timer lines
  never yield a retry event (`TimerBody`).
- `MeasurementRunners.BuiltResultIsValid` bounds the number of stream items by the largest canonical integer, so that
  no counter leaves the range the result constructor accepts. The record ledger needs no such bound.

## Where documentation and code disagree

- `docs/contracts/decision-records.md:112` promises that every fresh request opens exactly one record and gets exactly one
  disposition. `SessionLaw.DispositionLaw` states exactly when a run with a record context keeps that promise: if and only
  if the sink accepted every record the run handed to it, every fresh request found a state and an rqid that can be
  digested, no fault without an abort or freshness code ended the run while a request was open, and the stream did not end
  before the session with its last fresh request lacking a public fact. Each of the four is needed:
  `SessionLaw.RefusedRecordIsLost`, `SessionLaw.UndigestedRequestIsUnrecorded`,
  `SessionLaw.FreshRequestWithoutDisposition` and `SessionLaw.WaitingRequestIsUnrecorded` give a run for each. In every
  case the records are those of the first fresh requests, and at most the last is missing, or the last two if the sink
  failed. `SessionDispositions.AbortDisposesIffCoded` is the condition for a single abort.
- Switch keys are not always distinct: `RosterKeys.RenamingCanAlias` gives a run. Both events that rewrite a key can do it,
  an identity change and a persistent form change; `RosterKeys.EventKeepsKeysIff` gives the exact condition for every
  event and `RosterKeys.KeysDifferIffRenamesAreFree` the one for whole runs.

## Model

| member | source | states |
|---|---|---|
| SessionTheorems.ExactlyOnceDispatch | packages/battlebelief-runtime/src/battlebelief_runtime/composition/battle_session.py:323-416 | over any run each sent command answers a request that was accepted in the state it was sent in, under the request's own rqid, with a choice out of its safe set that the policy gave in the very call the session made just before that send; the rqids strictly increase and each command is a different call of the run |
| SessionTheorems.CommandAnswersLatest | packages/battlebelief-runtime/src/battlebelief_runtime/composition/battle_session.py:245-300 | one more line makes a session send at most one command, for its latest request and in its current state; a session that is done changes no more |
| SessionTheorems.NoMissedWakeUp | packages/battlebelief-runtime/src/battlebelief_runtime/composition/battle_session.py:276-300 | a running session with a pending request lacks a public fact the request needs, so reconciling it now, against any earlier rqid, would not accept it |
| SessionTheorems.ProgressClearsPending | packages/battlebelief-runtime/src/battlebelief_runtime/composition/battle_session.py:205-228 | after a battle start or a turn start that does not abort, no request is pending |
| SessionFreshness.RequestIsJudged | packages/battlebelief-runtime/src/battlebelief_runtime/composition/battle_session.py:245-274 | told by the latest request's rqid and digest: a newer rqid becomes the latest; the same rqid and digest is ignored; the same rqid with another digest raises a mismatch and an older rqid raises staleness, each leaving the session as it was |
| SessionFreshness.RepeatedRequestIsIgnored | packages/battlebelief-runtime/src/battlebelief_runtime/composition/battle_session.py:260-274 | a request line repeated right after itself changes nothing of any run |
| SessionFreshness.FreshAreTheHighs | packages/battlebelief-runtime/src/battlebelief_runtime/composition/battle_session.py:260-274 | the requests a run takes as new are those whose rqid exceeds every rqid the room's stream brought before, up to where the session stopped reading |
| SessionFreshness.ArrivalIsTraced | packages/battlebelief-runtime/src/battlebelief_runtime/composition/battle_session.py:438-447 | a newer request left open is traced with its content, its choices and the state it arrived in |
| SessionWaits.EventsThatReconsider | packages/battlebelief-runtime/src/battlebelief_runtime/composition/battle_session.py:214-228 | a held-back request is reconsidered on a battle or turn start, strictly, and on a player, game-type, generation or tier declaration and an entry; any other event but the end of the battle leaves the session as it is |
| SessionTheorems.ErrorLinesAreReported | packages/battlebelief-runtime/src/battlebelief_runtime/composition/battle_session.py:238-243 | an error line ends a running session, which reports the code of an invalid choice, an unavailable choice or a malformed message |
| SessionTheorems.RefusedEventsAreReported | packages/battlebelief-runtime/src/battlebelief_runtime/composition/battle_session.py:205-212 | an event the reducer refuses ends a running session, which reports the reducer's code, or no code if a value was malformed |
| SessionWaits.WaitsIffFactMissing | packages/battlebelief-runtime/src/battlebelief_runtime/composition/battle_session.py:205-300 | a session that outlasts its stream still waits if and only if the last fresh request lacks a public fact in the state after all the room's events; it waits for that request alone, and otherwise has answered it |
| SessionWaits.FactsAreNeverLost | packages/battlebelief-core/src/battlebelief_core/application/observation/reducer.py:297-696 | no accepted event takes back our side, the generation, the game type, the tier or a side's having an active member |
| SessionTheorems.GapFreeLedger | packages/battlebelief-runtime/src/battlebelief_runtime/composition/battle_session.py:438-507 | record i has decision index i and a newer request than the one before; the next free index is the record count, plus one exactly while a trace is open or after a failed sink |
| SessionTheorems.RecordsAlwaysConstruct | packages/battlebelief-runtime/src/battlebelief_runtime/composition/battle_session.py:456-499 | every record the session builds is of its run, battle and arm, passes the record constructor and fits its matrix row, without any bound on the run, so a record-construction failure is unreachable |
| SessionTheorems.SubmittedRecordsAreDeliveries | packages/battlebelief-runtime/src/battlebelief_runtime/composition/battle_session.py:364-416 | SUBMITTED records equal the delivered commands in order, each bound to the digests of the request, of the state its command was sent in and of its safe set; only the last delivery may lack one, and then the sink failed on it |
| SessionTheorems.GuardsNeverFire | packages/battlebelief-runtime/src/battlebelief_runtime/composition/battle_session.py:323-326 | the already-submitted branch, the gate's identity check and the reconciler's stale-rqid rejection are unreachable in every run |
| SessionTheorems.HeuristicRuns | packages/battlebelief-core/src/battlebelief_core/application/decision/heuristic_policy.py:31-37 | with the heuristic policy no record is policy- or gate-rejected and each command carries the first submission of least priority; with the standard encoder none fails to encode |
| SessionDispositions.AbortDisposesIffCoded | packages/battlebelief-runtime/src/battlebelief_runtime/composition/battle_session.py:418-454 | with a working sink an abort writes the open request's terminal record if and only if the fault carries an abort or freshness code: invalidated for a freshness code, aborted with the code for an abort code |
| SessionDispositions.NewerRequestSupersedes | packages/battlebelief-runtime/src/battlebelief_runtime/composition/battle_session.py:245-258 | a newer request records the open one as superseded, whatever becomes of the newer one |
| SessionDispositions.StaleRequestInvalidates | packages/battlebelief-runtime/src/battlebelief_runtime/composition/battle_session.py:260-274 | a request that is not newer ends the session and records the open one as invalidated, unless it has the latest rqid and digest, and then it changes nothing |
| SessionDispositions.BattleEndDiscards | packages/battlebelief-runtime/src/battlebelief_runtime/composition/battle_session.py:214-221 | the end of the battle records the open request as discarded and ends the session |
| SessionDispositions.RefusedRequest | packages/battlebelief-runtime/src/battlebelief_runtime/composition/battle_session.py:281-310 | a rejected request, or one still waiting when it must not, is recorded as a reconciliation mismatch; one that may wait changes nothing |
| SessionDispositions.AnsweredRequest | packages/battlebelief-runtime/src/battlebelief_runtime/composition/battle_session.py:323-416 | answering an accepted request records exactly the status and code that the policy, gate, encoder and connection call for |
| SessionLaw.DispositionLaw | docs/contracts/decision-records.md:112-117 | the records of a run are its fresh requests, each once and in order, if and only if the sink accepted every record the run handed to it, no fresh request met a state or rqid that cannot be digested, no uncoded fault ended the run with a request open, and the stream did not end before the session with its last fresh request lacking a public fact; otherwise they are all but the last, or all but two after a refusal by the sink |
| SessionLaw.SinkIsBlamed | packages/battlebelief-runtime/src/battlebelief_runtime/composition/battle_session.py:489-507 | each record was handed to the sink in a call of its own and accepted there; a trace error is reported exactly if the sink refused one more record, which was then the last |
| SessionFates.LedgerIsFates | packages/battlebelief-runtime/src/battlebelief_runtime/composition/battle_session.py:158-507 | with a working sink the ledger of every run is, entry by entry, the request (rqid, content and offered choices), status and error code of what happened to each fresh request; nothing else is recorded |
| SessionFates.OpenRequestFate | packages/battlebelief-runtime/src/battlebelief_runtime/composition/battle_session.py:186-321 | what any item does to the open request: superseded, invalidated, discarded, rejected, answered with the status the collaborators call for, aborted with its code, or left open |
| SessionFates.ArrivalFated | packages/battlebelief-runtime/src/battlebelief_runtime/composition/battle_session.py:245-300 | what becomes at once of a fresh request that opened its trace |
| SessionFates.RetryFated | packages/battlebelief-runtime/src/battlebelief_runtime/composition/battle_session.py:276-321 | what reconsidering an open request ends in, the abort that a raised exception causes included |
| SessionLaw.FreshRequestWithoutDisposition | docs/contracts/decision-records.md:112-117 | a fault without a record code while a request is open: a waiting request followed by an invalid-choice error ends the session with an empty ledger |
| SessionLaw.WaitingRequestIsUnrecorded | docs/contracts/decision-records.md:112-117 | the stream ends while the request lacks a public fact: no record |
| SessionLaw.UndigestedRequestIsUnrecorded | packages/battlebelief-runtime/src/battlebelief_runtime/composition/battle_session.py:438-447 | a request that arrives in a state without canonical form ends the session without ever opening a trace |
| SessionLaw.RefusedRecordIsLost | packages/battlebelief-runtime/src/battlebelief_runtime/composition/battle_session.py:456-507 | a record the sink refuses when the run hands it over is lost |
| SessionTheorems.RunsCompose | packages/battlebelief-runtime/src/battlebelief_runtime/composition/battle_session.py:158-171 | a run continues the run over any prefix of its stream, and a session that is done ignores the rest |
| SessionTheorems.LogsOnlyGrow | packages/battlebelief-runtime/src/battlebelief_runtime/composition/battle_session.py:158-171 | no command, record, note or observed evidence is ever taken back; every new note says what the reconciler, policy or encoder did with the very request it names, and every new record that blames one of them or the connection has its cause in the run's own logs, for the same rqid and selection |
| SessionTheorems.AllExplained | packages/battlebelief-runtime/src/battlebelief_runtime/composition/battle_session.py:303-416 | over a whole run, from its first line on: a submitted or send-failed record has the send of that choice for that rqid with that outcome, a rejected one the note of the refusal of that very request |
| SessionTheorems.StateIsWatched | packages/battlebelief-runtime/src/battlebelief_runtime/composition/battle_session.py:158-236 | a session consumes a prefix of its stream and shows exactly the reducer's state after the room events of that prefix, each at the next index, and its count of control lines |
| SessionTheorems.SessionKeepsEvidence | packages/battlebelief-runtime/src/battlebelief_runtime/composition/battle_session.py:205-236 | the state a session shows is reducer-reachable: it results from a list of events, numbered without a gap, that the reducer all accepted; so it is well formed and never misses evidence seen before |
| SessionInvariants.FinalizeKeeps | packages/battlebelief-runtime/src/battlebelief_runtime/composition/battle_session.py:456-507 | finalizing keeps the ledger sound in all its outcomes and appends at most the open trace's record |
| SessionInvariants.AttemptIsValid | packages/battlebelief-core/src/battlebelief_core/domain/records/decision_record.py:512-594 | a record with a matrix-conforming status is never refused: its index is at most its rqid, which is canonical |
| SessionInvariants.RetryKeeps | packages/battlebelief-runtime/src/battlebelief_runtime/composition/battle_session.py:276-321 | reconsidering a pending request keeps the session invariant in every outcome, and a strict retry that returns leaves nothing pending |
| SessionInvariants.RequestKeeps | packages/battlebelief-runtime/src/battlebelief_runtime/composition/battle_session.py:245-274 | a request, fresh or not, keeps the session invariant |
| SessionInvariants.EventKeeps | packages/battlebelief-runtime/src/battlebelief_runtime/composition/battle_session.py:205-228 | a battle event keeps the session invariant, including that a held-back request still waits for a missing fact |
| SessionInvariants.AbortKeeps | packages/battlebelief-runtime/src/battlebelief_runtime/composition/battle_session.py:418-454 | an abort keeps the session invariant and ends the session |
| SessionInvariants.RunKeeps | packages/battlebelief-runtime/src/battlebelief_runtime/composition/battle_session.py:158-171 | the invariant holds after every run, whatever arrives and whichever collaborator call fails |
| SessionEffects.StepEffects | packages/battlebelief-runtime/src/battlebelief_runtime/composition/battle_session.py:158-203 | one item advances the state by exactly its own event at the next index, sends at most one command, for the latest request and by calls made in this pass, and notes at most one reason, about the latest request in the current state, which the reconciler, policy or encoder really gave |
| BattleSessions.BattleSession.RunAll | packages/battlebelief-runtime/src/battlebelief_runtime/composition/battle_session.py:118-203 | the session object, run over a stream, ends in the state and result of the step functions |
| BattleSessions.BattleSession.HandleLine | packages/battlebelief-runtime/src/battlebelief_runtime/composition/battle_session.py:186-203 | processing a line on the object is the step function on its fields and its collaborators' logs |
| BattleSessions.BattleSession.RetryPending | packages/battlebelief-runtime/src/battlebelief_runtime/composition/battle_session.py:276-300 | retrying on the object equals the step function |
| BattleSessions.BattleSession.SubmitRequest | packages/battlebelief-runtime/src/battlebelief_runtime/composition/battle_session.py:323-416 | submitting on the object equals the step function |
| BattleSessions.BattleSession.FinalizePending | packages/battlebelief-runtime/src/battlebelief_runtime/composition/battle_session.py:456-507 | finalizing on the object equals the step function |
| BattleSessions.RecordingTraceSink.Emit | packages/battlebelief-runtime/src/battlebelief_runtime/testing/recording_trace_sink.py:28-30 | the ledger gains a record exactly when the delegate accepted it |
| ReducerInvariants.ReachableStates | packages/battlebelief-core/src/battlebelief_core/application/observation/reducer.py:297-696 | every accepted event sequence keeps: dated, ordered, disjoint evidence intervals of which only the last may be open; one active member at most, a set slot exactly if there is one, a clean bench; seven boosts in -6..6; sorted volatiles and side conditions with layers within their caps; fainted means zero HP; and nothing observed is lost |
| ReducerInvariants.ReduceKeeps | packages/battlebelief-core/src/battlebelief_core/application/observation/reducer.py:297-696 | one accepted event advances the index, keeps the state well formed and only adds to what was observed; what it writes is EventReadback.ReduceMeansTheEvent |
| EventReadback.ReduceMeansTheEvent | packages/battlebelief-core/src/battlebelief_core/application/observation/reducer.py:297-696 | for every event and well-formed state: an old index, an unknown side, a member that is not there, an unknown stat or scope, or a token without health is refused, with its kind of error; and otherwise the fields the event names are as it gives them (health from the token, boosts, intervals, volatiles, layers, evidence and all others) and everything else is as it was |
| ReducerInvariants.OpenIntervalKeeps | packages/battlebelief-core/src/battlebelief_core/application/observation/reducer.py:211-226 | opening or closing an interval at a later index keeps the list ordered and disjoint and changes no closed interval |
| ReducerInvariants.EditKeeps | packages/battlebelief-core/src/battlebelief_core/application/observation/reducer.py:378-655 | an edit of an active member keeps it well formed and active |
| ReducerMeaning.SwitchInMeaning | packages/battlebelief-core/src/battlebelief_core/application/observation/reducer.py:241-289 | a switch-in activates exactly one member, the first with its key or a new one at the end; the others keep their place and health and leave the field clean |
| ReducerMeaning.SwapExchangesOddStats | packages/battlebelief-core/src/battlebelief_core/application/observation/reducer.py:464-484 | a boost swap is refused exactly for an unknown stat and exchanges exactly the stats listed an odd number of times |
| ReducerMeaning.CopyTakesListedStats | packages/battlebelief-core/src/battlebelief_core/application/observation/reducer.py:486-496 | a boost copy takes the source's value at the listed stats and keeps the receiver's elsewhere |
| ReducerMeaning.SwapLoop | packages/battlebelief-core/src/battlebelief_core/application/observation/reducer.py:471-473 | the exchange loop computes the swap |
| ReducerMeaning.CopyLoop | packages/battlebelief-core/src/battlebelief_core/application/observation/reducer.py:492-494 | the copy loop computes the copy |
| ReducerMeaning.SideConditionMeaning | packages/battlebelief-core/src/battlebelief_core/application/observation/reducer.py:199-208 | a start or upkeep adds one layer up to the cap, an end removes the condition, and no other condition moves |
| RosterKeys.FactsAppearOnRetryEvents | packages/battlebelief-core/src/battlebelief_core/application/observation/reducer.py:297-696 | only the session's retry events can change our side, generation, game type, tier or whether a side has an active member |
| RosterKeys.KeysStayDistinct | packages/battlebelief-core/src/battlebelief_core/application/observation/reducer.py:140-156 | without an identity change or a persistent form change, teammates' switch keys stay pairwise different over every run |
| RosterKeys.RenameKeepsKeysIffFree | packages/battlebelief-core/src/battlebelief_core/application/observation/reducer.py:551-569 | an accepted identity change keeps the keys different if and only if no other teammate has the new key |
| RosterKeys.FormKeepsKeysIffFree | packages/battlebelief-core/src/battlebelief_core/application/observation/reducer.py:571-602 | an accepted persistent form change keeps the keys different if and only if no other teammate has the new key |
| RosterKeys.EventKeepsKeysIff | packages/battlebelief-core/src/battlebelief_core/application/observation/reducer.py:551-602 | any accepted event keeps the keys of both rosters different if and only if it rewrites no key or rewrites one to a key no other teammate has |
| RosterKeys.KeysDifferIffRenamesAreFree | packages/battlebelief-core/src/battlebelief_core/application/observation/reducer.py:551-602 | over any run the keys differ in every state if and only if every accepted rename was to a free key |
| RosterKeys.RenamingCanAlias | packages/battlebelief-core/src/battlebelief_core/application/observation/reducer.py:551-569 | a concrete accepted run in which an identity change leaves two equal keys |
| IdentityKey.NormalizeIdempotent | packages/battlebelief-core/src/battlebelief_core/domain/state/pokemon_view.py:12-19 | normalizing a key twice is normalizing it once |
| IdentityKey.TeraSuffixIsInvisible | packages/battlebelief-core/src/battlebelief_core/domain/state/pokemon_view.py:12-19 | a tera suffix whose type holds no separator does not change the key |
| IdentityKey.NormalizeAppended | packages/battlebelief-core/src/battlebelief_core/domain/state/pokemon_view.py:12-19 | what appending a tera part does for every type text: only what follows a separator inside it survives |
| IdentityKey.SplitJoin | packages/battlebelief-core/src/battlebelief_core/domain/state/pokemon_view.py:17-19 | splitting undoes joining for separator-free parts |
| Reconciler.PendingMeansMissing | packages/battlebelief-core/src/battlebelief_core/application/safety/request_reconciler.py:77-141 | a request is told to wait only for a missing fact, and never accepted while one is missing |
| Reconciler.AcceptedRequest | packages/battlebelief-core/src/battlebelief_core/application/safety/request_reconciler.py:51-204 | a request is accepted if and only if it is addressed to this room and not old, no needed fact is missing, side, generation, game type and tier fit, its choices are of the kinds its request kind asks for with the default among them, team size and orders fit, and the first active member has its active identity |
| Reconciler.VerdictIsExact | packages/battlebelief-core/src/battlebelief_core/application/safety/request_reconciler.py:51-204 | a request waits for a fact if and only if that is the first thing missing, everything looked at before being right; and what a rejection says is so |
| Reconciler.PreviewOrdersArePermutations | packages/battlebelief-core/src/battlebelief_core/application/safety/request_reconciler.py:160-179 | every team order of an accepted preview is a permutation of 1..n |
| Reconciler.CommandIdentifiesChoice | packages/battlebelief-core/src/battlebelief_core/application/safety/request_reconciler.py:143-179 | within an accepted request a command determines the choice up to the unsent move name |
| Submissions.EncodingSeparatesChoices | packages/battlebelief-runtime/src/battlebelief_runtime/adapters/showdown_protocol/command_encoder.py:6-24 | two submissions share a command text if and only if the server treats them alike |
| Submissions.CommandsAreSpelled | packages/battlebelief-runtime/src/battlebelief_runtime/adapters/showdown_protocol/command_encoder.py:6-24 | the command text of each choice |
| Submissions.SlotsAreDigits | packages/battlebelief-runtime/src/battlebelief_runtime/adapters/showdown_protocol/command_encoder.py:6-24 | a team order is sent as the decimal digits of its slots in order |
| Submissions.FirstLeastIsFirst | packages/battlebelief-core/src/battlebelief_core/application/decision/heuristic_policy.py:16-37 | the policy's choice is the first submission of least priority |
| Submissions.ChoiceIsPreferred | packages/battlebelief-core/src/battlebelief_core/application/decision/heuristic_policy.py:16-37 | the choice is the first to which no other is preferred: a plain move before a revival, a switch, a team order, a terastallizing move and the default |
| Submissions.GateIsExact | packages/battlebelief-core/src/battlebelief_core/application/safety/action_gate.py:11-24 | the gate lets a choice pass if and only if it is offered to this very request, and tells which is not so, the identity first |
| DecisionRecords.ChecksAreTheMatrix | packages/battlebelief-core/src/battlebelief_core/domain/records/decision_record.py:512-594 | the constructor accepts a record if and only if it fits its status row of the documented matrix |
| DecisionRecords.ParseOfText | packages/battlebelief-core/src/battlebelief_core/domain/records/decision_record.py:50-67 | the public code texts are distinct, so each parses back to its code |
| DecisionRecords.AbortCodes | packages/battlebelief-runtime/src/battlebelief_runtime/composition/battle_session.py:108-115 | an abort records a fault's code if and only if it is one of the six abort codes or the two freshness codes |
| MeasurementRunners.BuiltResultIsValid | packages/battlebelief-lab/src/battlebelief_lab/evaluation/measurement_runner.py:384-478 | for every stream, every policy, encoder, send and sink behaviour and any flush or close failure, the built result passes its constructor and all checks of the validator |
| MeasurementRunners.CompletedRunsAreComplete | packages/battlebelief-lab/src/battlebelief_lab/evaluation/measurement_runner.py:408-459 | a result is published as completed exactly without error, lifecycle failure or empty ledger, and then accounts for every delivered command in order |
| MeasurementRunners.MeasurementRunner.Run | packages/battlebelief-lab/src/battlebelief_lab/evaluation/measurement_runner.py:384-478 | the runner publishes the built result for every fresh session, unless the final state cannot be canonicalized; and every field of it reports the session: who won, the statuses, the error, the counts and the digests |
| MeasurementRunners.BuiltReports | packages/battlebelief-lab/src/battlebelief_lab/evaluation/measurement_runner.py:408-469 | the exact condition of each run status, trace status, outcome and error class, and the source of each count and digest |
| RunOutcomes.WonRunsPublishTheWinner | packages/battlebelief-core/src/battlebelief_core/domain/records/public_projection.py:198-208 | a run whose battle ends with a winner publishes our win if the name has our user's id, the opponent's if it is the other declared player's, and neither if it is nobody's |
| RunOutcomes.ResultsTellTheStream | packages/battlebelief-lab/src/battlebelief_lab/evaluation/measurement_runner.py:408-469 | a published result counts the control lines read and the commands delivered, and its state is the reducer's after the room's events up to where the session stopped |
| Basics.IdIsSpelled | packages/battlebelief-core/src/battlebelief_core/domain/records/public_projection.py:214-219 | an id keeps the letters, in lower case, and digits of a text |
| MeasurementResults.ValidateMeasurementRunResult | packages/battlebelief-lab/src/battlebelief_lab/evaluation/measurement_runner.py:169-286 | the error list is empty if and only if records, matrix and session agree with the result and its outcome is our win, the opponent's or a tie exactly when the final state shows that |
| MeasurementResults.ValidateStatusMatrix | packages/battlebelief-lab/src/battlebelief_lab/evaluation/measurement_runner.py:289-324 | the matrix errors are absent if and only if the status combination is admissible |
| MeasurementResults.ValidateRecords | packages/battlebelief-lab/src/battlebelief_lab/evaluation/measurement_runner.py:182-243 | record errors are absent if and only if digests, order, context and counters agree |
| MeasurementResults.StableCodesAreAllowed | packages/battlebelief-lab/src/battlebelief_lab/evaluation/measurement_runner.py:481-490 | whatever exception ends a run, its published code is an allowed one |
| MeasurementResults.ErrorsPublishTheirCode | packages/battlebelief-lab/src/battlebelief_lab/evaluation/measurement_runner.py:481-490 | an error publishes its own code if that is public, else its snake-cased class name if that is, else that it was a runtime error |
| MeasurementResults.ClassNamesAreSnaked | packages/battlebelief-lab/src/battlebelief_lab/evaluation/measurement_runner.py:487-489 | a class name made of capitalized words is published as the words with underscores between them |
| MeasurementRunners.TallyIsCount | packages/battlebelief-lab/src/battlebelief_lab/evaluation/measurement_runner.py:191-219 | the validator's tally of SUBMITTED records is the session's count of recorded deliveries |
| MeasurementRunners.RunCounts | packages/battlebelief-runtime/src/battlebelief_runtime/composition/battle_session.py:158-171 | each counter grows by at most one per item |
| DiscoveryTheorems.SessionGetsItsRoom | packages/battlebelief-runtime/src/battlebelief_runtime/composition/battle_coordinator.py:233-305 | the session receives exactly its room's part of the whole wire in order, none of it older than the bootstrap barrier and the server never having listed the room up to there, up to the wire's end or fault or the room's first conflicting line |
| DiscoveryMeanings.DiscoveryDecides | packages/battlebelief-runtime/src/battlebelief_runtime/composition/battle_coordinator.py:233-320 | told by the wire alone: the room found is one that neither spoke before the barrier nor was listed up to it, and whose lines orderly show both players, singles, generation 9 and the tier; a wire that falls silent missed no such room; any other end of the setup has its cause in the item it ended on; and no item the setup went past had to end it |
| DiscoveryMeanings.MatchIffShown | packages/battlebelief-runtime/src/battlebelief_runtime/composition/battle_coordinator.py:369-463 | a candidate matches if and only if its metadata came after the initialization without contradiction and shows the challenged battle |
| DiscoveryTheorems.HandOffFollowsRoom | packages/battlebelief-runtime/src/battlebelief_runtime/composition/battle_coordinator.py:117-123 | the connection yields the buffered lines and then the room's part of the source until the first refused line |
| DiscoveryTheorems.CoordinatedRunsNeverMismatch | packages/battlebelief-runtime/src/battlebelief_runtime/composition/battle_coordinator.py:369-463 | a coordinated session is only shown generation 9, singles and [Gen 9] OU, so its reconciler never rejects for generation, game type or tier |
| DiscoveryTheorems.MatchIsStable | packages/battlebelief-runtime/src/battlebelief_runtime/composition/battle_coordinator.py:433-463 | a matching candidate stays matching, with the same players, over every line it accepts |
| DiscoveryTheorems.ReplayAgrees | packages/battlebelief-runtime/src/battlebelief_runtime/composition/battle_coordinator.py:369-431 | a candidate without a metadata error agrees with every declaration among its lines |
| DiscoveryTheorems.ChallengeIsSentOnce | packages/battlebelief-runtime/src/battlebelief_runtime/composition/battle_coordinator.py:248-290 | until the barrier only the user-details query is sent; team and challenge are sent once, in order, after it, and before any room is found; a setup that ends with an error has sent the query alone or, after the barrier, the team and at most one challenge |
| Coordinators.BattleCoordinator.Discover | packages/battlebelief-runtime/src/battlebelief_runtime/composition/battle_coordinator.py:233-320 | the discovery loop over mutable candidates computes the fold over the wire, whose outcome is DiscoveryMeanings.DiscoveryDecides |
| Coordinators.SessionConnection.Lines | packages/battlebelief-runtime/src/battlebelief_runtime/composition/battle_coordinator.py:96-132 | the hand-off generator yields the specified stream |
| Coordinators.BattleCoordinator.Run | packages/battlebelief-runtime/src/battlebelief_runtime/composition/battle_coordinator.py:184-231 | a coordinated run returns the session's result, as a disconnect if the battle did not end and nothing else failed; a failed close is raised only over an error-free end; a failed setup is reported with its error |
| ChallengeSearches.ChallengeSearch.TakeRoomLine | packages/battlebelief-runtime/src/battlebelief_runtime/composition/battle_coordinator.py:291-305 | a room line updates at most one candidate, as the fold does |
| ChallengeSearches.RoomCandidate.AddLine | packages/battlebelief-runtime/src/battlebelief_runtime/composition/battle_coordinator.py:433-448 | adding a line to the candidate object is receiving it |
| Supersession.FindCycles | packages/battlebelief-lab/src/battlebelief_lab/registration_validation.py:2067-2083 | each reported artifact lies on its own cycle, every cycle is reported, none if the graph is acyclic, and the sources walked from are pairwise different and all of them |
| Supersession.CycleLeadsBack | packages/battlebelief-lab/src/battlebelief_lab/registration_validation.py:2067-2083 | in a functional graph whatever a cycle leads to leads back to it |
| Schedules.BuildSchedule | packages/battlebelief-lab/src/battlebelief_lab/evaluation/schedule.py:140-190 | the nested loops build the sorted matchups' rows, or report the first input error, each under its exact condition; the constructor's refusal is unreachable |
| Schedules.BuiltSchedulePasses | packages/battlebelief-lab/src/battlebelief_lab/evaluation/schedule.py:74-104 | the built rows pass every schedule check and number distinct matchups times repetitions |
| Schedules.RowsAreLaidOut | packages/battlebelief-lab/src/battlebelief_lab/evaluation/schedule.py:152-186 | where each repetition of each matchup stands, with its block, its seeds and the side that the registration's bit and the repetition give it |
| Schedules.OrderAndDuplicatesDoNotMatter | packages/battlebelief-lab/src/battlebelief_lab/evaluation/schedule.py:140-163 | the schedule depends only on the set of matchups |
| Schedules.ExactBalance | packages/battlebelief-lab/src/battlebelief_lab/evaluation/schedule.py:152-166 | with exact balance every matchup is played equally often from both sides |
| Schedules.CheckSchedule | packages/battlebelief-lab/src/battlebelief_lab/evaluation/schedule.py:74-104 | the constructor's checks accept exactly non-empty, canonical, unique, contiguous, balanced rows whose digest is theirs |
| OracleBarrier.NoLostWakeUp | packages/battlebelief-lab/src/battlebelief_lab/oracle/showdown/process.py:973-1027 | under every interleaving a waiter asleep on a clear flag has an unmet barrier, no side error, no failed drain, open stdout and no failed exit |
| OracleBarrier.NextTurnReports | packages/battlebelief-lab/src/battlebelief_lab/oracle/showdown/process.py:973-1027 | the waiter's next turn ends the wait if and only if there is something to report |
| OracleBarrier.OutcomesAreJustified | packages/battlebelief-lab/src/battlebelief_lab/oracle/showdown/process.py:973-1051 | every outcome of the wait has its cause in the shared state |
| OracleBarrier.TurnConcludes | packages/battlebelief-lab/src/battlebelief_lab/oracle/showdown/process.py:973-1051 | how a turn of the waiter ends, check by check: a failed drain, the barrier met (every requested side updated, and the end if awaited), a side error, the child's exit, the end of output, or sleep on a cleared flag |
| OracleBarrier.OutputArrives | packages/battlebelief-lab/src/battlebelief_lab/oracle/showdown/process.py:1053-1086 | a chunk of output adds its bytes and, within the limits and if decoded, its messages; a failing drain stops with its reason; each wakes the waiter |
| OracleBarrier.ErrorOutputArrives | packages/battlebelief-lab/src/battlebelief_lab/oracle/showdown/process.py:1088-1102 | a chunk of the error stream adds its bytes and wakes the waiter only by ending the drain |
| OracleBarrier.TasksEndOnce | packages/battlebelief-lab/src/battlebelief_lab/oracle/showdown/process.py:985-1102 | a task that ends says how, wakes the waiter and touches nothing else, and only once |
| OracleBarrier.DrainState.WaitTurn | packages/battlebelief-lab/src/battlebelief_lab/oracle/showdown/process.py:985-1024 | one turn of the waiter on the shared object; repeating the checks after clearing the flag finds nothing |
| OracleBarrier.DrainState.TakeStdout | packages/battlebelief-lab/src/battlebelief_lab/oracle/showdown/process.py:1053-1086 | one chunk on the shared object, limits and failures included |
| OracleBarrier.DrainState.TakeStderr | packages/battlebelief-lab/src/battlebelief_lab/oracle/showdown/process.py:1088-1102 | one chunk of stderr on the shared object, its limit included |
| OracleShutdown.ProcessRunner.ShutDown | packages/battlebelief-lab/src/battlebelief_lab/oracle/showdown/process.py:1104-1147 | the ladder asks the child, the terminator, the orphan verifier and the job exactly what their earlier answers call for and reports what they answered; its verdict is the one these answers call for: it returns only if the child was seen to exit, the last orphan check was clean and the job closed, and its flag is false exactly if nothing was terminated; it ends unexpectedly only where the exit watcher raised or stdin could not be closed |
| OracleShutdown.ProcessRunner.FinishOrphanCheck | packages/battlebelief-lab/src/battlebelief_lab/oracle/showdown/process.py:1167-1204 | orphan check, containment and job closing extend the answers by those the world gives, up to the end of the ladder, with the verdict they call for |
| OracleShutdown.AnswersDetermineTheLog | packages/battlebelief-lab/src/battlebelief_lab/oracle/showdown/process.py:1104-1204 | the world's answers allow only one sequence of shutdown steps |
| OracleShutdown.Rungs | packages/battlebelief-lab/src/battlebelief_lab/oracle/showdown/process.py:1104-1204 | when each rung is climbed: what must have been asked and answered right before a termination, a kill, an orphan check and the closing of the job |
| OracleShutdown.ProcessRunner.FinishRun | packages/battlebelief-lab/src/battlebelief_lab/oracle/showdown/process.py:801-908 | a run whose shutdown is the ladder's succeeds only if no step of it failed, the child was seen to exit, nothing was orphaned, and a non-zero exit code was forced; a failed step is reported as a shutdown failure |
| OracleShutdown.ConcludeRun | packages/battlebelief-lab/src/battlebelief_lab/oracle/showdown/process.py:801-908 | a run succeeds exactly under a clean shutdown, interaction and drain, and a non-zero exit code is returned only with forced shutdown; and each failure class has its condition: a failed shutdown, a network marker, a failed drain, an orphan, an exit that explains senseless output, or the exit itself |

## Left out

- The line parser, payload classifier, frame decoder, request reader, challenge reader and oracle message decoder: they
  appear as the value or error they give for a line.
- Canonicalization and hashing: a predicate says whether a state can be canonicalized, and digests are preimages.
- A measurement context without a resolved binding: the context's own constructor refuses it, so records are always
  attempted when a context is present.
- `BaseException`, task cancellation and the `failure_result` path of the runner, which a session that catches its own
  exceptions does not reach.
- Popup texts, JSON shapes and the command-line safety checks of the coordinator's constructor: a global line carries
  whether the setup reader refuses it.
- Wall-clock time: each timeout is one of the possible answers. A setup timeout that fires while the team or the challenge
  is being sent is not told apart from a failed send.
- The laziness of the hand-off generator: the stream is given as a whole, and a session that is done ignores its rest.
- Lower-casing outside ASCII, in identifiers, tier names and exception class names.
- The pattern check on error codes and digest texts of results: every allowed code fits the pattern, and digests are
  typed.
- The side identifier stored inside a side view: a side is told by its position, and members are told by theirs.
- Building the supersession map and the other artifact checks of the registration validator; only the walk is modelled.
- The launch phase of the oracle run, its byte-level redaction and the Windows job calls: an interaction is its failure
  or its absence.
