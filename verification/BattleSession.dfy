/** The battle session as the object it is: fields updated line by line, proved equal to the step functions. */
module BattleSessions {
  import opened Basics
  import opened ObservedStates
  import opened Reducer
  import opened RosterKeys
  import opened Submissions
  import opened Reconciler
  import opened DecisionRecords
  import opened SessionModel

  /** The policy, the connection and the sink's delegate; they answer by `team`, counted call by call. */
  class Surroundings {
    const team: Collaborators
    var calls: nat
    var sent: seq<Dispatch>

    constructor (team: Collaborators)
      ensures this.team == team && calls == 0 && sent == []
    {
      this.team := team;
      calls, sent := 0, [];
    }

    method Select(request: DecisionRequest) returns (outcome: PolicyOutcome)
      modifies `calls
      ensures calls == old(calls) + 1 && outcome == team.policy(old(calls), request)
    {
      outcome := team.policy(calls, request);
      calls := calls + 1;
    }

    method SendRoom(request: DecisionRequest, choice: BattleSubmission, state: ObservedState, command: Command)
      returns (outcome: SendOutcome)
      modifies this
      ensures calls == old(calls) + 1 && outcome == team.send(old(calls))
      ensures sent == old(sent) + [Dispatch(request, choice, state, command, outcome.Delivered?, old(calls))]
    {
      outcome := team.send(calls);
      sent := sent + [Dispatch(request, choice, state, command, outcome.Delivered?, calls)];
      calls := calls + 1;
    }

    method DelegateEmit() returns (accepted: bool)
      modifies `calls
      ensures calls == old(calls) + 1 && accepted == team.emit(old(calls))
    {
      accepted := team.emit(calls);
      calls := calls + 1;
    }
  }

  /** The ledger of the records its delegate accepted. */
  class RecordingTraceSink {
    const world: Surroundings
    var records: seq<DecisionRecord>
    ghost var emits: seq<nat>

    constructor (world: Surroundings)
      ensures this.world == world && records == [] && emits == []
    {
      this.world := world;
      records, emits := [], [];
    }

    method Emit(record: DecisionRecord) returns (accepted: bool)
      modifies this, world`calls
      ensures accepted == world.team.emit(old(world.calls)) && world.calls == old(world.calls) + 1
      ensures records == if accepted then old(records) + [record] else old(records)
      ensures emits == old(emits) + [old(world.calls)]
    {
      emits := emits + [world.calls];
      accepted := world.DelegateEmit();
      if accepted {
        records := records + [record];
      }
    }
  }

  datatype BattleSessionResult = BattleSessionResult(
    state: ObservedState,
    primaryError: Option<Fault>,
    traceError: bool,
    recordError: bool,
    roomControlOrChatCount: nat,
    explicitRequestSubmissions: nat,
    defaultSubmissions: nat)

  function Snapshot(s: Session): BattleSessionResult {
    BattleSessionResult(s.state, s.primary, s.traceError, s.recordError, s.controlCount, s.explicitCount,
                        s.defaultCount)
  }

  class BattleSession {
    const cfg: Config
    const world: Surroundings
    const traceSink: RecordingTraceSink
    var state: ObservedState
    var pendingRequest: Option<DecisionRequest>
    var latestRequest: Option<RequestIdentity>
    var submittedRequest: Option<RequestIdentity>
    var primaryError: Option<Fault>
    var traceError: bool
    var recordError: bool
    var done: bool
    var roomControlOrChatCount: nat
    var explicitRequestSubmissions: nat
    var defaultSubmissions: nat
    var pendingTrace: Option<PendingTrace>
    var nextDecisionIndex: nat
    var traceFailed: bool
    ghost var notes: seq<Note>

    ghost predicate Valid() {
      world.team == cfg.team && traceSink.world == world
    }

    /** The session, with the logs of its collaborators, as one value. */
    ghost function View(): Session
      reads this, world, traceSink
    {
      Session(state, pendingRequest, latestRequest, submittedRequest, primaryError, traceError, recordError, done,
              roomControlOrChatCount, explicitRequestSubmissions, defaultSubmissions, pendingTrace, nextDecisionIndex,
              traceFailed, world.sent, traceSink.records, traceSink.emits, notes, world.calls)
    }

    constructor (cfg: Config, world: Surroundings, traceSink: RecordingTraceSink, initial: ObservedState)
      requires world.team == cfg.team && traceSink.world == world
      ensures this.cfg == cfg && this.world == world && this.traceSink == traceSink && Valid()
      ensures View() == InitialSession(initial).(sent := world.sent, records := traceSink.records,
                                                 emits := traceSink.emits, calls := world.calls)
    {
      this.cfg, this.world, this.traceSink := cfg, world, traceSink;
      state := initial;
      pendingRequest, latestRequest, submittedRequest := None, None, None;
      primaryError, traceError, recordError, done := None, false, false, false;
      roomControlOrChatCount, explicitRequestSubmissions, defaultSubmissions := 0, 0, 0;
      pendingTrace, nextDecisionIndex, traceFailed := None, 0, false;
      notes := [];
    }

    method KeepFirstError(fault: Fault)
      modifies `primaryError
      ensures View() == FirstError(old(View()), fault)
    {
      if primaryError.None? {
        primaryError := Some(fault);
      }
    }

    method HandleRecordConstructionFailure()
      modifies this
      ensures View() == FirstError(old(View()).(traceFailed := true, recordError := true, done := true), RECORD_FAULT)
    {
      traceFailed := true;
      recordError := true;
      KeepFirstError(RECORD_FAULT);
      done := true;
    }

    method HandleTraceFailure()
      modifies this
      ensures View() == FirstError(old(View()).(traceFailed := true, traceError := true, done := true),
                                   TRACE_SINK_FAULT)
    {
      traceFailed := true;
      traceError := true;
      KeepFirstError(TRACE_SINK_FAULT);
      done := true;
    }

    /** Hand a record to the sink, unless its own checks refuse it. */
    method EmitRecord(record: DecisionRecord)
      requires Valid()
      modifies this, world`calls, traceSink
      ensures old(View()).pendingTrace.None? ==> View() == Concluded(cfg, old(View()), record)
    {
      hide RecordChecks;
      if !RecordChecks(record) {
        HandleRecordConstructionFailure();
        return;
      }
      var accepted := traceSink.Emit(record);
      if !accepted {
        HandleTraceFailure();
      }
    }

    method FinalizePending(status: RecordStatus, code: Option<ErrorCode>, selected: Option<BattleSubmission>)
      requires Valid()
      modifies this, world`calls, traceSink
      ensures View() == Finalize(cfg, old(View()), status, code, selected)
    {
      hide MakeRecord;
      if pendingTrace.None? {
        return;
      }
      var pending := pendingTrace.value;
      pendingTrace := None;
      if cfg.context.None? || traceFailed {
        return;
      }
      ConcludedForgetsTrace(cfg, old(View()), MakeRecord(cfg.context.value, pending, status, code, selected));
      hide Concluded;
      EmitRecord(MakeRecord(cfg.context.value, pending, status, code, selected));
    }

    /** Record a failure that ends the current decision: the first error and the terminal record. */
    method Fail(fault: Fault, status: RecordStatus, code: ErrorCode, selected: Option<BattleSubmission>)
      requires Valid()
      modifies this, world`calls, traceSink
      ensures View() == Finalize(cfg, FirstError(old(View()), fault), status, Some(code), selected)
    {
      hide Finalize;
      KeepFirstError(fault);
      FinalizePending(status, Some(code), selected);
    }

    method OpenPendingTrace(request: DecisionRequest) returns (raised: Option<Fault>)
      modifies this
      ensures Flow(View(), raised) == OpenTrace(cfg, old(View()), request)
    {
      if cfg.context.None? || traceFailed {
        return None;
      }
      if !cfg.team.canonical(state) {
        return Some(CANONICAL_FAULT);
      }
      if !SafeInteger(request.safe.identity.rqid) {
        return Some(VALUE_FAULT);
      }
      pendingTrace := Some(PendingTrace(request, StateDigest(state), SafeSetDigest(request.safe), nextDecisionIndex));
      nextDecisionIndex := nextDecisionIndex + 1;
      return None;
    }

    method RefreshPendingTraceState() returns (raised: Option<Fault>)
      modifies this
      ensures Flow(View(), raised) == RefreshTrace(cfg, old(View()))
    {
      if pendingTrace.None? {
        return None;
      }
      if !cfg.team.canonical(state) {
        return Some(CANONICAL_FAULT);
      }
      pendingTrace := Some(pendingTrace.value.(stateDigest := StateDigest(state)));
      return None;
    }

    method Dispatch(request: DecisionRequest, authorized: BattleSubmission, text: string)
      returns (raised: Option<Fault>)
      requires Valid()
      modifies this, world, traceSink
      ensures Flow(View(), raised) == SendChoice(cfg, old(View()), request, authorized, text)
    {
      hide Finalize, FirstError, Concluded, RecordChecks;
      var outcome := world.SendRoom(request, authorized, state, Choose(text, request.identity.rqid));
      match outcome
      case RefusedInvalid =>
        Fail(INVALID_CHOICE_FAULT, SendFailed, ServerInvalidChoice, Some(authorized));
        return Some(INVALID_CHOICE_FAULT);
      case RefusedUnavailable =>
        Fail(UNAVAILABLE_CHOICE_FAULT, SendFailed, ServerUnavailableChoice, Some(authorized));
        return Some(UNAVAILABLE_CHOICE_FAULT);
      case SendRaises(fault) =>
        Fail(fault, SendFailed, SendingFailed, Some(authorized));
        return Some(fault);
      case Delivered =>
        if authorized.provenance.ExplicitRequest? {
          explicitRequestSubmissions := explicitRequestSubmissions + 1;
        } else {
          defaultSubmissions := defaultSubmissions + 1;
        }
        submittedRequest := Some(request.identity);
        pendingRequest := None;
        FinalizePending(Submitted, None, Some(authorized));
        return None;
    }

    method SubmitCandidate(request: DecisionRequest, candidate: BattleSubmission) returns (raised: Option<Fault>)
      requires Valid()
      modifies this, world, traceSink
      ensures Flow(View(), raised) == SubmitChoice(cfg, old(View()), request, candidate)
    {
      hide Finalize, FirstError, SendChoice;
      var authorized := Authorize(candidate, request.identity, request.safe);
      if authorized == Err(StaleIdentity) {
        notes := notes + [GateFoundStale];
        return Some(STALE_FAULT);
      }
      if authorized.Err? {
        notes := notes + [ChosenOutside(request, state, world.calls, candidate)];
        Fail(GATE_FAULT, ActionGateRejected, LocalActionGateRejection, Some(candidate));
        return Some(GATE_FAULT);
      }
      var text := cfg.team.encode(authorized.value);
      if text.Err? {
        notes := notes + [Unencodable(request, state, world.calls, authorized.value)];
        Fail(text.error, CommandEncodingFailed, EncodingFailed, Some(authorized.value));
        return Some(text.error);
      }
      raised := Dispatch(request, authorized.value, text.value);
    }

    method SubmitRequest(request: DecisionRequest) returns (raised: Option<Fault>)
      requires Valid()
      modifies this, world, traceSink
      ensures Flow(View(), raised) == Submit(cfg, old(View()), request)
    {
      hide Finalize, FirstError, SubmitChoice;
      if submittedRequest == Some(request.identity) {
        pendingRequest := None;
        notes := notes + [SubmittedTwice];
        return None;
      }
      if request.kind.Wait? {
        submittedRequest := Some(request.identity);
        pendingRequest := None;
        FinalizePending(WaitNoop, None, None);
        return None;
      }
      var outcome := world.Select(request);
      match outcome
      case NoLegalAction =>
        notes := notes + [NothingChosen(request, state, world.calls)];
        Fail(NO_LEGAL_ACTION_FAULT, PolicyRejected, NoLegalActionAvailable, None);
        return Some(NO_LEGAL_ACTION_FAULT);
      case PolicyRaises(fault) =>
        return Some(fault);
      case Chosen(candidate) =>
        raised := SubmitCandidate(request, candidate);
    }

    method RejectReconciliation(ghost note: Note) returns (error: Option<Fault>)
      requires Valid()
      modifies this, world`calls, traceSink
      ensures Flow(View(), error) == RejectPending(cfg, old(View()), note)
    {
      hide Finalize, FirstError;
      notes := notes + [note];
      Fail(MISMATCH_FAULT, ReconciliationRejected, ReconciliationMismatch, None);
      return Some(MISMATCH_FAULT);
    }

    method RetryPending(strict: bool) returns (raised: Option<Fault>)
      requires Valid()
      modifies this, world, traceSink
      ensures Flow(View(), raised) == Retry(cfg, old(View()), strict)
    {
      hide Reconcile, RejectPending, Submit, RefreshTrace;
      if pendingRequest.None? {
        return None;
      }
      var request := pendingRequest.value;
      var submitted := if submittedRequest.Some? then Some(submittedRequest.value.rqid) else None;
      var reconciliation := Reconcile(cfg.roomId, request, state, submitted);
      assert submitted == SubmittedRqid(View());
      if reconciliation.Reject? {
        raised := RejectReconciliation(Rejection(request, state, submitted, reconciliation.reason));
        return;
      }
      if reconciliation.Pending? {
        var activeIdentityPending := reconciliation.waitsFor.ActiveUnknown?;
        if strict || (state.battleStarted && !activeIdentityPending) {
          raised := RejectReconciliation(Overdue(request, state, submitted, reconciliation.waitsFor));
          return;
        }
        return None;
      }
      raised := RefreshPendingTraceState();
      if raised.Some? {
        return;
      }
      raised := SubmitRequest(request);
    }

    /** `_check_freshness`: whether the request repeats the latest one, or why it is refused. */
    method JudgeFreshness(identity: RequestIdentity) returns (duplicate: bool, raised: Option<Fault>)
      ensures var freshness := CheckFreshness(View(), identity);
              && (duplicate <==> freshness.Duplicate?)
              && raised == (match freshness
                            case StaleRequest => Some(STALE_FAULT)
                            case ChangedRequest => Some(MISMATCH_FAULT)
                            case _ => None)
    {
      if latestRequest.None? {
        return false, None;
      }
      var latest := latestRequest.value;
      if identity.rqid < latest.rqid {
        return false, Some(STALE_FAULT);
      }
      if identity.rqid == latest.rqid {
        if identity.digest == latest.digest {
          return true, None;
        }
        return false, Some(MISMATCH_FAULT);
      }
      return false, None;
    }

    method HandleRequest(request: DecisionRequest) returns (raised: Option<Fault>)
      requires Valid()
      modifies this, world, traceSink
      ensures Flow(View(), raised) == ProcessRequest(cfg, old(View()), request)
    {
      hide Finalize, OpenTrace, Retry;
      var duplicate, refused := JudgeFreshness(request.identity);
      if refused.Some? || duplicate {
        return refused;
      }
      FinalizePending(SupersededBeforeSelection, None, None);
      latestRequest := Some(request.identity);
      pendingRequest := Some(request);
      raised := OpenPendingTrace(request);
      if raised.Some? || done {
        return;
      }
      raised := RetryPending(false);
    }

    method AdvanceState(body: EventBody) returns (raised: Option<Fault>)
      modifies `state
      ensures match Reduce(old(state), old(state).eventIndex + 1, body)
              case Ok(next) => raised.None? && state == next
              case Err(error) => raised == Some(ReduceFault(error)) && state == old(state)
    {
      hide Reduce;
      var next := Reduce(state, state.eventIndex + 1, body);
      if next.Err? {
        return Some(ReduceFault(next.error));
      }
      state := next.value;
      return None;
    }

    method ReactTo(body: EventBody) returns (raised: Option<Fault>)
      requires Valid()
      modifies this, world, traceSink
      ensures Flow(View(), raised) == AfterEvent(cfg, old(View()), body)
    {
      hide Finalize, Retry;
      if body.BattleWon? || body.BattleTied? {
        FinalizePending(TerminallyDiscarded, None, None);
        pendingRequest := None;
        done := true;
        return None;
      }
      raised := None;
      if body.TurnStarted? && pendingRequest.Some? {
        raised := RetryPending(true);
      } else if RetryEvent(body) && pendingRequest.Some? {
        raised := RetryPending(body.BattleStarted?);
      }
    }

    method HandleBattleEvent(parsed: Result<EventBody, Fault>) returns (raised: Option<Fault>)
      requires Valid()
      modifies this, world, traceSink
      ensures Flow(View(), raised) == ProcessEvent(cfg, old(View()), parsed)
    {
      hide Reduce, AfterEvent;
      if parsed.Err? {
        return Some(parsed.error);
      }
      raised := AdvanceState(parsed.value);
      if raised.Some? {
        return;
      }
      raised := ReactTo(parsed.value);
    }

    method HandleTimer(timer: Result<TimerBody, Fault>) returns (raised: Option<Fault>)
      modifies this
      ensures Flow(View(), raised) == ProcessTimer(old(View()), timer)
    {
      hide Reduce;
      if timer.Err? {
        return Some(timer.error);
      }
      raised := AdvanceState(timer.value);
    }

    method HandleLine(payload: Payload) returns (raised: Option<Fault>)
      requires Valid()
      modifies this, world, traceSink
      ensures Flow(View(), raised) == ProcessLine(cfg, old(View()), payload)
    {
      hide ProcessEvent, ProcessRequest, ProcessTimer;
      match payload
      case BattleLine(_, parsed) => raised := HandleBattleEvent(parsed);
      case RequestLine(read) =>
        if read.Err? {
          return Some(read.error);
        }
        raised := HandleRequest(read.value);
      case ErrorLine(error) => raised := Some(BattleErrorFault(error));
      case TimerLine(timer) => raised := HandleTimer(timer);
      case ControlOrChat =>
        roomControlOrChatCount := roomControlOrChatCount + 1;
        raised := None;
      case UnknownLine => raised := Some(UNKNOWN_EVENT_FAULT);
    }

    method AbortRun(fault: Fault)
      requires Valid()
      modifies this, world`calls, traceSink
      ensures View() == Abort(cfg, old(View()), fault)
    {
      hide Finalize, FirstError, AbortRecordCode;
      KeepFirstError(fault);
      var code := AbortRecordCode(fault);
      if code.Some? {
        if code.value == ReconciliationMismatch || code.value == StaleRqidCode {
          FinalizePending(FreshnessInvalidated, None, None);
        } else {
          FinalizePending(SessionAborted, code, None);
        }
      }
      pendingRequest := None;
      done := true;
    }

    /** `run`: consume the stream until the session is done, the stream faults, or it ends. */
    method RunAll(items: seq<StreamItem>) returns (result: BattleSessionResult)
      requires Valid()
      modifies this, world, traceSink
      ensures View() == Run(cfg, old(View()), items)
      ensures result == Snapshot(View())
    {
      hide ProcessLine, Abort;
      var k := 0;
      while k < |items| && !done
        invariant 0 <= k <= |items|
        invariant Run(cfg, View(), items[k..]) == Run(cfg, old(View()), items)
      {
        ghost var before := View();
        assert items[k..][0] == items[k] && items[k..][1..] == items[k + 1..];
        match items[k] {
          case StreamFault(fault) => AbortRun(fault);
          case Line(line) =>
            if line.roomId == Some(cfg.roomId) {
              var raised := HandleLine(line.payload);
              if raised.Some? {
                AbortRun(raised.value);
              }
            }
        }
        assert View() == Step(cfg, before, items[k]);
        k := k + 1;
      }
      result := BattleSessionResult(state, primaryError, traceError, recordError, roomControlOrChatCount,
                                    explicitRequestSubmissions, defaultSubmissions);
    }
  }

  lemma ConcludedForgetsTrace(cfg: Config, s: Session, record: DecisionRecord)
    ensures Concluded(cfg, s.(pendingTrace := None), record) == Concluded(cfg, s, record)
  {
    hide RecordChecks, FirstError;
  }
}
