/** The request-driven battle session as a step function: every branch, with its collaborators as parameters. */
module SessionModel {
  import opened Basics
  import opened ObservedStates
  import opened Reducer
  import opened RosterKeys
  import opened Submissions
  import opened Reconciler
  import opened DecisionRecords

  // ----- what arrives -----

  datatype WireKind = InitBattle | Metadata | OtherWire

  datatype BattleErrorKind = InvalidChoice | UnavailableChoice | UnclassifiedError

  type TimerBody = b: EventBody | b.EvidenceSeen? witness EvidenceSeen("timer_warning", None, None, None, None, [])

  /** A classified room payload together with what its parser makes of it. */
  datatype Payload =
    | BattleLine(wire: WireKind, parsed: Result<EventBody, Fault>)
    | RequestLine(read: Result<DecisionRequest, Fault>)
    | ErrorLine(error: BattleErrorKind)
    | TimerLine(timer: Result<TimerBody, Fault>)
    | ControlOrChat
    | UnknownLine

  datatype RoomLine = RoomLine(roomId: Option<string>, payload: Payload)

  /** One turn of the connection's stream: a line, or the exception that ends it. */
  datatype StreamItem = Line(line: RoomLine) | StreamFault(fault: Fault)

  // ----- collaborators: any behaviour, call by call -----

  datatype PolicyOutcome = Chosen(submission: BattleSubmission) | NoLegalAction | PolicyRaises(policyFault: Fault)

  datatype SendOutcome = Delivered | RefusedInvalid | RefusedUnavailable | SendRaises(sendFault: Fault)

  /** The first argument of each outcome is the number of collaborator calls made before. */
  datatype Collaborators = Collaborators(
    policy: (nat, DecisionRequest) -> PolicyOutcome,
    encode: BattleSubmission -> Result<string, Fault>,
    send: nat -> SendOutcome,
    emit: nat -> bool,
    canonical: ObservedState -> bool)

  datatype Config = Config(roomId: string, context: Option<RunContext>, team: Collaborators)

  const CANONICAL_FAULT := Fault("IntegerDomainError", None)

  // ----- the session -----

  datatype PendingTrace = PendingTrace(
    request: DecisionRequest, stateDigest: StateDigest, safeSetDigest: SafeSetDigest, index: nat)

  datatype Command = Choose(choice: string, rqid: int)

  /** One `/choose` command handed to the connection, with the request and state it answered; `call` is the number of
      the send among the collaborator calls, the policy's answer being the call before. */
  datatype Dispatch = Dispatch(
    request: DecisionRequest, submission: BattleSubmission, state: ObservedState, command: Command, delivered: bool,
    call: nat)

  /** An observer's log of why requests were not answered and of which defensive branches ran; nothing reads it. Each
      note names the request, the state it was judged in, and the collaborator calls made by then. */
  datatype Note =
    | SubmittedTwice
    | GateFoundStale
    | Rejection(request: DecisionRequest, state: ObservedState, earlier: Option<int>, reason: RejectReason)
    | Overdue(request: DecisionRequest, state: ObservedState, earlier: Option<int>, waitsFor: PendingReason)
    | NothingChosen(request: DecisionRequest, state: ObservedState, calls: nat)
    | ChosenOutside(request: DecisionRequest, state: ObservedState, calls: nat, choice: BattleSubmission)
    | Unencodable(request: DecisionRequest, state: ObservedState, calls: nat, choice: BattleSubmission)

  /** `emits` numbers the collaborator calls that handed the sink a record; like `notes`, nothing reads it. */
  datatype Session = Session(
    state: ObservedState,
    pending: Option<DecisionRequest>,
    latest: Option<RequestIdentity>,
    submitted: Option<RequestIdentity>,
    primary: Option<Fault>,
    traceError: bool,
    recordError: bool,
    done: bool,
    controlCount: nat,
    explicitCount: nat,
    defaultCount: nat,
    pendingTrace: Option<PendingTrace>,
    nextIndex: nat,
    traceFailed: bool,
    sent: seq<Dispatch>,
    records: seq<DecisionRecord>,
    emits: seq<nat>,
    notes: seq<Note>,
    calls: nat)

  function InitialSession(state: ObservedState): Session {
    Session(state, None, None, None, None, false, false, false, 0, 0, 0, None, 0, false, [], [], [], [], 0)
  }

  /** The session after a call, and the exception the call left with. */
  datatype Flow = Flow(session: Session, raised: Option<Fault>)

  function Returns(s: Session): Flow { Flow(s, None) }

  function Raises(s: Session, fault: Fault): Flow { Flow(s, Some(fault)) }

  function FirstError(s: Session, fault: Fault): Session {
    if s.primary.None? then s.(primary := Some(fault)) else s
  }

  // ----- traces and records -----

  function MakeRecord(
    context: RunContext, trace: PendingTrace, status: RecordStatus, code: Option<ErrorCode>,
    selected: Option<BattleSubmission>)
    : DecisionRecord
  {
    DecisionRecord(status, context.runContextDigest, context.battleIdDigest, trace.index,
                   trace.request.identity.rqid, trace.request.identity.digest, trace.stateDigest,
                   trace.safeSetDigest, selected,
                   if selected.Some? then Some(selected.value.provenance) else None, code, context.armId)
  }

  /** The open trace ends with a record: refused by its own checks, accepted by the sink, or lost in it. */
  function Concluded(cfg: Config, s: Session, record: DecisionRecord): Session {
    var cleared := s.(pendingTrace := None);
    if !RecordChecks(record) then
      FirstError(cleared.(traceFailed := true, recordError := true, done := true), RECORD_FAULT)
    else if cfg.team.emit(s.calls) then
      cleared.(records := s.records + [record], emits := s.emits + [s.calls], calls := s.calls + 1)
    else
      FirstError(cleared.(emits := s.emits + [s.calls], calls := s.calls + 1, traceFailed := true, traceError := true,
                          done := true),
                 TRACE_SINK_FAULT)
  }

  /** `_finalize_pending`. */
  function Finalize(
    cfg: Config, s: Session, status: RecordStatus, code: Option<ErrorCode>, selected: Option<BattleSubmission>)
    : Session
  {
    if s.pendingTrace.None? then s else
    var cleared := s.(pendingTrace := None);
    if cfg.context.None? || s.traceFailed then cleared else
    Concluded(cfg, s, MakeRecord(cfg.context.value, s.pendingTrace.value, status, code, selected))
  }

  /** `_open_trace`: computing either digest may raise. */
  function OpenTrace(cfg: Config, s: Session, request: DecisionRequest): Flow {
    if cfg.context.None? || s.traceFailed then Returns(s)
    else if !cfg.team.canonical(s.state) then Raises(s, CANONICAL_FAULT)
    else if !SafeInteger(request.safe.identity.rqid) then Raises(s, VALUE_FAULT)
    else Returns(s.(
      pendingTrace := Some(PendingTrace(request, StateDigest(s.state), SafeSetDigest(request.safe), s.nextIndex)),
      nextIndex := s.nextIndex + 1))
  }

  /** `_refresh_pending_trace_state`. */
  function RefreshTrace(cfg: Config, s: Session): Flow {
    if s.pendingTrace.None? then Returns(s)
    else if !cfg.team.canonical(s.state) then Raises(s, CANONICAL_FAULT)
    else Returns(s.(pendingTrace := Some(s.pendingTrace.value.(stateDigest := StateDigest(s.state)))))
  }

  // ----- submitting -----

  function Count(s: Session, provenance: Provenance): Session {
    match provenance
    case ExplicitRequest => s.(explicitCount := s.explicitCount + 1)
    case ServerDefault => s.(defaultCount := s.defaultCount + 1)
  }

  function SendFailedWith(cfg: Config, s: Session, choice: BattleSubmission, code: ErrorCode, fault: Fault): Flow {
    Raises(Finalize(cfg, FirstError(s, fault), SendFailed, Some(code), Some(choice)), fault)
  }

  /** The session once the command was handed to the connection, whatever came of it. */
  function Logged(cfg: Config, s: Session, request: DecisionRequest, choice: BattleSubmission, text: string): Session {
    s.(sent := s.sent + [Dispatch(request, choice, s.state, Choose(text, request.identity.rqid),
                                  cfg.team.send(s.calls).Delivered?, s.calls)],
       calls := s.calls + 1)
  }

  /** The session between a delivered send and its record. */
  function Sent(cfg: Config, s: Session, request: DecisionRequest, choice: BattleSubmission, text: string): Session {
    Count(Logged(cfg, s, request, choice, text), choice.provenance)
    .(submitted := Some(request.identity), pending := None)
  }

  function SendChoice(cfg: Config, s: Session, request: DecisionRequest, choice: BattleSubmission, text: string): Flow {
    var logged := Logged(cfg, s, request, choice, text);
    match cfg.team.send(s.calls)
    case RefusedInvalid => SendFailedWith(cfg, logged, choice, ServerInvalidChoice, INVALID_CHOICE_FAULT)
    case RefusedUnavailable => SendFailedWith(cfg, logged, choice, ServerUnavailableChoice, UNAVAILABLE_CHOICE_FAULT)
    case SendRaises(fault) => SendFailedWith(cfg, logged, choice, SendingFailed, fault)
    case Delivered => Returns(Finalize(cfg, Sent(cfg, s, request, choice, text), Submitted, None, Some(choice)))
  }

  function SubmitChoice(cfg: Config, s: Session, request: DecisionRequest, candidate: BattleSubmission): Flow {
    match Authorize(candidate, request.identity, request.safe)
    case Err(StaleIdentity) => Raises(s.(notes := s.notes + [GateFoundStale]), STALE_FAULT)
    case Err(NotInSafeSet) =>
      var noted := s.(notes := s.notes + [ChosenOutside(request, s.state, s.calls, candidate)]);
      Raises(Finalize(cfg, FirstError(noted, GATE_FAULT), ActionGateRejected, Some(LocalActionGateRejection),
                      Some(candidate)), GATE_FAULT)
    case Ok(choice) =>
      match cfg.team.encode(choice)
      case Err(fault) =>
        var noted := s.(notes := s.notes + [Unencodable(request, s.state, s.calls, choice)]);
        Raises(Finalize(cfg, FirstError(noted, fault), CommandEncodingFailed, Some(EncodingFailed), Some(choice)),
               fault)
      case Ok(text) => SendChoice(cfg, s, request, choice, text)
  }

  function Submit(cfg: Config, s: Session, request: DecisionRequest): Flow {
    if s.submitted == Some(request.identity) then Returns(s.(pending := None, notes := s.notes + [SubmittedTwice]))
    else if request.kind.Wait? then
      Returns(Finalize(cfg, s.(submitted := Some(request.identity), pending := None), WaitNoop, None, None))
    else
      var asked := s.(calls := s.calls + 1);
      match cfg.team.policy(s.calls, request)
      case NoLegalAction =>
        var noted := asked.(notes := s.notes + [NothingChosen(request, s.state, asked.calls)]);
        Raises(Finalize(cfg, FirstError(noted, NO_LEGAL_ACTION_FAULT), PolicyRejected, Some(NoLegalActionAvailable),
                        None), NO_LEGAL_ACTION_FAULT)
      case PolicyRaises(fault) => Raises(asked, fault)
      case Chosen(candidate) => SubmitChoice(cfg, asked, request, candidate)
  }

  // ----- reconciling -----

  /** `_reject_reconciliation`. */
  function RejectPending(cfg: Config, s: Session, note: Note): Flow {
    Raises(Finalize(cfg, FirstError(s.(notes := s.notes + [note]), MISMATCH_FAULT), ReconciliationRejected,
                    Some(ReconciliationMismatch), None),
           MISMATCH_FAULT)
  }

  function SubmittedRqid(s: Session): Option<int> {
    if s.submitted.Some? then Some(s.submitted.value.rqid) else None
  }

  /** `_retry_pending`. */
  function Retry(cfg: Config, s: Session, strict: bool): Flow {
    if s.pending.None? then Returns(s) else
    var request := s.pending.value;
    match Reconcile(cfg.roomId, request, s.state, SubmittedRqid(s))
    case Reject(reason) => RejectPending(cfg, s, Rejection(request, s.state, SubmittedRqid(s), reason))
    case Pending(reason) =>
      if strict || (s.state.battleStarted && !reason.ActiveUnknown?) then
        RejectPending(cfg, s, Overdue(request, s.state, SubmittedRqid(s), reason))
      else Returns(s)
    case Accept =>
      var refreshed := RefreshTrace(cfg, s);
      if refreshed.raised.Some? then refreshed else Submit(cfg, refreshed.session, request)
  }

  // ----- lines -----

  datatype Freshness = Fresh | Duplicate | StaleRequest | ChangedRequest

  /** No request came before, or only ones with smaller rqids. */
  predicate Newer(latest: Option<RequestIdentity>, identity: RequestIdentity) {
    latest.None? || latest.value.rqid < identity.rqid
  }

  /** The latest request over again. */
  predicate Repeats(latest: Option<RequestIdentity>, identity: RequestIdentity) {
    latest.Some? && latest.value.rqid == identity.rqid && latest.value.digest == identity.digest
  }

  function CheckFreshness(s: Session, identity: RequestIdentity): (r: Freshness)
    ensures r.Fresh? <==> Newer(s.latest, identity)
    ensures r.Duplicate? <==> Repeats(s.latest, identity)
  {
    if s.latest.None? then Fresh
    else if identity.rqid < s.latest.value.rqid then StaleRequest
    else if identity.rqid == s.latest.value.rqid then
      if identity.digest == s.latest.value.digest then Duplicate else ChangedRequest
    else Fresh
  }

  function ProcessRequest(cfg: Config, s: Session, request: DecisionRequest): Flow {
    match CheckFreshness(s, request.identity)
    case Duplicate => Returns(s)
    case StaleRequest => Raises(s, STALE_FAULT)
    case ChangedRequest => Raises(s, MISMATCH_FAULT)
    case Fresh =>
      var superseded := Finalize(cfg, s, SupersededBeforeSelection, None, None)
                        .(latest := Some(request.identity), pending := Some(request));
      var traced := OpenTrace(cfg, superseded, request);
      if traced.raised.Some? || traced.session.done then traced
      else Retry(cfg, traced.session, false)
  }

  function ReduceFault(error: ReduceError): Fault {
    match error
    case InvariantViolation => REDUCER_FAULT
    case ValueFault => VALUE_FAULT
  }

  function AfterEvent(cfg: Config, s: Session, body: EventBody): Flow {
    if body.BattleWon? || body.BattleTied? then
      Returns(Finalize(cfg, s, TerminallyDiscarded, None, None).(pending := None, done := true))
    else if body.TurnStarted? && s.pending.Some? then Retry(cfg, s, true)
    else if RetryEvent(body) && s.pending.Some? then Retry(cfg, s, body.BattleStarted?)
    else Returns(s)
  }

  function ProcessEvent(cfg: Config, s: Session, parsed: Result<EventBody, Fault>): Flow {
    if parsed.Err? then Raises(s, parsed.error) else
    match Reduce(s.state, s.state.eventIndex + 1, parsed.value)
    case Err(error) => Raises(s, ReduceFault(error))
    case Ok(state) => AfterEvent(cfg, s.(state := state), parsed.value)
  }

  function ProcessTimer(s: Session, timer: Result<TimerBody, Fault>): Flow {
    if timer.Err? then Raises(s, timer.error) else
    match Reduce(s.state, s.state.eventIndex + 1, timer.value)
    case Err(error) => Raises(s, ReduceFault(error))
    case Ok(state) => Returns(s.(state := state))
  }

  function BattleErrorFault(error: BattleErrorKind): Fault {
    match error
    case InvalidChoice => INVALID_CHOICE_FAULT
    case UnavailableChoice => UNAVAILABLE_CHOICE_FAULT
    case UnclassifiedError => MALFORMED_FAULT
  }

  function ProcessLine(cfg: Config, s: Session, payload: Payload): Flow {
    match payload
    case BattleLine(_, parsed) => ProcessEvent(cfg, s, parsed)
    case RequestLine(read) => if read.Err? then Raises(s, read.error) else ProcessRequest(cfg, s, read.value)
    case ErrorLine(error) => Raises(s, BattleErrorFault(error))
    case TimerLine(timer) => ProcessTimer(s, timer)
    case ControlOrChat => Returns(s.(controlCount := s.controlCount + 1))
    case UnknownLine => Raises(s, UNKNOWN_EVENT_FAULT)
  }

  /** `_abort`. */
  function Abort(cfg: Config, s: Session, fault: Fault): Session {
    var failed := FirstError(s, fault);
    var finalized :=
      match AbortRecordCode(fault)
      case None => failed
      case Some(code) =>
        if code == ReconciliationMismatch || code == StaleRqidCode then
          Finalize(cfg, failed, FreshnessInvalidated, None, None)
        else
          Finalize(cfg, failed, SessionAborted, Some(code), None);
    finalized.(pending := None, done := true)
  }

  /** One pass of the loop in `run`. */
  function Step(cfg: Config, s: Session, item: StreamItem): Session {
    match item
    case StreamFault(fault) => Abort(cfg, s, fault)
    case Line(line) =>
      if line.roomId != Some(cfg.roomId) then s else
      var flow := ProcessLine(cfg, s, line.payload);
      if flow.raised.Some? then Abort(cfg, flow.session, flow.raised.value) else flow.session
  }

  /** `run` over a finite stream. */
  function Run(cfg: Config, s: Session, items: seq<StreamItem>): Session
    decreases |items|
  {
    if items == [] || s.done then s else Run(cfg, Step(cfg, s, items[0]), items[1..])
  }
}
