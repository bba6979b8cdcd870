/** Faults and their stable codes, and the construction checks of decision records. */
module DecisionRecords {
  import opened Basics
  import opened ObservedStates
  import opened Submissions

  datatype ErrorCode =
    | NoLegalActionAvailable | LocalActionGateRejection | EncodingFailed | SendingFailed | ServerInvalidChoice
    | ServerUnavailableChoice | ReconciliationMismatch | StaleRqidCode | Disconnect | TransportTimeout
    | TimerOrForfeit | UnknownProtocolEvent | MalformedProtocolMessage | ReducerInvariantFailure

  datatype RecordStatus =
    | Submitted | WaitNoop | PolicyRejected | ActionGateRejected | CommandEncodingFailed | SendFailed
    | SessionAborted | SupersededBeforeSelection | TerminallyDiscarded | ReconciliationRejected
    | FreshnessInvalidated

  function CodeText(code: ErrorCode): string {
    match code
    case NoLegalActionAvailable => "no_legal_action_available"
    case LocalActionGateRejection => "local_action_gate_rejection"
    case EncodingFailed => "command_encoding_failed"
    case SendingFailed => "send_failed"
    case ServerInvalidChoice => "server_invalid_choice"
    case ServerUnavailableChoice => "server_unavailable_choice"
    case ReconciliationMismatch => "request_state_reconciliation_mismatch"
    case StaleRqidCode => "stale_rqid"
    case Disconnect => "disconnect"
    case TransportTimeout => "transport_timeout"
    case TimerOrForfeit => "timer_or_forfeit"
    case UnknownProtocolEvent => "unknown_protocol_event"
    case MalformedProtocolMessage => "malformed_protocol_message"
    case ReducerInvariantFailure => "reducer_invariant_failure"
  }

  const ALL_CODES: seq<ErrorCode> := [
    NoLegalActionAvailable, LocalActionGateRejection, EncodingFailed, SendingFailed, ServerInvalidChoice,
    ServerUnavailableChoice, ReconciliationMismatch, StaleRqidCode, Disconnect, TransportTimeout, TimerOrForfeit,
    UnknownProtocolEvent, MalformedProtocolMessage, ReducerInvariantFailure]

  function FindCode(text: string, codes: seq<ErrorCode>): Option<ErrorCode> {
    if codes == [] then None
    else if CodeText(codes[0]) == text then Some(codes[0])
    else FindCode(text, codes[1..])
  }

  /** `DecisionRecordErrorCode(text)`, or `None` for its `ValueError`. */
  function ParseCode(text: string): Option<ErrorCode> {
    FindCode(text, ALL_CODES)
  }

  function StatusErrorCodes(status: RecordStatus): set<ErrorCode> {
    match status
    case PolicyRejected => {NoLegalActionAvailable}
    case ActionGateRejected => {LocalActionGateRejection}
    case CommandEncodingFailed => {EncodingFailed}
    case SendFailed => {SendingFailed, ServerInvalidChoice, ServerUnavailableChoice}
    case SessionAborted =>
      {Disconnect, TransportTimeout, TimerOrForfeit, UnknownProtocolEvent, MalformedProtocolMessage,
       ReducerInvariantFailure}
    case ReconciliationRejected => {ReconciliationMismatch, StaleRqidCode}
    case _ => {}
  }

  /** An exception: its class name and, if it declares one, its `code`. */
  datatype Fault = Fault(className: string, code: Option<string>)

  function Coded(className: string, code: ErrorCode): Fault {
    Fault(className, Some(CodeText(code)))
  }

  const MISMATCH_FAULT := Coded("RequestStateReconciliationMismatch", ReconciliationMismatch)
  const STALE_FAULT := Coded("StaleRequestIdentity", StaleRqidCode)
  const NO_LEGAL_ACTION_FAULT := Coded("NoLegalActionError", NoLegalActionAvailable)
  const GATE_FAULT := Coded("LocalActionGateRejection", LocalActionGateRejection)
  const INVALID_CHOICE_FAULT := Coded("ServerInvalidChoice", ServerInvalidChoice)
  const UNAVAILABLE_CHOICE_FAULT := Coded("ServerUnavailableChoice", ServerUnavailableChoice)
  const REDUCER_FAULT := Coded("ReducerInvariantFailure", ReducerInvariantFailure)
  const MALFORMED_FAULT := Coded("MalformedProtocolMessage", MalformedProtocolMessage)
  const UNKNOWN_EVENT_FAULT := Coded("UnknownProtocolEvent", UnknownProtocolEvent)
  const VALUE_FAULT := Fault("ValueError", None)
  const TRACE_SINK_FAULT := Fault("TraceSinkFailure", Some("trace_sink_failure"))
  const RECORD_FAULT := Fault("DecisionRecordConstructionFailure", Some("decision_record_construction_failure"))

  /** The code an aborting session may write into a record: only abort and freshness codes. */
  function AbortRecordCode(fault: Fault): Option<ErrorCode> {
    match ParseCode(if fault.code.Some? then fault.code.value else "")
    case None => None
    case Some(code) =>
      if code in StatusErrorCodes(SessionAborted) || code in StatusErrorCodes(ReconciliationRejected) then Some(code)
      else None
  }

  /** An abort records the code of its fault exactly if that is an abort or freshness code. */
  lemma {:induction false} AbortCodes(fault: Fault, code: ErrorCode)
    ensures AbortRecordCode(fault) == Some(code) <==>
              && fault.code == Some(CodeText(code))
              && (EndsSession(code) || code.ReconciliationMismatch? || code.StaleRqidCode?)
  {
    hide FindCode, CodeText, StatusErrorCodes, EndsSession;
    ParseOfText(code);
    if fault.code.Some? { ParsedText(fault.code.value, ALL_CODES); }
    NoCodeIsEmpty(ALL_CODES);
    EndingCodes(code);
  }

  lemma EndingCodes(code: ErrorCode)
    ensures code in StatusErrorCodes(SessionAborted) <==> EndsSession(code)
    ensures code in StatusErrorCodes(ReconciliationRejected) <==> code.ReconciliationMismatch? || code.StaleRqidCode?
  {}

  lemma {:induction false} ParsedText(text: string, codes: seq<ErrorCode>)
    ensures FindCode(text, codes).Some? ==> text == CodeText(FindCode(text, codes).value)
  {
    if codes != [] && CodeText(codes[0]) != text { ParsedText(text, codes[1..]); }
  }

  lemma {:induction false} NoCodeIsEmpty(codes: seq<ErrorCode>)
    ensures FindCode("", codes).None?
  {
    if codes != [] { NoCodeIsEmpty(codes[1..]); }
  }

  lemma ParseOfText(code: ErrorCode)
    ensures ParseCode(CodeText(code)) == Some(code)
  {
    CodeTextsDiffer();
    assert ALL_CODES[0..] == ALL_CODES;
    var i := IndexOfCode(code);
    FindAt(code, i, 0);
  }

  lemma IndexOfCode(code: ErrorCode) returns (i: nat)
    ensures i < |ALL_CODES| && ALL_CODES[i] == code
  {
    i := match code
      case NoLegalActionAvailable => 0
      case LocalActionGateRejection => 1
      case EncodingFailed => 2
      case SendingFailed => 3
      case ServerInvalidChoice => 4
      case ServerUnavailableChoice => 5
      case ReconciliationMismatch => 6
      case StaleRqidCode => 7
      case Disconnect => 8
      case TransportTimeout => 9
      case TimerOrForfeit => 10
      case UnknownProtocolEvent => 11
      case MalformedProtocolMessage => 12
      case ReducerInvariantFailure => 13;
  }

  lemma {:induction false} FindAt(code: ErrorCode, i: nat, from: nat)
    requires from <= i < |ALL_CODES| && ALL_CODES[i] == code
    requires forall a, b :: CodeText(a) == CodeText(b) ==> a == b
    ensures FindCode(CodeText(code), ALL_CODES[from..]) == Some(code)
    decreases i - from
  {
    if from < i && ALL_CODES[from] != code {
      FindAt(code, i, from + 1);
      assert ALL_CODES[from..][1..] == ALL_CODES[from + 1..];
    }
  }

  /** The public codes are pairwise different texts. */
  lemma {:induction false} CodeTextsDiffer()
    ensures forall a, b :: CodeText(a) == CodeText(b) ==> a == b
  {
    forall a, b | CodeText(a) == CodeText(b) ensures a == b {
      CodeSignature(a);
      CodeSignature(b);
    }
  }

  /** Length, and two characters where lengths agree, tell the codes apart. */
  lemma CodeSignature(code: ErrorCode)
    ensures var t := CodeText(code);
            match code
            case NoLegalActionAvailable => |t| == 25 && t[0] == 'n'
            case LocalActionGateRejection => |t| == 27
            case EncodingFailed => |t| == 23 && t[0] == 'c'
            case SendingFailed => |t| == 11
            case ServerInvalidChoice => |t| == 21
            case ServerUnavailableChoice => |t| == 25 && t[0] == 's'
            case ReconciliationMismatch => |t| == 37
            case StaleRqidCode => |t| == 10 && t[0] == 's'
            case Disconnect => |t| == 10 && t[0] == 'd'
            case TransportTimeout => |t| == 17
            case TimerOrForfeit => |t| == 16
            case UnknownProtocolEvent => |t| == 22
            case MalformedProtocolMessage => |t| == 26
            case ReducerInvariantFailure => |t| == 25 && t[0] == 'r'
  {}

  // ----- decision records -----

  /** The run context a session's records share; its own constructor has already bound it to one arm. */
  datatype RunContext = RunContext(runContextDigest: Digest, battleIdDigest: Digest, armId: string)

  datatype StateDigest = StateDigest(of: ObservedState)

  datatype SafeSetDigest = SafeSetDigest(of: SafeSubmissionSet)

  datatype DecisionRecord = DecisionRecord(
    status: RecordStatus,
    runContextDigest: Digest,
    battleIdDigest: Digest,
    decisionIndex: int,
    rqid: int,
    requestDigest: Digest,
    stateDigest: StateDigest,
    safeSetDigest: SafeSetDigest,
    selected: Option<BattleSubmission>,
    provenance: Option<Provenance>,
    errorCode: Option<ErrorCode>,
    armId: string)

  /** The digest of a record's envelope: different records have different digests. */
  datatype RecordDigest = RecordDigest(of: DecisionRecord)

  predicate SafeInteger(n: int) {
    0 <= n <= MAX_SAFE_INTEGER
  }

  function SelectionRequired(): set<RecordStatus> {
    {Submitted, ActionGateRejected, CommandEncodingFailed, SendFailed}
  }

  function SelectionForbidden(): set<RecordStatus> {
    {WaitNoop, PolicyRejected, SupersededBeforeSelection, TerminallyDiscarded, ReconciliationRejected,
     FreshnessInvalidated}
  }

  function ErrorForbidden(): set<RecordStatus> {
    {Submitted, WaitNoop, SupersededBeforeSelection, TerminallyDiscarded, FreshnessInvalidated}
  }

  function ErrorRequired(): set<RecordStatus> {
    {PolicyRejected, ActionGateRejected, CommandEncodingFailed, SendFailed, SessionAborted, ReconciliationRejected}
  }

  /** The checks of `DecisionRecord.__post_init__`, in its order; schema version 2 throughout. */
  predicate RecordChecks(r: DecisionRecord) {
    && SafeInteger(r.decisionIndex)
    && SafeInteger(r.rqid)
    && !(r.selected.None? && r.provenance.Some?)
    && (r.selected.Some? ==> r.provenance == Some(r.selected.value.provenance))
    && (r.status in SelectionRequired() ==> r.selected.Some?)
    && (r.status in SelectionForbidden() ==> r.selected.None?)
    && (r.status in ErrorForbidden() ==> r.errorCode.None?)
    && (r.status in ErrorRequired() ==> r.errorCode.Some?)
    && (r.status in ErrorRequired() ==> r.errorCode.value in StatusErrorCodes(r.status))
  }

  datatype Presence = Required | Forbidden | Optional

  /** The documented table: what each terminal status says about the selection and which codes it admits. */
  function Selection(status: RecordStatus): Presence {
    match status
    case Submitted => Required
    case ActionGateRejected => Required
    case CommandEncodingFailed => Required
    case SendFailed => Required
    case SessionAborted => Optional
    case _ => Forbidden
  }

  predicate CodeAdmitted(status: RecordStatus, code: Option<ErrorCode>) {
    match status
    case PolicyRejected => code == Some(NoLegalActionAvailable)
    case ActionGateRejected => code == Some(LocalActionGateRejection)
    case CommandEncodingFailed => code == Some(EncodingFailed)
    case SendFailed => code in {Some(SendingFailed), Some(ServerInvalidChoice), Some(ServerUnavailableChoice)}
    case SessionAborted => code.Some? && EndsSession(code.value)
    case ReconciliationRejected => code in {Some(ReconciliationMismatch), Some(StaleRqidCode)}
    case _ => code.None?
  }

  /** The codes a session may be aborted with. */
  predicate EndsSession(code: ErrorCode) {
    code.Disconnect? || code.TransportTimeout? || code.TimerOrForfeit? || code.UnknownProtocolEvent?
    || code.MalformedProtocolMessage? || code.ReducerInvariantFailure?
  }

  predicate MatrixRow(status: RecordStatus, selected: Option<BattleSubmission>, code: Option<ErrorCode>) {
    && (Selection(status).Required? ==> selected.Some?)
    && (Selection(status).Forbidden? ==> selected.None?)
    && CodeAdmitted(status, code)
  }

  /** The constructor's checks accept a record exactly when it fits its row of the documented table. */
  lemma ChecksAreTheMatrix(r: DecisionRecord)
    ensures RecordChecks(r) <==>
              && SafeInteger(r.decisionIndex) && SafeInteger(r.rqid)
              && r.provenance == (if r.selected.Some? then Some(r.selected.value.provenance) else None)
              && MatrixRow(r.status, r.selected, r.errorCode)
  {
  }
}
