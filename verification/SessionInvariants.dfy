/** The invariant of the battle session, kept by every line it can receive and every way a collaborator can fail. */
module SessionInvariants {
  import opened Basics
  import opened ObservedStates
  import opened Reducer
  import opened ReducerInvariants
  import opened RosterKeys
  import opened Submissions
  import opened Reconciler
  import opened DecisionRecords
  import opened SessionModel

  // ----- what was sent -----

  /** A command answers a request accepted against the state it was sent in, with the safe choice the policy gave for it
      in the call just before, and its log entry says what the connection did with it. */
  ghost predicate LegalDispatch(cfg: Config, d: Dispatch) {
    && Reconcile(cfg.roomId, d.request, d.state, None).Accept?
    && !d.request.kind.Wait?
    && d.submission in d.request.safe.submissions
    && d.call > 0 && cfg.team.policy(d.call - 1, d.request) == Chosen(d.submission)
    && d.delivered == cfg.team.send(d.call).Delivered?
    && cfg.team.encode(d.submission) == Ok(d.command.choice)
    && d.command.rqid == d.request.identity.rqid
  }

  /** The policy's last answer was this submission. */
  ghost predicate JustChosen(cfg: Config, s: Session, request: DecisionRequest, choice: BattleSubmission) {
    s.calls > 0 && cfg.team.policy(s.calls - 1, request) == Chosen(choice)
  }

  /** The sends are different calls of this run, in the order of the log. */
  ghost predicate CallsOrdered(sent: seq<Dispatch>, calls: nat) {
    && (forall i :: 0 <= i < |sent| ==> sent[i].call < calls)
    && forall i, j :: 0 <= i < j < |sent| ==> sent[i].call < sent[j].call
  }

  function DispatchRqid(d: Dispatch): int { d.request.identity.rqid }

  ghost predicate SentOnce(sent: seq<Dispatch>) {
    forall i, j :: 0 <= i < j < |sent| ==> DispatchRqid(sent[i]) < DispatchRqid(sent[j])
  }

  ghost predicate SentUpTo(sent: seq<Dispatch>, rqid: int) {
    forall i :: 0 <= i < |sent| ==> DispatchRqid(sent[i]) <= rqid
  }

  ghost predicate SentBefore(sent: seq<Dispatch>, rqid: int) {
    forall i :: 0 <= i < |sent| ==> DispatchRqid(sent[i]) < rqid
  }

  ghost predicate AllLegal(cfg: Config, sent: seq<Dispatch>) {
    forall i :: 0 <= i < |sent| ==> LegalDispatch(cfg, sent[i])
  }

  ghost predicate SentInv(cfg: Config, s: Session) {
    && SentOnce(s.sent) && AllLegal(cfg, s.sent) && CallsOrdered(s.sent, s.calls)
    && (s.sent != [] ==> s.latest.Some? && SentUpTo(s.sent, s.latest.value.rqid))
  }

  ghost predicate FreshInv(s: Session) {
    && (s.submitted.Some? ==> s.latest.Some? && s.submitted.value.rqid <= s.latest.value.rqid)
    && (s.pending.Some? ==> s.latest == Some(s.pending.value.identity))
    && (s.pending.Some? && s.submitted.Some? ==> s.submitted.value.rqid < s.latest.value.rqid)
  }

  /** Nothing was sent yet for the request that is pending. */
  ghost predicate Unanswered(s: Session) {
    s.pending.Some? ==> SentBefore(s.sent, s.pending.value.identity.rqid)
  }

  // ----- the ledger -----

  ghost predicate RecordsUpTo(records: seq<DecisionRecord>, rqid: int) {
    forall i :: 0 <= i < |records| ==> records[i].rqid <= rqid
  }

  ghost predicate RecordsBefore(records: seq<DecisionRecord>, rqid: int) {
    forall i :: 0 <= i < |records| ==> records[i].rqid < rqid
  }

  /** The record is of this run, battle and arm. */
  predicate OfContext(r: DecisionRecord, context: RunContext) {
    r.runContextDigest == context.runContextDigest && r.battleIdDigest == context.battleIdDigest
    && r.armId == context.armId
  }

  ghost predicate RecordFits(cfg: Config, r: DecisionRecord, index: int) {
    && cfg.context.Some? && OfContext(r, cfg.context.value)
    && r.decisionIndex == index && RecordChecks(r)
  }

  ghost predicate RqidsIncrease(records: seq<DecisionRecord>) {
    forall i, j :: 0 <= i < j < |records| ==> records[i].rqid < records[j].rqid
  }

  ghost predicate RecordsOk(cfg: Config, records: seq<DecisionRecord>) {
    RqidsIncrease(records) && forall i :: 0 <= i < |records| ==> RecordFits(cfg, records[i], i)
  }

  ghost predicate TraceOk(cfg: Config, s: Session, trace: PendingTrace) {
    && cfg.context.Some? && !s.traceFailed
    && trace.index == |s.records| && s.nextIndex == trace.index + 1
    && s.latest == Some(trace.request.identity)
    && trace.request.identity == trace.request.safe.identity
    && trace.safeSetDigest == SafeSetDigest(trace.request.safe)
    && SafeInteger(trace.request.identity.rqid)
    && RecordsBefore(s.records, trace.request.identity.rqid)
  }

  /** The sink was asked once per record and accepted each; one further record, the last, it refused if the session
      reports a trace error. */
  ghost predicate SinkAnswered(cfg: Config, emits: seq<nat>, recorded: nat, refused: bool) {
    && |emits| == recorded + (if refused then 1 else 0)
    && (forall i :: 0 <= i < recorded ==> cfg.team.emit(emits[i]))
    && (refused ==> !cfg.team.emit(emits[recorded]))
  }

  /** The numbers are different calls of this run, in the order of the log. */
  ghost predicate EmitsOrdered(emits: seq<nat>, calls: nat) {
    && (forall i :: 0 <= i < |emits| ==> emits[i] < calls)
    && forall i, j :: 0 <= i < j < |emits| ==> emits[i] < emits[j]
  }

  ghost predicate Ledger(cfg: Config, s: Session) {
    && RecordsOk(cfg, s.records) && EmitsOrdered(s.emits, s.calls)
    && SinkAnswered(cfg, s.emits, |s.records|, s.traceError)
    && (s.records != [] ==> s.latest.Some? && RecordsUpTo(s.records, s.latest.value.rqid))
    && (s.pendingTrace.Some? ==> TraceOk(cfg, s, s.pendingTrace.value))
    && (s.pendingTrace.None? && !s.traceFailed ==> s.nextIndex == |s.records|)
    && (s.traceFailed ==> s.nextIndex == |s.records| + 1 && s.done && s.primary.Some? && s.traceError)
    && (s.traceError ==> s.traceFailed)
    && !s.recordError
  }

  // ----- sends against records -----

  /** A selection together with everything a record binds it to. */
  datatype Decision = Decision(
    rqid: int, requestDigest: Digest, stateDigest: StateDigest, safeSetDigest: SafeSetDigest,
    submission: BattleSubmission)

  function DecisionOf(request: DecisionRequest, state: ObservedState, choice: BattleSubmission): Decision {
    Decision(request.identity.rqid, request.identity.digest, StateDigest(state), SafeSetDigest(request.safe), choice)
  }

  function TraceDecision(trace: PendingTrace, choice: BattleSubmission): Decision {
    Decision(trace.request.identity.rqid, trace.request.identity.digest, trace.stateDigest, trace.safeSetDigest, choice)
  }

  function RecordedDecision(r: DecisionRecord): Decision
    requires r.selected.Some?
  {
    Decision(r.rqid, r.requestDigest, r.stateDigest, r.safeSetDigest, r.selected.value)
  }

  /** The decisions of the SUBMITTED records. */
  function RecordedDecisions(records: seq<DecisionRecord>): seq<Decision> {
    if records == [] then [] else
    var last := records[|records| - 1];
    RecordedDecisions(records[..|records| - 1])
    + (if last.status.Submitted? && last.selected.Some? then [RecordedDecision(last)] else [])
  }

  /** The decisions whose commands were delivered, each bound to the state its command was sent in. */
  function DeliveredDecisions(sent: seq<Dispatch>): seq<Decision> {
    if sent == [] then [] else
    var last := sent[|sent| - 1];
    DeliveredDecisions(sent[..|sent| - 1])
    + (if last.delivered then [DecisionOf(last.request, last.state, last.submission)] else [])
  }

  function CountDecisions(decisions: seq<Decision>, provenance: Provenance): nat {
    if decisions == [] then 0 else
    var last := |decisions| - 1;
    CountDecisions(decisions[..last], provenance)
    + (if decisions[last].submission.provenance == provenance then 1 else 0)
  }

  ghost predicate Matched(cfg: Config, s: Session) {
    cfg.context.Some? ==>
      var recorded, delivered := RecordedDecisions(s.records), DeliveredDecisions(s.sent);
      || recorded == delivered
      || (&& s.traceFailed && s.primary == Some(TRACE_SINK_FAULT)
          && delivered != [] && recorded == delivered[..|delivered| - 1])
  }

  ghost predicate Counted(s: Session) {
    && s.explicitCount == CountDecisions(DeliveredDecisions(s.sent), ExplicitRequest)
    && s.defaultCount == CountDecisions(DeliveredDecisions(s.sent), ServerDefault)
  }

  // ----- guards -----

  predicate GuardFired(note: Note) {
    note.SubmittedTwice? || note.GateFoundStale? || (note.Rejection? && note.reason.StaleRqid?)
  }

  /** The already-submitted guard, the gate's identity guard and the reconciler's rqid guard have not fired. */
  ghost predicate GuardsSilent(notes: seq<Note>) {
    forall i :: 0 <= i < |notes| ==> !GuardFired(notes[i])
  }

  // ----- the invariant -----

  /** While a session still runs, the request it holds back is waiting for a missing public fact. */
  ghost predicate Waiting(s: Session) {
    !s.done && s.pending.Some? ==> MissingFact(s.state, s.pending.value)
  }

  ghost predicate Linked(cfg: Config, s: Session) {
    !s.done && cfg.context.Some? ==>
      && (s.pending.Some? <==> s.pendingTrace.Some?)
      && (s.pending.Some? ==> s.pendingTrace.value.request == s.pending.value)
  }

  ghost predicate Reported(s: Session) {
    && (!s.done ==> s.primary.None?)
    && (s.done ==> s.primary.Some? || s.state.winner.Some? || s.state.tied)
  }

  /** Holds after every call, also after one that raised. */
  ghost predicate Mid(cfg: Config, s: Session) {
    && StateOk(s.state) && SentInv(cfg, s) && FreshInv(s) && Ledger(cfg, s) && Matched(cfg, s) && Counted(s)
    && GuardsSilent(s.notes)
  }

  /** Holds whenever the session waits for its next line. */
  ghost predicate Inv(cfg: Config, s: Session) {
    Mid(cfg, s) && Unanswered(s) && Waiting(s) && Linked(cfg, s) && Reported(s)
  }

  ghost predicate FlowOk(cfg: Config, f: Flow) {
    Mid(cfg, f.session) && (f.raised.None? ==> Inv(cfg, f.session))
  }

  /** What the request reader guarantees: a request and its safe set carry one identity. */
  predicate Coherent(item: StreamItem) {
    item.Line? && item.line.payload.RequestLine? && item.line.payload.read.Ok? ==>
      item.line.payload.read.value.identity == item.line.payload.read.value.safe.identity
  }

  lemma InitialInv(cfg: Config, state: ObservedState)
    requires StateOk(state)
    ensures Inv(cfg, InitialSession(state))
  {
    hide StateOk;
  }

  // ----- finalizing -----

  ghost predicate SameDecision(s: Session, t: Session) {
    && t.state == s.state && t.pending == s.pending && t.latest == s.latest && t.submitted == s.submitted
    && t.sent == s.sent && t.explicitCount == s.explicitCount && t.defaultCount == s.defaultCount
    && t.controlCount == s.controlCount && t.nextIndex == s.nextIndex && t.notes == s.notes
    && s.calls <= t.calls
  }

  lemma PairsAppend(records: seq<DecisionRecord>, r: DecisionRecord)
    ensures RecordedDecisions(records + [r])
         == RecordedDecisions(records)
            + (if r.status.Submitted? && r.selected.Some? then [RecordedDecision(r)] else [])
  {
    assert (records + [r])[..|records|] == records;
  }

  lemma DeliveredAppend(sent: seq<Dispatch>, d: Dispatch)
    ensures DeliveredDecisions(sent + [d])
         == DeliveredDecisions(sent) + (if d.delivered then [DecisionOf(d.request, d.state, d.submission)] else [])
  {
    assert (sent + [d])[..|sent|] == sent;
  }

  lemma CountAppend(decisions: seq<Decision>, decision: Decision, provenance: Provenance)
    ensures CountDecisions(decisions + [decision], provenance)
         == CountDecisions(decisions, provenance) + (if decision.submission.provenance == provenance then 1 else 0)
  {
    assert (decisions + [decision])[..|decisions|] == decisions;
  }

  lemma RecordsPrefix(cfg: Config, records: seq<DecisionRecord>, n: nat)
    requires RecordsOk(cfg, records) && n <= |records|
    ensures RecordsOk(cfg, records[..n])
  {
    hide RecordFits;
    var earlier := records[..n];
    forall i | 0 <= i < n ensures RecordFits(cfg, earlier[i], i) {
      assert earlier[i] == records[i] && RecordFits(cfg, records[i], i);
    }
    forall i, j | 0 <= i < j < n ensures earlier[i].rqid < earlier[j].rqid {
      assert earlier[i] == records[i] && earlier[j] == records[j];
    }
  }

  /** Records have strictly increasing rqids, none below zero, so an rqid is at least its index. */
  lemma {:induction false} IndexBelowRqid(cfg: Config, records: seq<DecisionRecord>, rqid: int)
    requires RecordsOk(cfg, records) && RecordsBefore(records, rqid) && 0 <= rqid
    ensures |records| <= rqid
  {
    if records != [] {
      var last := |records| - 1;
      RecordsPrefix(cfg, records, last);
      assert RecordFits(cfg, records[last], last);
      forall i | 0 <= i < last ensures records[..last][i].rqid < records[last].rqid {
        assert records[..last][i] == records[i];
      }
      IndexBelowRqid(cfg, records[..last], records[last].rqid);
    }
  }

  /** A record whose status, selection and code fit the matrix is never refused by its own checks. */
  lemma AttemptIsValid(
    cfg: Config, s: Session, status: RecordStatus, code: Option<ErrorCode>, selected: Option<BattleSubmission>)
    requires Ledger(cfg, s) && s.pendingTrace.Some? && MatrixRow(status, selected, code)
    ensures cfg.context.Some?
    ensures RecordChecks(MakeRecord(cfg.context.value, s.pendingTrace.value, status, code, selected))
  {
    var trace := s.pendingTrace.value;
    ChecksAreTheMatrix(MakeRecord(cfg.context.value, trace, status, code, selected));
    hide RecordChecks, MatrixRow;
    IndexBelowRqid(cfg, s.records, trace.request.identity.rqid);
  }

  lemma LedgerAppend(cfg: Config, s: Session, record: DecisionRecord)
    requires Ledger(cfg, s) && s.pendingTrace.Some?
    requires RecordChecks(record) && record.decisionIndex == s.pendingTrace.value.index
    requires record.rqid == s.pendingTrace.value.request.identity.rqid
    requires OfContext(record, cfg.context.value) && cfg.team.emit(s.calls)
    ensures Ledger(cfg, s.(pendingTrace := None, records := s.records + [record], emits := s.emits + [s.calls],
                           calls := s.calls + 1))
  {
    hide RecordChecks;
  }

  /** How `_finalize_pending` can end: the ledger stays sound, and only an accepted record reaches it. */
  ghost predicate Finalized(s: Session, t: Session, status: RecordStatus, selected: Option<BattleSubmission>) {
    && SameDecision(s, t) && t.pendingTrace.None?
    && (s.primary.Some? ==> t.primary == s.primary)
    && (t.done ==> s.done || t.traceFailed)
    && (s.done ==> t.done)
    && (!t.done ==> t.primary == s.primary)
    && (t.traceFailed ==> s.traceFailed || s.primary.Some? || t.primary == Some(TRACE_SINK_FAULT))
    && (s.traceFailed ==> t == s.(pendingTrace := None))
    && RecordedDecisions(t.records)
       == RecordedDecisions(s.records)
          + (if status.Submitted? && selected.Some? && s.pendingTrace.Some? && !t.traceFailed
             then [TraceDecision(s.pendingTrace.value, selected.value)] else [])
  }

  lemma FailedSink(cfg: Config, s: Session, status: RecordStatus, selected: Option<BattleSubmission>)
    requires Ledger(cfg, s) && s.pendingTrace.Some? && !cfg.team.emit(s.calls)
    ensures var t := FirstError(s.(pendingTrace := None, emits := s.emits + [s.calls], calls := s.calls + 1,
                                   traceFailed := true, traceError := true, done := true), TRACE_SINK_FAULT);
            Ledger(cfg, t) && Finalized(s, t, status, selected)
  {
    hide RecordsOk, RecordsUpTo, RecordsBefore, RecordedDecisions;
    var pairs := RecordedDecisions(s.records);
    assert pairs + [] == pairs;
  }

  /** The record speaks of the traced request, and of the state and safe set the trace holds. */
  ghost predicate RecordOf(cfg: Config, trace: PendingTrace, record: DecisionRecord) {
    && record.decisionIndex == trace.index
    && record.rqid == trace.request.identity.rqid && record.requestDigest == trace.request.identity.digest
    && record.stateDigest == trace.stateDigest && record.safeSetDigest == trace.safeSetDigest
    && cfg.context.Some? && OfContext(record, cfg.context.value)
  }

  lemma AcceptedRecord(cfg: Config, s: Session, record: DecisionRecord, selected: Option<BattleSubmission>)
    requires Ledger(cfg, s) && s.pendingTrace.Some?
    requires RecordChecks(record) && RecordOf(cfg, s.pendingTrace.value, record) && record.selected == selected
    requires cfg.team.emit(s.calls)
    ensures var t := s.(pendingTrace := None, records := s.records + [record], emits := s.emits + [s.calls],
                        calls := s.calls + 1);
            Ledger(cfg, t) && Finalized(s, t, record.status, selected)
  {
    TraceOfLedger(cfg, s);
    LedgerAppend(cfg, s, record);
    PairsAppend(s.records, record);
    hide Ledger, RecordedDecisions, RecordChecks;
  }

  lemma NothingToFinalize(cfg: Config, s: Session, status: RecordStatus, selected: Option<BattleSubmission>)
    requires Ledger(cfg, s) && s.pendingTrace.None?
    ensures Finalized(s, s, status, selected)
  {
    hide RecordsOk, RecordedDecisions;
    var pairs := RecordedDecisions(s.records);
    assert pairs + [] == pairs;
  }

  /** Whichever way finalizing goes, the ledger stays sound and gains at most the record of the open trace. */
  lemma {:induction false} FinalizeKeeps(
    cfg: Config, s: Session, status: RecordStatus, code: Option<ErrorCode>, selected: Option<BattleSubmission>)
    requires Ledger(cfg, s) && MatrixRow(status, selected, code)
    ensures Ledger(cfg, Finalize(cfg, s, status, code, selected))
    ensures Finalized(s, Finalize(cfg, s, status, code, selected), status, selected)
  {
    hide MatrixRow, RecordChecks, Ledger, RecordedDecisions, Finalized, FirstError;
    if s.pendingTrace.None? {
      NothingToFinalize(cfg, s, status, selected);
    } else {
      TraceOfLedger(cfg, s);
      AttemptIsValid(cfg, s, status, code, selected);
      var record := MakeRecord(cfg.context.value, s.pendingTrace.value, status, code, selected);
      RecordOrSinkFailure(cfg, s, record, selected);
    }
  }

  lemma RecordOrSinkFailure(cfg: Config, s: Session, record: DecisionRecord, selected: Option<BattleSubmission>)
    requires Ledger(cfg, s) && s.pendingTrace.Some?
    requires RecordChecks(record) && RecordOf(cfg, s.pendingTrace.value, record) && record.selected == selected
    ensures var t := Concluded(cfg, s, record);
            Ledger(cfg, t) && Finalized(s, t, record.status, selected)
  {
    hide RecordChecks, Ledger, Finalized, FirstError;
    if cfg.team.emit(s.calls) {
      AcceptedRecord(cfg, s, record, selected);
    } else {
      FailedSink(cfg, s, record.status, selected);
    }
  }

  lemma TraceOfLedger(cfg: Config, s: Session)
    requires Ledger(cfg, s) && s.pendingTrace.Some?
    ensures TraceOk(cfg, s, s.pendingTrace.value) && !s.traceError && !s.recordError
  {}

  lemma FinalizeKeepsMid(
    cfg: Config, s: Session, status: RecordStatus, code: Option<ErrorCode>, selected: Option<BattleSubmission>)
    requires Mid(cfg, s) && MatrixRow(status, selected, code) && !status.Submitted?
    ensures Mid(cfg, Finalize(cfg, s, status, code, selected))
  {
    FinalizeKeeps(cfg, s, status, code, selected);
    hide StateOk, Ledger, Finalize, MatrixRow, LegalDispatch, RecordedDecisions, DeliveredDecisions, CountDecisions,
         SentOnce;
  }

  lemma FirstErrorKeepsMid(cfg: Config, s: Session, fault: Fault)
    requires Mid(cfg, s)
    ensures Mid(cfg, FirstError(s, fault))
    ensures FirstError(s, fault).primary.Some?
  {
    hide StateOk, RecordsOk, RecordedDecisions, DeliveredDecisions, CountDecisions, LegalDispatch, SentOnce;
  }

  lemma FailKeepsMid(
    cfg: Config, s: Session, fault: Fault, status: RecordStatus, code: ErrorCode, selected: Option<BattleSubmission>)
    requires Mid(cfg, s) && MatrixRow(status, selected, Some(code)) && !status.Submitted?
    ensures Mid(cfg, Finalize(cfg, FirstError(s, fault), status, Some(code), selected))
  {
    hide Mid, MatrixRow, Finalize, FirstError;
    FirstErrorKeepsMid(cfg, s, fault);
    FinalizeKeepsMid(cfg, FirstError(s, fault), status, Some(code), selected);
  }

  // ----- aborting -----

  lemma {:induction false} AbortKeeps(cfg: Config, s: Session, fault: Fault)
    requires Mid(cfg, s)
    ensures Inv(cfg, Abort(cfg, s, fault)) && Abort(cfg, s, fault).done
  {
    hide Mid, Finalize, FirstError, ParseCode;
    FirstErrorKeepsMid(cfg, s, fault);
    var failed := FirstError(s, fault);
    var code := AbortRecordCode(fault);
    var finalized := failed;
    if code.Some? {
      var freshness := code.value in {ReconciliationMismatch, StaleRqidCode};
      var status := if freshness then FreshnessInvalidated else SessionAborted;
      var written := if status.SessionAborted? then code else None;
      FinalizeKeepsMid(cfg, failed, status, written, None);
      FinalizePrimary(cfg, failed, status, written, None);
      finalized := Finalize(cfg, failed, status, written, None);
    }
    assert Abort(cfg, s, fault) == finalized.(pending := None, done := true);
    StopKeeps(cfg, finalized);
  }

  lemma FinalizePrimary(
    cfg: Config, s: Session, status: RecordStatus, code: Option<ErrorCode>, selected: Option<BattleSubmission>)
    ensures s.primary.Some? ==> Finalize(cfg, s, status, code, selected).primary == s.primary
  {}

  lemma StopKeeps(cfg: Config, s: Session)
    requires Mid(cfg, s) && (s.primary.Some? || s.state.winner.Some? || s.state.tied)
    ensures Inv(cfg, s.(pending := None, done := true))
  {
    hide StateOk, RecordsOk, RecordedDecisions, DeliveredDecisions, CountDecisions, LegalDispatch, SentOnce;
  }

  // ----- submitting -----

  /** A pending request the reconciler accepts now. */
  ghost predicate Answerable(cfg: Config, s: Session, request: DecisionRequest) {
    && Mid(cfg, s) && Unanswered(s) && Linked(cfg, s) && !s.done && s.primary.None?
    && s.pending == Some(request)
    && Reconcile(cfg.roomId, request, s.state, None).Accept?
  }

  /** A request the session may answer now, its trace brought up to the current state. */
  ghost predicate Ready(cfg: Config, s: Session, request: DecisionRequest) {
    && Answerable(cfg, s, request)
    && (s.pendingTrace.Some? ==> s.pendingTrace.value.stateDigest == StateDigest(s.state))
  }

  lemma {:induction false} WaitKeeps(cfg: Config, s: Session, request: DecisionRequest)
    requires Ready(cfg, s, request)
    ensures Inv(cfg, Finalize(cfg, s.(submitted := Some(request.identity), pending := None), WaitNoop, None, None))
  {
    hide StateOk, RecordsOk, RecordedDecisions, DeliveredDecisions, CountDecisions, LegalDispatch, SentOnce, Reconcile;
    var waited := s.(submitted := Some(request.identity), pending := None);
    FinalizeKeeps(cfg, waited, WaitNoop, None, None);
    hide Finalize;
  }

  lemma {:induction false} LoggedKeeps(
    cfg: Config, s: Session, request: DecisionRequest, choice: BattleSubmission, text: string)
    requires Ready(cfg, s, request) && !request.kind.Wait?
    requires choice in request.safe.submissions && cfg.team.encode(choice) == Ok(text)
    requires JustChosen(cfg, s, request, choice)
    ensures SentInv(cfg, Logged(cfg, s, request, choice, text))
  {
    hide StateOk, Ledger, Matched, Counted, Reconcile;
  }

  lemma FailedSendKeeps(cfg: Config, s: Session, request: DecisionRequest, choice: BattleSubmission, text: string)
    requires Ready(cfg, s, request) && !request.kind.Wait?
    requires choice in request.safe.submissions && cfg.team.encode(choice) == Ok(text)
    requires JustChosen(cfg, s, request, choice)
    requires !cfg.team.send(s.calls).Delivered?
    ensures Mid(cfg, Logged(cfg, s, request, choice, text))
  {
    hide SentInv, DeliveredDecisions, StateOk, RecordsOk, RecordedDecisions, CountDecisions, Reconcile;
    LoggedKeeps(cfg, s, request, choice, text);
    var d := Dispatch(request, choice, s.state, Choose(text, request.identity.rqid), false, s.calls);
    assert Logged(cfg, s, request, choice, text).sent == s.sent + [d];
    DeliveredAppend(s.sent, d);
    assert DeliveredDecisions(s.sent) + [] == DeliveredDecisions(s.sent);
  }

  lemma {:induction false} DeliveryCounts(
    cfg: Config, s: Session, request: DecisionRequest, choice: BattleSubmission, text: string)
    requires Counted(s) && cfg.team.send(s.calls).Delivered?
    ensures Counted(Sent(cfg, s, request, choice, text))
    ensures DeliveredDecisions(Sent(cfg, s, request, choice, text).sent)
         == DeliveredDecisions(s.sent) + [DecisionOf(request, s.state, choice)]
  {
    hide DeliveredDecisions, CountDecisions;
    var d := Dispatch(request, choice, s.state, Choose(text, request.identity.rqid), true, s.calls);
    DeliveredAppend(s.sent, d);
    assert Sent(cfg, s, request, choice, text).sent == s.sent + [d];
    CountAppend(DeliveredDecisions(s.sent), DecisionOf(request, s.state, choice), ExplicitRequest);
    CountAppend(DeliveredDecisions(s.sent), DecisionOf(request, s.state, choice), ServerDefault);
  }

  lemma {:induction false} SentLedger(
    cfg: Config, s: Session, request: DecisionRequest, choice: BattleSubmission, text: string)
    requires Ready(cfg, s, request) && SentInv(cfg, Logged(cfg, s, request, choice, text))
    ensures var t := Sent(cfg, s, request, choice, text);
            && StateOk(t.state) && SentInv(cfg, t) && FreshInv(t) && Ledger(cfg, t) && !t.done && t.primary.None?
            && GuardsSilent(t.notes)
            && !t.traceFailed && t.pending.None? && t.pendingTrace == s.pendingTrace && t.records == s.records
    ensures cfg.context.Some? ==>
              && s.pendingTrace.Some? && s.pendingTrace.value.request == request
              && TraceDecision(s.pendingTrace.value, choice) == DecisionOf(request, s.state, choice)
              && RecordedDecisions(s.records) == DeliveredDecisions(s.sent)
  {
    hide StateOk, RecordsOk, RecordedDecisions, DeliveredDecisions, CountDecisions, LegalDispatch, SentOnce, Reconcile,
         AllLegal, SentUpTo, RecordsUpTo, RecordsBefore;
  }

  lemma {:induction false} RecordedSend(cfg: Config, s: Session, choice: BattleSubmission, t: Session)
    requires StateOk(s.state) && SentInv(cfg, s) && FreshInv(s) && Ledger(cfg, t) && Counted(s)
    requires GuardsSilent(s.notes)
    requires !s.done && s.primary.None? && !s.traceFailed && s.pending.None?
    requires Finalized(s, t, Submitted, Some(choice))
    requires cfg.context.Some? ==>
               && s.pendingTrace.Some?
               && DeliveredDecisions(s.sent)
                 == RecordedDecisions(s.records) + [TraceDecision(s.pendingTrace.value, choice)]
    ensures Inv(cfg, t)
  {
    hide StateOk, RecordsOk, RecordedDecisions, DeliveredDecisions, CountDecisions, LegalDispatch, SentOnce, AllLegal,
         SentUpTo, RecordsUpTo, RecordsBefore, MissingFact;
    if cfg.context.Some? && t.traceFailed {
      var delivered := DeliveredDecisions(s.sent);
      assert delivered[..|delivered| - 1] == RecordedDecisions(s.records);
    }
  }

  lemma {:induction false} DeliveredKeeps(
    cfg: Config, s: Session, request: DecisionRequest, choice: BattleSubmission, text: string)
    requires Ready(cfg, s, request) && !request.kind.Wait?
    requires choice in request.safe.submissions && cfg.team.encode(choice) == Ok(text)
    requires JustChosen(cfg, s, request, choice)
    requires cfg.team.send(s.calls).Delivered?
    ensures Inv(cfg, SendChoice(cfg, s, request, choice, text).session)
  {
    hide Ready, Finalize, Finalized, SentInv, Ledger, Counted, StateOk, DeliveredDecisions, RecordedDecisions, FreshInv,
         Inv, Mid, SendChoice, Sent, Logged;
    LoggedKeeps(cfg, s, request, choice, text);
    SentLedger(cfg, s, request, choice, text);
    ReadyIsCounted(cfg, s, request);
    DeliveryCounts(cfg, s, request, choice, text);
    var counted := Sent(cfg, s, request, choice, text);
    SendIsRecordedSend(cfg, s, request, choice, text);
    FinalizeKeeps(cfg, counted, Submitted, None, Some(choice));
    RecordedSend(cfg, counted, choice, Finalize(cfg, counted, Submitted, None, Some(choice)));
  }

  lemma SendIsRecordedSend(cfg: Config, s: Session, request: DecisionRequest, choice: BattleSubmission, text: string)
    requires cfg.team.send(s.calls).Delivered?
    ensures SendChoice(cfg, s, request, choice, text)
         == Returns(Finalize(cfg, Sent(cfg, s, request, choice, text), Submitted, None, Some(choice)))
  {
    hide Finalize;
  }

  lemma ReadyIsCounted(cfg: Config, s: Session, request: DecisionRequest)
    requires Ready(cfg, s, request)
    ensures Counted(s)
  {}

  lemma {:induction false} SendKeeps(
    cfg: Config, s: Session, request: DecisionRequest, choice: BattleSubmission, text: string)
    requires Ready(cfg, s, request) && !request.kind.Wait?
    requires choice in request.safe.submissions && cfg.team.encode(choice) == Ok(text)
    requires JustChosen(cfg, s, request, choice)
    ensures FlowOk(cfg, SendChoice(cfg, s, request, choice, text))
  {
    hide Ready, Mid, Inv, Finalize, FirstError, Count;
    match cfg.team.send(s.calls)
    case Delivered =>
      DeliveredKeeps(cfg, s, request, choice, text);
      InvIsMid(cfg, SendChoice(cfg, s, request, choice, text).session);
    case RefusedInvalid =>
      FailedSendKeeps(cfg, s, request, choice, text);
      FailKeepsMid(cfg, Logged(cfg, s, request, choice, text), INVALID_CHOICE_FAULT, SendFailed, ServerInvalidChoice,
                   Some(choice));
    case RefusedUnavailable =>
      FailedSendKeeps(cfg, s, request, choice, text);
      FailKeepsMid(cfg, Logged(cfg, s, request, choice, text), UNAVAILABLE_CHOICE_FAULT, SendFailed,
                   ServerUnavailableChoice, Some(choice));
    case SendRaises(fault) =>
      FailedSendKeeps(cfg, s, request, choice, text);
      FailKeepsMid(cfg, Logged(cfg, s, request, choice, text), fault, SendFailed, SendingFailed, Some(choice));
  }

  lemma InvIsMid(cfg: Config, s: Session)
    requires Inv(cfg, s)
    ensures Mid(cfg, s)
  {}

  lemma CallKeepsReady(cfg: Config, s: Session, request: DecisionRequest, calls: nat)
    requires Ready(cfg, s, request) && s.calls <= calls
    ensures Ready(cfg, s.(calls := calls), request)
  {
    hide StateOk, RecordsOk, RecordedDecisions, DeliveredDecisions, CountDecisions, LegalDispatch, SentOnce, Reconcile;
  }

  lemma ReadyIsMid(cfg: Config, s: Session, request: DecisionRequest)
    requires Ready(cfg, s, request)
    ensures Mid(cfg, s)
  {}

  /** The gate's identity guard never fires. */
  lemma ReadyIdentity(cfg: Config, s: Session, request: DecisionRequest)
    requires Ready(cfg, s, request)
    ensures request.identity == request.safe.identity
  {
    hide Mid, Unanswered, Linked;
    AcceptedRequest(cfg.roomId, request, s.state, None);
  }

  lemma {:induction false} ChoiceKeeps(cfg: Config, s: Session, request: DecisionRequest, candidate: BattleSubmission)
    requires Ready(cfg, s, request) && !request.kind.Wait? && JustChosen(cfg, s, request, candidate)
    ensures FlowOk(cfg, SubmitChoice(cfg, s, request, candidate))
  {
    hide Ready, Mid, Inv, Finalize, FirstError, SendChoice;
    ReadyIsMid(cfg, s, request);
    ReadyIdentity(cfg, s, request);
    match Authorize(candidate, request.identity, request.safe)
    case Err(_) =>
      var note := ChosenOutside(request, s.state, s.calls, candidate);
      NoteKeepsMid(cfg, s, note);
      FailKeepsMid(cfg, s.(notes := s.notes + [note]), GATE_FAULT, ActionGateRejected, LocalActionGateRejection,
                   Some(candidate));
    case Ok(choice) =>
      match cfg.team.encode(choice)
      case Err(fault) =>
        var note := Unencodable(request, s.state, s.calls, choice);
        NoteKeepsMid(cfg, s, note);
        FailKeepsMid(cfg, s.(notes := s.notes + [note]), fault, CommandEncodingFailed, EncodingFailed, Some(choice));
      case Ok(text) => SendKeeps(cfg, s, request, choice, text);
  }

  lemma {:induction false} SubmitKeeps(cfg: Config, s: Session, request: DecisionRequest)
    requires Ready(cfg, s, request)
    ensures FlowOk(cfg, Submit(cfg, s, request))
  {
    hide Ready, Mid, Inv, Finalize, FirstError, SubmitChoice;
    ReadyIsUnsubmitted(cfg, s, request);
    ReadyIsMid(cfg, s, request);
    if request.kind.Wait? {
      WaitKeeps(cfg, s, request);
      InvIsMid(cfg, Submit(cfg, s, request).session);
    } else {
      CallKeepsReady(cfg, s, request, s.calls + 1);
      ReadyIsMid(cfg, s.(calls := s.calls + 1), request);
      match cfg.team.policy(s.calls, request)
      case NoLegalAction =>
        var asked := s.(calls := s.calls + 1);
        var note := NothingChosen(request, s.state, asked.calls);
        NoteKeepsMid(cfg, asked, note);
        FailKeepsMid(cfg, asked.(notes := s.notes + [note]), NO_LEGAL_ACTION_FAULT, PolicyRejected,
                     NoLegalActionAvailable, None);
      case PolicyRaises(_) =>
      case Chosen(candidate) => ChoiceKeeps(cfg, s.(calls := s.calls + 1), request, candidate);
    }
  }

  /** The already-submitted guard of `_submit` never fires. */
  lemma ReadyIsUnsubmitted(cfg: Config, s: Session, request: DecisionRequest)
    requires Ready(cfg, s, request)
    ensures s.submitted != Some(request.identity)
  {
    hide StateOk, Ledger, Matched, Counted, SentInv, Reconcile;
  }

  // ----- reconciling -----

  /** A running session about to reconsider its pending request. */
  ghost predicate Awake(cfg: Config, s: Session) {
    Mid(cfg, s) && Unanswered(s) && Linked(cfg, s) && !s.done && s.primary.None?
  }

  lemma RefreshKeeps(cfg: Config, s: Session, request: DecisionRequest)
    requires Answerable(cfg, s, request)
    ensures Mid(cfg, RefreshTrace(cfg, s).session)
    ensures RefreshTrace(cfg, s).raised.None? ==> Ready(cfg, RefreshTrace(cfg, s).session, request)
  {
    hide StateOk, RecordsOk, RecordedDecisions, DeliveredDecisions, CountDecisions, LegalDispatch, SentOnce, Reconcile;
  }

  lemma AwakeIsMid(cfg: Config, s: Session)
    requires Awake(cfg, s)
    ensures Mid(cfg, s)
    ensures !(s.pending.Some? && !MissingFact(s.state, s.pending.value)) ==> Inv(cfg, s)
  {
    hide StateOk, Ledger, Matched, Counted, SentInv, FreshInv, MissingFact;
  }

  /** The request being retried is newer than anything answered before it. */
  lemma NeverStale(cfg: Config, s: Session)
    requires FreshInv(s) && s.pending.Some?
    ensures Reconcile(cfg.roomId, s.pending.value, s.state, SubmittedRqid(s)) != Reject(StaleRqid)
  {
    hide KindsAllowed, HasDefault, OrdersCoverTeam, ReconcileActive, TierMatches;
    ActiveNeverStale(s.pending.value, s.state.p1);
    ActiveNeverStale(s.pending.value, s.state.p2);
  }

  lemma ActiveNeverStale(request: DecisionRequest, own: SideView)
    ensures ReconcileActive(request, own) != Reject(StaleRqid)
  {}

  lemma RejectKeeps(cfg: Config, s: Session, note: Note)
    requires Mid(cfg, s) && !GuardFired(note)
    ensures Mid(cfg, RejectPending(cfg, s, note).session)
  {
    NoteKeepsMid(cfg, s, note);
    hide Mid, FirstError, Finalize;
    FailKeepsMid(cfg, s.(notes := s.notes + [note]), MISMATCH_FAULT, ReconciliationRejected, ReconciliationMismatch,
                 None);
  }

  lemma NoteKeepsMid(cfg: Config, s: Session, note: Note)
    requires Mid(cfg, s) && !GuardFired(note)
    ensures Mid(cfg, s.(notes := s.notes + [note]))
  {
    hide StateOk, RecordsOk, RecordedDecisions, DeliveredDecisions, CountDecisions, LegalDispatch, SentOnce;
  }

  lemma {:induction false} RetryKeeps(cfg: Config, s: Session, strict: bool)
    requires Awake(cfg, s)
    ensures FlowOk(cfg, Retry(cfg, s, strict))
    ensures strict && Retry(cfg, s, strict).raised.None? ==> Retry(cfg, s, strict).session.pending.None?
  {
    AwakeIsMid(cfg, s);
    if s.pending.Some? {
      var request := s.pending.value;
      PendingMeansMissing(cfg.roomId, request, s.state, SubmittedRqid(s));
      AcceptWithoutRqid(cfg.roomId, request, s.state, SubmittedRqid(s));
      NeverStale(cfg, s);
      hide Mid, Inv, Finalize, FirstError, Reconcile, Submit, RefreshTrace, MissingFact, RejectPending;
      var verdict := Reconcile(cfg.roomId, request, s.state, SubmittedRqid(s));
      if verdict.Reject? {
        RejectKeeps(cfg, s, Rejection(request, s.state, SubmittedRqid(s), verdict.reason));
      } else if verdict.Pending? {
        RejectKeeps(cfg, s, Overdue(request, s.state, SubmittedRqid(s), verdict.waitsFor));
      } else if Reconcile(cfg.roomId, request, s.state, SubmittedRqid(s)).Accept? {
        RefreshKeeps(cfg, s, request);
        var refreshed := RefreshTrace(cfg, s);
        if refreshed.raised.None? {
          SubmitKeeps(cfg, refreshed.session, request);
          SubmitClears(cfg, refreshed.session, request);
        }
      }
    }
  }

  lemma FinalizeKeepsPending(
    cfg: Config, s: Session, status: RecordStatus, code: Option<ErrorCode>, selected: Option<BattleSubmission>)
    ensures Finalize(cfg, s, status, code, selected).pending == s.pending
  {}

  lemma SendClears(cfg: Config, s: Session, request: DecisionRequest, choice: BattleSubmission, text: string)
    ensures var f := SendChoice(cfg, s, request, choice, text); f.raised.None? ==> f.session.pending.None?
  {
    hide Finalize, FirstError, Count;
    FinalizeKeepsPending(cfg, Sent(cfg, s, request, choice, text), Submitted, None, Some(choice));
  }

  lemma {:induction false} SubmitClears(cfg: Config, s: Session, request: DecisionRequest)
    ensures Submit(cfg, s, request).raised.None? ==> Submit(cfg, s, request).session.pending.None?
  {
    hide Finalize, FirstError, SendChoice;
    FinalizeKeepsPending(cfg, s.(submitted := Some(request.identity), pending := None), WaitNoop, None, None);
    if cfg.team.policy(s.calls, request).Chosen? {
      var choice := cfg.team.policy(s.calls, request).submission;
      if cfg.team.encode(choice).Ok? {
        SendClears(cfg, s.(calls := s.calls + 1), request, choice, cfg.team.encode(choice).value);
      }
    }
  }

  // ----- requests -----

  lemma {:induction false} OpenTraceKeeps(cfg: Config, s: Session, request: DecisionRequest)
    requires Mid(cfg, s) && Unanswered(s) && s.pending == Some(request) && s.pendingTrace.None?
    requires request.identity == request.safe.identity
    requires RecordsBefore(s.records, request.identity.rqid)
    requires s.done ==> s.traceFailed
    requires !s.done ==> s.primary.None?
    ensures var f := OpenTrace(cfg, s, request);
            && Mid(cfg, f.session)
            && (f.raised.None? ==>
                  f.session.done == s.done && (if s.done then f.session == s else Awake(cfg, f.session)))
  {
    hide StateOk, RecordsOk, RecordedDecisions, DeliveredDecisions, CountDecisions, LegalDispatch, SentOnce;
  }

  lemma SupersedeKeeps(cfg: Config, s: Session, request: DecisionRequest)
    requires Inv(cfg, s) && !s.done && CheckFreshness(s, request.identity).Fresh?
    ensures var t := Finalize(cfg, s, SupersededBeforeSelection, None, None)
                     .(latest := Some(request.identity), pending := Some(request));
            && Mid(cfg, t) && Unanswered(t) && t.pendingTrace.None?
            && RecordsBefore(t.records, request.identity.rqid)
            && (t.done ==> t.traceFailed && t.primary.Some?) && (!t.done ==> t.primary.None?)
  {
    hide StateOk, RecordsOk, RecordedDecisions, DeliveredDecisions, CountDecisions, LegalDispatch, SentOnce,
         MissingFact;
    FinalizeKeeps(cfg, s, SupersededBeforeSelection, None, None);
    hide Finalize;
  }

  lemma DeadKeeps(cfg: Config, s: Session)
    requires Mid(cfg, s) && Unanswered(s) && s.done && s.primary.Some?
    ensures Inv(cfg, s)
  {
    hide Mid, Unanswered;
  }

  lemma {:induction false} OpenedKeeps(cfg: Config, s: Session, request: DecisionRequest)
    requires Mid(cfg, s) && Unanswered(s) && s.pending == Some(request) && s.pendingTrace.None?
    requires request.identity == request.safe.identity
    requires RecordsBefore(s.records, request.identity.rqid)
    requires s.done ==> s.traceFailed && s.primary.Some?
    requires !s.done ==> s.primary.None?
    ensures var traced := OpenTrace(cfg, s, request);
            FlowOk(cfg, if traced.raised.Some? || traced.session.done then traced
                        else Retry(cfg, traced.session, false))
  {
    hide Mid, Inv, Unanswered, OpenTrace, Retry, Awake, RecordsBefore;
    OpenTraceKeeps(cfg, s, request);
    var traced := OpenTrace(cfg, s, request);
    if traced.raised.None? {
      if traced.session.done {
        DeadKeeps(cfg, s);
      } else {
        RetryKeeps(cfg, traced.session, false);
      }
    }
  }

  lemma {:induction false} RequestKeeps(cfg: Config, s: Session, request: DecisionRequest)
    requires Inv(cfg, s) && !s.done && request.identity == request.safe.identity
    ensures FlowOk(cfg, ProcessRequest(cfg, s, request))
  {
    InvIsMid(cfg, s);
    if CheckFreshness(s, request.identity).Fresh? {
      SupersedeKeeps(cfg, s, request);
      hide Mid, Inv, Unanswered, Finalize, OpenTrace, Retry, CheckFreshness, FlowOk, RecordsBefore;
      OpenedKeeps(cfg, Finalize(cfg, s, SupersededBeforeSelection, None, None)
                       .(latest := Some(request.identity), pending := Some(request)), request);
    } else {
      hide Mid, Inv;
    }
  }

  // ----- events -----

  lemma NewStateKeeps(cfg: Config, s: Session, state: ObservedState)
    requires Inv(cfg, s) && !s.done && StateOk(state)
    ensures Awake(cfg, s.(state := state))
  {
    hide StateOk, RecordsOk, RecordedDecisions, DeliveredDecisions, CountDecisions, LegalDispatch, SentOnce;
  }

  lemma {:induction false} EndKeeps(cfg: Config, s: Session)
    requires Awake(cfg, s) && (s.state.winner.Some? || s.state.tied)
    ensures Inv(cfg, Finalize(cfg, s, TerminallyDiscarded, None, None).(pending := None, done := true))
  {
    AwakeIsMid(cfg, s);
    FinalizeKeepsMid(cfg, s, TerminallyDiscarded, None, None);
    FinalizeKeepsState(cfg, s, TerminallyDiscarded, None, None);
    hide Mid, Finalize, Awake;
    StopKeeps(cfg, Finalize(cfg, s, TerminallyDiscarded, None, None));
  }

  lemma FinalizeKeepsState(
    cfg: Config, s: Session, status: RecordStatus, code: Option<ErrorCode>, selected: Option<BattleSubmission>)
    ensures Finalize(cfg, s, status, code, selected).state == s.state
  {}

  /** What the reducer does to the facts a session watches. */
  lemma ObservedEvent(state: ObservedState, body: EventBody)
    requires Reduce(state, state.eventIndex + 1, body).Ok?
    ensures var after := Reduce(state, state.eventIndex + 1, body).value;
            && (body.BattleWon? ==> after.winner.Some?) && (body.BattleTied? ==> after.tied)
            && (body.BattleStarted? ==> after.battleStarted)
  {
    hide SwitchIn, ChangeHealth, CureTeam, SwapBoosts, CopyBoosts, ChangeIdentity, EditActive, ClearActiveBoosts,
         ChangeCondition, EvidenceFor, Without;
  }

  lemma StillMissing(state: ObservedState, body: EventBody, request: DecisionRequest)
    requires Reduce(state, state.eventIndex + 1, body).Ok? && !RetryEvent(body)
    requires MissingFact(state, request)
    ensures MissingFact(Reduce(state, state.eventIndex + 1, body).value, request)
  {
    hide Reduce, HasActive, RetryEvent;
    FactsAppearOnRetryEvents(state, state.eventIndex + 1, body);
  }

  lemma {:induction false} EventKeeps(cfg: Config, s: Session, body: EventBody)
    requires Inv(cfg, s) && !s.done
    requires Reduce(s.state, s.state.eventIndex + 1, body).Ok?
    ensures FlowOk(cfg, AfterEvent(cfg, s.(state := Reduce(s.state, s.state.eventIndex + 1, body).value), body))
  {
    hide Reduce, StateOk, Mid, Awake, Retry, Finalize, MissingFact, RetryEvent;
    var state := Reduce(s.state, s.state.eventIndex + 1, body).value;
    InvIsStateOk(cfg, s);
    ReduceKeeps(s.state, s.state.eventIndex + 1, body);
    ObservedEvent(s.state, body);
    NewStateKeeps(cfg, s, state);
    var t := s.(state := state);
    if body.BattleWon? || body.BattleTied? {
      EndKeeps(cfg, t);
      hide Inv;
      InvIsMid(cfg, AfterEvent(cfg, t, body).session);
    } else if s.pending.Some? && (body.TurnStarted? || RetryEvent(body)) {
      hide Inv;
      RetryKeeps(cfg, t, true);
      RetryKeeps(cfg, t, body.BattleStarted?);
    } else {
      if s.pending.Some? {
        StillMissing(s.state, body, s.pending.value);
      }
      AwakeIsMid(cfg, t);
    }
  }

  lemma InvIsStateOk(cfg: Config, s: Session)
    requires Inv(cfg, s)
    ensures StateOk(s.state)
  {}

  lemma {:induction false} TimerKeeps(cfg: Config, s: Session, body: TimerBody)
    requires Inv(cfg, s) && !s.done
    requires Reduce(s.state, s.state.eventIndex + 1, body).Ok?
    ensures Inv(cfg, s.(state := Reduce(s.state, s.state.eventIndex + 1, body).value))
  {
    EventKeeps(cfg, s, body);
    hide Inv, Reduce;
  }

  lemma ControlKeeps(cfg: Config, s: Session)
    requires Inv(cfg, s)
    ensures Inv(cfg, s.(controlCount := s.controlCount + 1))
  {
    hide StateOk, RecordsOk, RecordedDecisions, DeliveredDecisions, CountDecisions, LegalDispatch, SentOnce,
         MissingFact;
  }

  // ----- lines and runs -----

  lemma {:induction false} LineKeeps(cfg: Config, s: Session, payload: Payload)
    requires Inv(cfg, s) && !s.done
    requires payload.RequestLine? && payload.read.Ok? ==>
               payload.read.value.identity == payload.read.value.safe.identity
    ensures FlowOk(cfg, ProcessLine(cfg, s, payload))
  {
    hide Inv, Mid, AfterEvent, ProcessRequest, Reduce;
    InvIsMid(cfg, s);
    match payload
    case BattleLine(_, parsed) =>
      if parsed.Ok? && Reduce(s.state, s.state.eventIndex + 1, parsed.value).Ok? {
        EventKeeps(cfg, s, parsed.value);
      }
    case RequestLine(read) => if read.Ok? { RequestKeeps(cfg, s, read.value); }
    case TimerLine(timer) =>
      if timer.Ok? && Reduce(s.state, s.state.eventIndex + 1, timer.value).Ok? {
        TimerKeeps(cfg, s, timer.value);
        InvIsMid(cfg, ProcessLine(cfg, s, payload).session);
      }
    case ControlOrChat =>
      ControlKeeps(cfg, s);
      InvIsMid(cfg, ProcessLine(cfg, s, payload).session);
    case _ =>
  }

  /** Every line, stream fault and collaborator failure leaves the invariant standing. */
  lemma {:induction false} StepKeeps(cfg: Config, s: Session, item: StreamItem)
    requires Inv(cfg, s) && !s.done && Coherent(item)
    ensures Inv(cfg, Step(cfg, s, item))
  {
    hide Inv, Mid, ProcessLine, Abort;
    InvIsMid(cfg, s);
    match item
    case StreamFault(fault) => AbortKeeps(cfg, s, fault);
    case Line(line) =>
      if line.roomId == Some(cfg.roomId) {
        LineKeeps(cfg, s, line.payload);
        var flow := ProcessLine(cfg, s, line.payload);
        if flow.raised.Some? {
          AbortKeeps(cfg, flow.session, flow.raised.value);
        }
      }
  }

  lemma {:induction false} RunKeeps(cfg: Config, s: Session, items: seq<StreamItem>)
    requires Inv(cfg, s)
    requires forall i :: 0 <= i < |items| ==> Coherent(items[i])
    ensures Inv(cfg, Run(cfg, s, items))
    decreases |items|
  {
    hide Inv, Step;
    if items != [] && !s.done {
      StepKeeps(cfg, s, items[0]);
      assert forall i :: 0 <= i < |items[1..]| ==> items[1..][i] == items[i + 1];
      RunKeeps(cfg, Step(cfg, s, items[0]), items[1..]);
    }
  }
}
