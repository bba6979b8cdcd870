/** Which terminal record the open request gets, by what ended it; the sink accepts every record here. */
module SessionDispositions {
  import opened Basics
  import opened ObservedStates
  import opened ReducerInvariants
  import opened RosterKeys
  import opened Submissions
  import opened Reconciler
  import opened DecisionRecords
  import opened SessionModel
  import opened SessionInvariants
  import opened SessionEffects
  import opened SessionTheorems

  ghost predicate SinkWorks(cfg: Config) {
    forall n: nat :: cfg.team.emit(n)
  }

  /** The request open in `s` got its terminal record, of this status and with this error code, by the time of `t`. */
  ghost predicate Disposed(s: Session, t: Session, status: RecordStatus, code: Option<ErrorCode>) {
    && s.pendingTrace.Some? && |s.records| < |t.records| && s.records <= t.records
    && var r := t.records[|s.records|];
       && r.status == status && r.errorCode == code && r.rqid == s.pendingTrace.value.request.identity.rqid
       && r.requestDigest == s.pendingTrace.value.request.identity.digest
       && r.safeSetDigest == s.pendingTrace.value.safeSetDigest
  }

  lemma FinalizeWrites(
    cfg: Config, s: Session, status: RecordStatus, code: Option<ErrorCode>, selected: Option<BattleSubmission>)
    requires Ledger(cfg, s) && s.pendingTrace.Some? && SinkWorks(cfg) && MatrixRow(status, selected, code)
    ensures Disposed(s, Finalize(cfg, s, status, code, selected), status, code)
    ensures Finalize(cfg, s, status, code, selected).done == s.done
    ensures var r := Finalize(cfg, s, status, code, selected).records[|s.records|];
            r.stateDigest == s.pendingTrace.value.stateDigest && r.selected == selected
  {
    AttemptIsValid(cfg, s, status, code, selected);
    TraceOfLedger(cfg, s);
    hide Ledger, RecordChecks, MatrixRow, FirstError;
  }

  lemma DisposedLater(s: Session, t: Session, u: Session, status: RecordStatus, code: Option<ErrorCode>)
    requires Disposed(s, t, status, code) && Grew(t, u)
    ensures Disposed(s, u, status, code)
  {
    hide Explained;
  }

  lemma OpenLedger(cfg: Config, s: Session, fault: Fault)
    requires Inv(cfg, s)
    ensures Ledger(cfg, s) && Ledger(cfg, FirstError(s, fault)) && FirstError(s, fault).pendingTrace == s.pendingTrace
    ensures FirstError(s, fault).records == s.records && Current(s)
  {
    InvIsCurrent(cfg, s);
    LedgerFacts(cfg, s);
    LedgerOfFirst(cfg, s, fault);
    hide Ledger, Inv;
  }

  /** A newer request supersedes the open one, whatever then becomes of the newer one. */
  lemma {:induction false} NewerRequestSupersedes(cfg: Config, s: Session, request: DecisionRequest)
    requires Inv(cfg, s) && s.pendingTrace.Some? && SinkWorks(cfg)
    requires Newer(s.latest, request.identity)
    ensures Disposed(s, ProcessRequest(cfg, s, request).session, SupersededBeforeSelection, None)
  {
    hide Inv, Ledger, Finalize, OpenTrace, Retry, CheckFreshness, Disposed, Effects, Grew, Current, SinkWorks,
         FirstError;
    OpenLedger(cfg, s, STALE_FAULT);
    FinalizeWrites(cfg, s, SupersededBeforeSelection, None, None);
    var t := Finalize(cfg, s, SupersededBeforeSelection, None, None)
             .(latest := Some(request.identity), pending := Some(request));
    FinalizeEndsTrace(cfg, s, SupersededBeforeSelection, None, None);
    SameDisposition(s, Finalize(cfg, s, SupersededBeforeSelection, None, None), t, SupersededBeforeSelection, None);
    OpenEffects(cfg, t, request);
    var traced := OpenTrace(cfg, t, request).session;
    RetryEffects(cfg, traced, false);
    EffectsGrow(cfg, traced, Retry(cfg, traced, false).session);
    DisposedLater(s, t, traced, SupersededBeforeSelection, None);
    DisposedLater(s, traced, Retry(cfg, traced, false).session, SupersededBeforeSelection, None);
  }

  lemma SameDisposition(s: Session, t: Session, u: Session, status: RecordStatus, code: Option<ErrorCode>)
    requires Disposed(s, t, status, code) && u.records == t.records
    ensures Disposed(s, u, status, code)
  {}

  lemma EffectsGrow(cfg: Config, s: Session, t: Session)
    requires Effects(cfg, s, t)
    ensures Grew(s, t)
  {
    hide Grew;
  }

  /** An abort gives the open request its terminal record if and only if the fault carries an abort or freshness code:
      invalidated for a freshness code, aborted with the code for an abort code. */
  lemma {:induction false} AbortDisposesIffCoded(cfg: Config, s: Session, fault: Fault)
    requires Mid(cfg, s) && s.pendingTrace.Some? && SinkWorks(cfg)
    ensures var code, t := AbortRecordCode(fault), Abort(cfg, s, fault);
            && t.done
            && (code.Some? <==> t.records != s.records)
            && (code.Some? ==> if code.value == ReconciliationMismatch || code.value == StaleRqidCode
                               then Disposed(s, t, FreshnessInvalidated, None)
                               else Disposed(s, t, SessionAborted, code))
  {
    MidLedger(cfg, s);
    LedgerOfFirst(cfg, s, fault);
    FirstErrorLogs(s, fault);
    CodedRow(fault);
    var failed := FirstError(s, fault);
    var code := AbortRecordCode(fault);
    hide Mid, Ledger, Finalize, FirstError, AbortRecordCode, MatrixRow;
    if code.Some? {
      var freshness := code.value == ReconciliationMismatch || code.value == StaleRqidCode;
      var status := if freshness then FreshnessInvalidated else SessionAborted;
      var written := if freshness then None else code;
      FinalizeWrites(cfg, failed, status, written, None);
    }
  }

  lemma MidLedger(cfg: Config, s: Session)
    requires Mid(cfg, s)
    ensures Ledger(cfg, s)
  {}

  /** An older or altered request ends the session and invalidates the open one; a repeated request changes nothing. */
  lemma {:induction false} StaleRequestInvalidates(cfg: Config, s: Session, request: DecisionRequest)
    requires Inv(cfg, s) && s.pendingTrace.Some? && SinkWorks(cfg)
    requires !Newer(s.latest, request.identity)
    ensures var f := ProcessRequest(cfg, s, request);
            if Repeats(s.latest, request.identity) then f == Returns(s)
            else f.session == s && f.raised.Some?
                 && Disposed(s, Abort(cfg, s, f.raised.value), FreshnessInvalidated, None)
  {
    hide Inv, Mid, Abort, Disposed, CheckFreshness, Finalize, OpenTrace, Retry;
    InvIsMid(cfg, s);
    AbortDisposesIffCoded(cfg, s, STALE_FAULT);
    AbortDisposesIffCoded(cfg, s, MISMATCH_FAULT);
    FreshnessFaults();
  }

  lemma FreshnessFaults()
    ensures AbortRecordCode(STALE_FAULT) == Some(StaleRqidCode)
    ensures AbortRecordCode(MISMATCH_FAULT) == Some(ReconciliationMismatch)
  {
    ParseOfText(StaleRqidCode);
    ParseOfText(ReconciliationMismatch);
    hide ParseCode;
  }

  /** The end of the battle discards the open request. */
  lemma {:induction false} BattleEndDiscards(cfg: Config, s: Session, body: EventBody)
    requires Inv(cfg, s) && s.pendingTrace.Some? && SinkWorks(cfg) && (body.BattleWon? || body.BattleTied?)
    ensures var f := AfterEvent(cfg, s, body);
            f.raised.None? && f.session.done && Disposed(s, f.session, TerminallyDiscarded, None)
  {
    hide Inv, Ledger, Finalize, Retry, RetryEvent, Current, SinkWorks, FirstError;
    OpenLedger(cfg, s, STALE_FAULT);
    FinalizeWrites(cfg, s, TerminallyDiscarded, None, None);
  }

  /** A request the reconciler refuses, or that is still unanswerable when it must be, is recorded as rejected. */
  lemma {:induction false} RefusedRequest(cfg: Config, s: Session, strict: bool)
    requires Inv(cfg, s) && s.pending.Some? && s.pendingTrace.Some? && SinkWorks(cfg)
    ensures var verdict, f := Reconcile(cfg.roomId, s.pending.value, s.state, SubmittedRqid(s)), Retry(cfg, s, strict);
            && (verdict.Reject? || (verdict.Pending?
                                    && (strict || (s.state.battleStarted && !verdict.waitsFor.ActiveUnknown?))) ==>
                  Disposed(s, f.session, ReconciliationRejected, Some(ReconciliationMismatch)))
            && (verdict.Pending? && !strict && (!s.state.battleStarted || verdict.waitsFor.ActiveUnknown?) ==>
                  f == Returns(s))
  {
    OpenLedger(cfg, s, MISMATCH_FAULT);
    var verdict := Reconcile(cfg.roomId, s.pending.value, s.state, SubmittedRqid(s));
    if verdict.Reject? {
      RejectionDisposes(cfg, s, Rejection(s.pending.value, s.state, SubmittedRqid(s), verdict.reason));
    }
    if verdict.Pending? {
      RejectionDisposes(cfg, s, Overdue(s.pending.value, s.state, SubmittedRqid(s), verdict.waitsFor));
    }
    hide Inv, Ledger, RejectPending, Reconcile, Submit, RefreshTrace, Disposed;
  }

  lemma RejectionDisposes(cfg: Config, s: Session, note: Note)
    requires Ledger(cfg, s) && s.pendingTrace.Some? && SinkWorks(cfg)
    ensures Disposed(s, RejectPending(cfg, s, note).session, ReconciliationRejected, Some(ReconciliationMismatch))
  {
    var noted := s.(notes := s.notes + [note]);
    NotedLedger(cfg, s, note);
    LedgerOfFirst(cfg, noted, MISMATCH_FAULT);
    FirstErrorLogs(noted, MISMATCH_FAULT);
    FirstErrorTrace(noted, MISMATCH_FAULT);
    hide Ledger, Finalize, FirstError;
    FinalizeWrites(cfg, FirstError(noted, MISMATCH_FAULT), ReconciliationRejected, Some(ReconciliationMismatch), None);
  }

  lemma FirstErrorTrace(s: Session, fault: Fault)
    ensures FirstError(s, fault).pendingTrace == s.pendingTrace
  {}

  lemma NotedLedger(cfg: Config, s: Session, note: Note)
    requires Ledger(cfg, s)
    ensures Ledger(cfg, s.(notes := s.notes + [note]))
  {
    hide RecordsOk, RecordsUpTo, RecordsBefore;
  }

  /** How answering a request ends: the status its collaborators' behaviour calls for, and its error code. */
  function AnswerStatus(cfg: Config, s: Session, request: DecisionRequest): Option<(RecordStatus, Option<ErrorCode>)> {
    if request.kind.Wait? then Some((WaitNoop, None)) else
    match cfg.team.policy(s.calls, request)
    case PolicyRaises(_) => None
    case NoLegalAction => Some((PolicyRejected, Some(NoLegalActionAvailable)))
    case Chosen(choice) =>
      if choice !in request.safe.submissions then Some((ActionGateRejected, Some(LocalActionGateRejection)))
      else if cfg.team.encode(choice).Err? then Some((CommandEncodingFailed, Some(EncodingFailed)))
      else match cfg.team.send(s.calls + 1)
        case Delivered => Some((Submitted, None))
        case RefusedInvalid => Some((SendFailed, Some(ServerInvalidChoice)))
        case RefusedUnavailable => Some((SendFailed, Some(ServerUnavailableChoice)))
        case SendRaises(_) => Some((SendFailed, Some(SendingFailed)))
  }

  lemma ReadyLedger(cfg: Config, s: Session, request: DecisionRequest)
    requires Ready(cfg, s, request) && cfg.context.Some?
    ensures Ledger(cfg, s) && s.pendingTrace.Some? && s.submitted != Some(request.identity)
    ensures request.identity == request.safe.identity
  {
    ReadyIsUnsubmitted(cfg, s, request);
    ReadyIdentity(cfg, s, request);
    hide StateOk, Ledger, Matched, Counted, SentInv, FreshInv, Reconcile;
  }

  lemma FailDisposes(
    cfg: Config, s: Session, t: Session, fault: Fault, status: RecordStatus, code: ErrorCode,
    selected: Option<BattleSubmission>)
    requires Ledger(cfg, s) && s.pendingTrace.Some? && SinkWorks(cfg) && MatrixRow(status, selected, Some(code))
    requires t == s.(sent := t.sent, calls := t.calls, notes := t.notes)
    requires s.calls <= t.calls
    ensures Disposed(s, Finalize(cfg, FirstError(t, fault), status, Some(code), selected), status, Some(code))
  {
    CallLedger(cfg, s, t);
    LedgerOfFirst(cfg, t, fault);
    FirstErrorLogs(t, fault);
    FirstErrorTrace(t, fault);
    hide Ledger, Finalize, FirstError, MatrixRow;
    FinalizeWrites(cfg, FirstError(t, fault), status, Some(code), selected);
  }

  lemma CallLedger(cfg: Config, s: Session, t: Session)
    requires Ledger(cfg, s)
    requires t == s.(sent := t.sent, calls := t.calls, submitted := t.submitted, pending := t.pending,
                     explicitCount := t.explicitCount, defaultCount := t.defaultCount, notes := t.notes)
    requires s.calls <= t.calls
    ensures Ledger(cfg, t)
  {
    hide RecordsOk, RecordsUpTo, RecordsBefore;
  }

  lemma SendDisposes(cfg: Config, s: Session, request: DecisionRequest, choice: BattleSubmission, text: string)
    requires Ledger(cfg, s) && s.pendingTrace.Some? && SinkWorks(cfg)
    ensures var t := SendChoice(cfg, s, request, choice, text).session;
            match cfg.team.send(s.calls)
            case Delivered => Disposed(s, t, Submitted, None)
            case RefusedInvalid => Disposed(s, t, SendFailed, Some(ServerInvalidChoice))
            case RefusedUnavailable => Disposed(s, t, SendFailed, Some(ServerUnavailableChoice))
            case SendRaises(_) => Disposed(s, t, SendFailed, Some(SendingFailed))
  {
    var logged := Logged(cfg, s, request, choice, text);
    hide Ledger, Finalize, FirstError, Disposed, SinkWorks;
    match cfg.team.send(s.calls)
    case Delivered =>
      var sent := Sent(cfg, s, request, choice, text);
      CallLedger(cfg, s, sent);
      FinalizeWrites(cfg, sent, Submitted, None, Some(choice));
      SameStart(s, sent, SendChoice(cfg, s, request, choice, text).session, Submitted, None);
    case RefusedInvalid =>
      FailDisposes(cfg, s, logged, INVALID_CHOICE_FAULT, SendFailed, ServerInvalidChoice, Some(choice));
    case RefusedUnavailable =>
      FailDisposes(cfg, s, logged, UNAVAILABLE_CHOICE_FAULT, SendFailed, ServerUnavailableChoice, Some(choice));
    case SendRaises(fault) =>
      FailDisposes(cfg, s, logged, fault, SendFailed, SendingFailed, Some(choice));
  }

  lemma SameStart(s: Session, t: Session, u: Session, status: RecordStatus, code: Option<ErrorCode>)
    requires Disposed(t, u, status, code) && t.records == s.records && t.pendingTrace == s.pendingTrace
    ensures Disposed(s, u, status, code)
  {}

  lemma WaitDisposes(cfg: Config, s: Session, request: DecisionRequest)
    requires Ledger(cfg, s) && s.pendingTrace.Some? && SinkWorks(cfg)
    requires request.kind.Wait? && s.submitted != Some(request.identity)
    ensures Disposed(s, Submit(cfg, s, request).session, WaitNoop, None)
  {
    hide Ledger, Finalize, Disposed, SinkWorks;
    var waited := s.(submitted := Some(request.identity), pending := None);
    CallLedger(cfg, s, waited);
    FinalizeWrites(cfg, waited, WaitNoop, None, None);
    SameStart(s, waited, Submit(cfg, s, request).session, WaitNoop, None);
  }

  lemma NoChoiceDisposes(cfg: Config, s: Session, request: DecisionRequest)
    requires Ledger(cfg, s) && s.pendingTrace.Some? && SinkWorks(cfg)
    requires !request.kind.Wait? && s.submitted != Some(request.identity)
    requires cfg.team.policy(s.calls, request).NoLegalAction?
    ensures Disposed(s, Submit(cfg, s, request).session, PolicyRejected, Some(NoLegalActionAvailable))
  {
    hide Ledger, Finalize, FirstError, Disposed, SinkWorks;
    var asked := s.(calls := s.calls + 1);
    FailDisposes(cfg, s, asked.(notes := s.notes + [NothingChosen(request, s.state, asked.calls)]),
                 NO_LEGAL_ACTION_FAULT, PolicyRejected, NoLegalActionAvailable, None);
  }

  lemma ChoiceDisposes(cfg: Config, s: Session, request: DecisionRequest, choice: BattleSubmission)
    requires Ledger(cfg, s) && s.pendingTrace.Some? && SinkWorks(cfg) && request.identity == request.safe.identity
    requires !request.kind.Wait? && cfg.team.policy(s.calls, request) == Chosen(choice)
    ensures var t := SubmitChoice(cfg, s.(calls := s.calls + 1), request, choice).session;
            var answer := AnswerStatus(cfg, s, request).value;
            Disposed(s, t, answer.0, answer.1)
  {
    hide Ledger, Finalize, FirstError, SendChoice, Disposed, SinkWorks;
    var asked := s.(calls := s.calls + 1);
    CallLedger(cfg, s, asked);
    if choice !in request.safe.submissions {
      FailDisposes(cfg, s, asked.(notes := s.notes + [ChosenOutside(request, s.state, asked.calls, choice)]),
                   GATE_FAULT, ActionGateRejected, LocalActionGateRejection, Some(choice));
    } else if cfg.team.encode(choice).Err? {
      FailDisposes(cfg, s, asked.(notes := s.notes + [Unencodable(request, s.state, asked.calls, choice)]),
                   cfg.team.encode(choice).error, CommandEncodingFailed, EncodingFailed, Some(choice));
    } else {
      var text := cfg.team.encode(choice).value;
      SendDisposes(cfg, asked, request, choice, text);
      var answer := AnswerStatus(cfg, s, request).value;
      SameStart(s, asked, SendChoice(cfg, asked, request, choice, text).session, answer.0, answer.1);
    }
  }

  /** What answering did to the open request. */
  ghost predicate Answered(s: Session, t: Session, answer: Option<(RecordStatus, Option<ErrorCode>)>) {
    match answer
    case None => t.records == s.records && t.pendingTrace == s.pendingTrace
    case Some((status, code)) => Disposed(s, t, status, code)
  }

  lemma AskedDisposes(cfg: Config, s: Session, request: DecisionRequest)
    requires Ledger(cfg, s) && s.pendingTrace.Some? && SinkWorks(cfg) && request.identity == request.safe.identity
    requires !request.kind.Wait? && s.submitted != Some(request.identity)
    ensures Answered(s, Submit(cfg, s, request).session, AnswerStatus(cfg, s, request))
  {
    hide Ledger, SubmitChoice, Disposed, SinkWorks, Finalize;
    match cfg.team.policy(s.calls, request)
    case PolicyRaises(_) =>
    case NoLegalAction => NoChoiceDisposes(cfg, s, request);
    case Chosen(choice) => ChoiceDisposes(cfg, s, request, choice);
  }

  /** Answering an accepted request records exactly the status its collaborators' behaviour calls for. */
  lemma {:induction false} AnsweredRequest(cfg: Config, s: Session, request: DecisionRequest)
    requires Ready(cfg, s, request) && cfg.context.Some? && SinkWorks(cfg)
    ensures Answered(s, Submit(cfg, s, request).session, AnswerStatus(cfg, s, request))
  {
    ReadyLedger(cfg, s, request);
    hide Ready, Ledger, Submit, Disposed, SinkWorks;
    if request.kind.Wait? {
      WaitDisposes(cfg, s, request);
    } else {
      AskedDisposes(cfg, s, request);
    }
  }
}
