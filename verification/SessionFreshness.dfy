/** Which requests a session takes as new: by their rqids and digests alone, over every run. */
module SessionFreshness {
  import opened Basics
  import opened ObservedStates
  import opened Reducer
  import opened Submissions
  import opened Reconciler
  import opened DecisionRecords
  import opened SessionModel
  import opened SessionInvariants
  import opened SessionEffects
  import opened SessionTheorems
  import opened SessionWaits
  import opened SessionLaw

  // ----- the latest request stays the latest -----

  lemma FinalizeKeepsLatest(
    cfg: Config, s: Session, status: RecordStatus, code: Option<ErrorCode>, selected: Option<BattleSubmission>)
    ensures Finalize(cfg, s, status, code, selected).latest == s.latest
  {
    hide RecordChecks, MakeRecord;
  }

  lemma FailKeepsLatest(
    cfg: Config, s: Session, fault: Fault, status: RecordStatus, code: Option<ErrorCode>,
    selected: Option<BattleSubmission>)
    ensures Finalize(cfg, FirstError(s, fault), status, code, selected).latest == s.latest
  {
    hide Finalize;
    FinalizeKeepsLatest(cfg, FirstError(s, fault), status, code, selected);
  }

  lemma SendKeepsLatest(cfg: Config, s: Session, request: DecisionRequest, choice: BattleSubmission, text: string)
    ensures SendChoice(cfg, s, request, choice, text).session.latest == s.latest
  {
    hide Finalize, FirstError;
    var logged := Logged(cfg, s, request, choice, text);
    match cfg.team.send(s.calls)
    case RefusedInvalid =>
      FailKeepsLatest(cfg, logged, INVALID_CHOICE_FAULT, SendFailed, Some(ServerInvalidChoice), Some(choice));
    case RefusedUnavailable =>
      FailKeepsLatest(cfg, logged, UNAVAILABLE_CHOICE_FAULT, SendFailed, Some(ServerUnavailableChoice), Some(choice));
    case SendRaises(fault) => FailKeepsLatest(cfg, logged, fault, SendFailed, Some(SendingFailed), Some(choice));
    case Delivered => FinalizeKeepsLatest(cfg, Sent(cfg, s, request, choice, text), Submitted, None, Some(choice));
  }

  lemma ChoiceKeepsLatest(cfg: Config, s: Session, request: DecisionRequest, candidate: BattleSubmission)
    ensures SubmitChoice(cfg, s, request, candidate).session.latest == s.latest
  {
    hide Finalize, FirstError, SendChoice;
    match Authorize(candidate, request.identity, request.safe)
    case Err(StaleIdentity) =>
    case Err(NotInSafeSet) =>
      FailKeepsLatest(cfg, s.(notes := s.notes + [ChosenOutside(request, s.state, s.calls, candidate)]), GATE_FAULT,
                      ActionGateRejected, Some(LocalActionGateRejection), Some(candidate));
    case Ok(choice) =>
      match cfg.team.encode(choice)
      case Err(fault) =>
        FailKeepsLatest(cfg, s.(notes := s.notes + [Unencodable(request, s.state, s.calls, choice)]), fault,
                        CommandEncodingFailed, Some(EncodingFailed), Some(choice));
      case Ok(text) => SendKeepsLatest(cfg, s, request, choice, text);
  }

  lemma SubmitKeepsLatest(cfg: Config, s: Session, request: DecisionRequest)
    ensures Submit(cfg, s, request).session.latest == s.latest
  {
    hide Finalize, FirstError, SubmitChoice;
    var asked := s.(calls := s.calls + 1);
    FinalizeKeepsLatest(cfg, s.(submitted := Some(request.identity), pending := None), WaitNoop, None, None);
    match cfg.team.policy(s.calls, request)
    case NoLegalAction =>
      FailKeepsLatest(cfg, asked.(notes := s.notes + [NothingChosen(request, s.state, asked.calls)]),
                      NO_LEGAL_ACTION_FAULT, PolicyRejected, Some(NoLegalActionAvailable), None);
    case PolicyRaises(_) =>
    case Chosen(candidate) => ChoiceKeepsLatest(cfg, asked, request, candidate);
  }

  lemma RejectKeepsLatest(cfg: Config, s: Session, note: Note)
    ensures RejectPending(cfg, s, note).session.latest == s.latest
  {
    hide Finalize, FirstError;
    FailKeepsLatest(cfg, s.(notes := s.notes + [note]), MISMATCH_FAULT, ReconciliationRejected,
                    Some(ReconciliationMismatch), None);
  }

  lemma RetryKeepsLatest(cfg: Config, s: Session, strict: bool)
    ensures Retry(cfg, s, strict).session.latest == s.latest
  {
    hide Submit, Reconcile, RejectPending;
    if s.pending.Some? {
      var request := s.pending.value;
      SubmitKeepsLatest(cfg, RefreshTrace(cfg, s).session, request);
      match Reconcile(cfg.roomId, request, s.state, SubmittedRqid(s))
      case Reject(reason) => RejectKeepsLatest(cfg, s, Rejection(request, s.state, SubmittedRqid(s), reason));
      case Pending(reason) => RejectKeepsLatest(cfg, s, Overdue(request, s.state, SubmittedRqid(s), reason));
      case Accept =>
    }
  }

  lemma EventKeepsLatest(cfg: Config, s: Session, parsed: Result<EventBody, Fault>)
    ensures ProcessEvent(cfg, s, parsed).session.latest == s.latest
  {
    hide Finalize, Retry, Reduce;
    if parsed.Ok? && Reduce(s.state, s.state.eventIndex + 1, parsed.value).Ok? {
      var t := s.(state := Reduce(s.state, s.state.eventIndex + 1, parsed.value).value);
      FinalizeKeepsLatest(cfg, t, TerminallyDiscarded, None, None);
      RetryKeepsLatest(cfg, t, true);
      RetryKeepsLatest(cfg, t, parsed.value.BattleStarted?);
    }
  }

  lemma AbortKeepsLatest(cfg: Config, s: Session, fault: Fault)
    ensures Abort(cfg, s, fault).latest == s.latest
  {
    hide Finalize, FirstError, AbortRecordCode;
    FailKeepsLatest(cfg, s, fault, FreshnessInvalidated, None, None);
    FailKeepsLatest(cfg, s, fault, SessionAborted, AbortRecordCode(fault), None);
    FirstErrorLogs(s, fault);
  }

  // ----- one request -----

  /** A newer request becomes the latest one; the same request again is ignored; the same rqid with another content, and
      an older rqid, leave everything as it is and raise. */
  lemma {:induction false} RequestIsJudged(cfg: Config, s: Session, request: DecisionRequest)
    ensures var f := ProcessRequest(cfg, s, request);
            if Newer(s.latest, request.identity) then f.session.latest == Some(request.identity)
            else if request.identity.rqid < s.latest.value.rqid then f == Raises(s, STALE_FAULT)
            else if request.identity.digest == s.latest.value.digest then f == Returns(s)
            else f == Raises(s, MISMATCH_FAULT)
  {
    hide Finalize, Retry;
    if Newer(s.latest, request.identity) {
      var t := Finalize(cfg, s, SupersededBeforeSelection, None, None)
               .(latest := Some(request.identity), pending := Some(request));
      RetryKeepsLatest(cfg, OpenTrace(cfg, t, request).session, false);
    }
  }

  lemma RetryTrace(cfg: Config, s: Session, strict: bool)
    ensures var trace := Retry(cfg, s, strict).session.pendingTrace;
            Retry(cfg, s, strict).raised.None? && trace.Some? ==>
              && s.pendingTrace.Some?
              && (trace == s.pendingTrace
                  || trace.value == s.pendingTrace.value.(stateDigest := StateDigest(s.state)))
  {
    hide Finalize, FirstError, Reconcile, Submit;
    if s.pending.Some? { SubmitTrace(cfg, RefreshTrace(cfg, s).session, s.pending.value); }
  }

  lemma SubmitTrace(cfg: Config, s: Session, request: DecisionRequest)
    ensures var f := Submit(cfg, s, request);
            f.raised.None? ==> f.session.pendingTrace.None? || f.session.pendingTrace == s.pendingTrace
  {
    hide Finalize, FirstError, SubmitChoice;
    FinalizeEndsTrace(cfg, s.(submitted := Some(request.identity), pending := None), WaitNoop, None, None);
    if cfg.team.policy(s.calls, request).Chosen? {
      ChoiceTrace(cfg, s.(calls := s.calls + 1), request, cfg.team.policy(s.calls, request).submission);
    }
  }

  lemma ChoiceTrace(cfg: Config, s: Session, request: DecisionRequest, candidate: BattleSubmission)
    ensures var f := SubmitChoice(cfg, s, request, candidate); f.raised.None? ==> f.session.pendingTrace.None?
  {
    hide Finalize, FirstError, Sent, Logged;
    if cfg.team.encode(candidate).Ok? {
      FinalizeEndsTrace(cfg, Sent(cfg, s, request, candidate, cfg.team.encode(candidate).value), Submitted, None,
                        Some(candidate));
    }
  }

  /** A newer request that is left open is traced with its content, its choices and the state it arrived in. */
  lemma {:induction false} ArrivalIsTraced(cfg: Config, s: Session, request: DecisionRequest)
    requires Newer(s.latest, request.identity) && ProcessRequest(cfg, s, request).raised.None?
    ensures var trace := ProcessRequest(cfg, s, request).session.pendingTrace;
            trace.Some? ==>
              && trace.value.request == request && trace.value.stateDigest == StateDigest(s.state)
              && trace.value.safeSetDigest == SafeSetDigest(request.safe)
  {
    hide Finalize, Retry;
    FinalizeEndsTrace(cfg, s, SupersededBeforeSelection, None, None);
    FinalizeKeepsState(cfg, s, SupersededBeforeSelection, None, None);
    var t := Finalize(cfg, s, SupersededBeforeSelection, None, None)
             .(latest := Some(request.identity), pending := Some(request));
    var traced := OpenTrace(cfg, t, request);
    if traced.raised.None? && !traced.session.done { RetryTrace(cfg, traced.session, false); }
  }

  function RequestOf(payload: Payload): Option<DecisionRequest> {
    match payload
    case RequestLine(Ok(request)) => Some(request)
    case _ => None
  }

  lemma LineKeepsLatest(cfg: Config, s: Session, payload: Payload)
    requires RequestOf(payload).None?
    ensures ProcessLine(cfg, s, payload).session.latest == s.latest
  {
    hide ProcessEvent, Reduce;
    if payload.BattleLine? { EventKeepsLatest(cfg, s, payload.parsed); }
  }

  /** The latest request is the last newer one the stream brought. */
  lemma {:induction false} StepJudges(cfg: Config, s: Session, item: StreamItem)
    ensures var request := RequestOf(SeenBy(cfg, item));
            Step(cfg, s, item).latest
            == if request.Some? && Newer(s.latest, request.value.identity) then Some(request.value.identity)
               else s.latest
  {
    hide ProcessLine, Abort;
    match item
    case StreamFault(fault) => AbortKeepsLatest(cfg, s, fault);
    case Line(line) =>
      if line.roomId == Some(cfg.roomId) {
        if RequestOf(line.payload).Some? {
          RequestIsJudged(cfg, s, line.payload.read.value);
          RequestLineState(cfg, s, line.payload.read.value);
          assert line.payload == RequestLine(Ok(line.payload.read.value));
        } else {
          LineKeepsLatest(cfg, s, line.payload);
        }
        var flow := ProcessLine(cfg, s, line.payload);
        if flow.raised.Some? { AbortKeepsLatest(cfg, flow.session, flow.raised.value); }
      }
  }

  // ----- repeated lines -----

  lemma {:induction false} RepeatChangesNothing(cfg: Config, s: Session, item: StreamItem)
    requires item.Line? && item.line.payload.RequestLine?
    ensures var t := Step(cfg, s, item); t.done || Step(cfg, t, item) == t
  {
    hide Abort, ProcessRequest, ProcessLine;
    var t := Step(cfg, s, item);
    if item.line.roomId == Some(cfg.roomId) && !t.done {
      RaisedEnds(cfg, s, item);
      UnreadRaises(cfg, s, item.line.payload);
      var request := item.line.payload.read.value;
      assert item.line.payload == RequestLine(Ok(request));
      RequestLineState(cfg, s, request);
      RequestLineState(cfg, t, request);
      RequestIsJudged(cfg, s, request);
      RequestIsJudged(cfg, t, request);
    }
  }

  lemma UnreadRaises(cfg: Config, s: Session, payload: Payload)
    requires payload.RequestLine?
    ensures payload.read.Err? ==> ProcessLine(cfg, s, payload) == Raises(s, payload.read.error)
  {
    hide ProcessRequest;
  }

  /** A request line repeated right after itself changes nothing of the run, whatever comes before and after. */
  lemma {:induction false} RepeatedRequestIsIgnored(
    cfg: Config, s: Session, before: seq<StreamItem>, request: StreamItem, after: seq<StreamItem>)
    requires request.Line? && request.line.payload.RequestLine?
    ensures Run(cfg, s, before + [request, request] + after) == Run(cfg, s, before + [request] + after)
  {
    hide Step;
    var t := Run(cfg, s, before);
    RunsCompose(cfg, s, before + [request, request], after);
    RunsCompose(cfg, s, before + [request], after);
    RunsCompose(cfg, s, before, [request, request]);
    RunsCompose(cfg, s, before, [request]);
    assert [request, request] == [request] + [request];
    RunsCompose(cfg, t, [request], [request]);
    RunsCompose(cfg, t, [], [request]);
    var u := Run(cfg, t, [request]);
    RunsCompose(cfg, u, [], [request]);
    if !t.done {
      OneStep(cfg, t, request);
      OneStep(cfg, u, request);
      RepeatChangesNothing(cfg, t, request);
    }
  }

  // ----- fresh requests along a run -----

  /** The rqids of the readable requests the room's lines bring, in order. */
  function StreamRqids(cfg: Config, items: seq<StreamItem>): seq<int> {
    if items == [] then [] else
    var request := RequestOf(SeenBy(cfg, items[0]));
    (if request.Some? then [request.value.identity.rqid] else []) + StreamRqids(cfg, items[1..])
  }

  /** Those of `rqids` that exceed every one before them, `earlier` included. */
  function Highs(earlier: seq<int>, rqids: seq<int>): seq<int>
    decreases |rqids|
  {
    if rqids == [] then [] else
    (if forall r :: r in earlier ==> r < rqids[0] then [rqids[0]] else []) + Highs(earlier + [rqids[0]], rqids[1..])
  }

  /** The latest rqid is the highest so far. */
  ghost predicate Tops(latest: Option<RequestIdentity>, earlier: seq<int>) {
    match latest
    case None => earlier == []
    case Some(l) => l.rqid in earlier && forall r :: r in earlier ==> r <= l.rqid
  }

  lemma FreshIsNewer(cfg: Config, s: Session, item: StreamItem)
    ensures var request := RequestOf(SeenBy(cfg, item));
            FreshHere(cfg, s, item)
            == if request.Some? && Newer(s.latest, request.value.identity) then [request.value.identity.rqid] else []
  {}

  lemma {:induction false} StepTops(cfg: Config, s: Session, item: StreamItem, earlier: seq<int>)
    requires Tops(s.latest, earlier)
    ensures var request := RequestOf(SeenBy(cfg, item));
            && (request.Some? ==> Tops(Step(cfg, s, item).latest, earlier + [request.value.identity.rqid])
                                  && (Newer(s.latest, request.value.identity)
                                      <==> forall r :: r in earlier ==> r < request.value.identity.rqid))
            && (request.None? ==> Tops(Step(cfg, s, item).latest, earlier))
  {
    hide Step, SeenBy;
    StepJudges(cfg, s, item);
  }

  lemma {:induction false} HighsFollow(cfg: Config, s: Session, items: seq<StreamItem>, earlier: seq<int>)
    returns (n: nat)
    requires Tops(s.latest, earlier)
    ensures n <= |items| && Run(cfg, s, items) == Run(cfg, s, items[..n])
    ensures n < |items| ==> Run(cfg, s, items).done
    ensures FreshRqids(cfg, s, items) == Highs(earlier, StreamRqids(cfg, items[..n]))
    decreases |items|
  {
    hide Step, SeenBy, FreshHere;
    if items == [] || s.done {
      n := 0;
      assert items[..0] == [];
    } else {
      var t, request := Step(cfg, s, items[0]), RequestOf(SeenBy(cfg, items[0]));
      StepTops(cfg, s, items[0], earlier);
      FreshIsNewer(cfg, s, items[0]);
      var rest := HighsFollow(cfg, t, items[1..],
                              if request.Some? then earlier + [request.value.identity.rqid] else earlier);
      n := rest + 1;
      assert items[..n][0] == items[0] && items[..n][1..] == items[1..][..rest];
      assert StreamRqids(cfg, items[..n])
          == (if request.Some? then [request.value.identity.rqid] else []) + StreamRqids(cfg, items[1..][..rest]);
      if request.Some? {
        assert StreamRqids(cfg, items[..n])[1..] == StreamRqids(cfg, items[1..][..rest]);
      } else {
        assert StreamRqids(cfg, items[..n]) == StreamRqids(cfg, items[1..][..rest]);
      }
    }
  }

  /** The requests a run takes as new are those whose rqid exceeds every rqid the room's stream brought before, up to
      where the session stopped reading; nothing but the stream decides. */
  lemma {:induction false} FreshAreTheHighs(cfg: Config, state: ObservedState, items: seq<StreamItem>) returns (n: nat)
    ensures n <= |items| && After(cfg, state, items) == After(cfg, state, items[..n])
    ensures n < |items| ==> After(cfg, state, items).done
    ensures FreshRqids(cfg, InitialSession(state), items) == Highs([], StreamRqids(cfg, items[..n]))
  {
    hide Run, FreshRqids, StreamRqids, Highs;
    n := HighsFollow(cfg, InitialSession(state), items, []);
  }
}
