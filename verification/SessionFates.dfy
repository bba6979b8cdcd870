/** The whole ledger of a run, status by status, from what happened to each fresh request; the sink accepts every
    record. A fate is only how a request ends: unlike the steps it is computed beside, it has no trace to open, refresh
    or close, no record to build or check, no sink call, and nothing of the logs, counters and first error. */
module SessionFates {
  import opened Basics
  import opened ObservedStates
  import opened Reducer
  import opened ReducerInvariants
  import opened RosterKeys
  import opened Submissions
  import opened Reconciler
  import opened DecisionRecords
  import opened SessionModel
  import opened SessionInvariants
  import opened SessionEffects
  import opened SessionTheorems
  import opened SessionDispositions
  import opened SessionWaits
  import opened SessionLaw

  /** How a pass ends an open request, if it does: the record's status and error code. */
  type Fate = Option<(RecordStatus, Option<ErrorCode>)>

  function AbortFate(fault: Fault): Fate {
    match AbortRecordCode(fault)
    case None => None
    case Some(code) =>
      if code == ReconciliationMismatch || code == StaleRqidCode then Some((FreshnessInvalidated, None))
      else Some((SessionAborted, Some(code)))
  }

  const MISMATCH_FATE: Fate := Some((ReconciliationRejected, Some(ReconciliationMismatch)))

  function AnswerFate(cfg: Config, s: Session, request: DecisionRequest): Fate {
    if !request.kind.Wait? && cfg.team.policy(s.calls, request).PolicyRaises? then
      AbortFate(cfg.team.policy(s.calls, request).policyFault)
    else AnswerStatus(cfg, s, request)
  }

  function RetryFate(cfg: Config, s: Session, strict: bool): Fate
    requires s.pending.Some?
  {
    match Reconcile(cfg.roomId, s.pending.value, s.state, SubmittedRqid(s))
    case Reject(_) => MISMATCH_FATE
    case Pending(reason) =>
      if strict || (s.state.battleStarted && !reason.ActiveUnknown?) then MISMATCH_FATE else None
    case Accept =>
      if cfg.team.canonical(s.state) then AnswerFate(cfg, s, s.pending.value) else AbortFate(CANONICAL_FAULT)
  }

  function EventFate(cfg: Config, s: Session, body: EventBody): Fate {
    if body.BattleWon? || body.BattleTied? then Some((TerminallyDiscarded, None))
    else if s.pending.Some? && (body.TurnStarted? || RetryEvent(body)) then
      RetryFate(cfg, s, body.TurnStarted? || body.BattleStarted?)
    else None
  }

  function ReducedFate(cfg: Config, s: Session, body: EventBody): Fate {
    match Reduce(s.state, s.state.eventIndex + 1, body)
    case Err(error) => AbortFate(ReduceFault(error))
    case Ok(state) => EventFate(cfg, s.(state := state), body)
  }

  function RequestFate(s: Session, request: DecisionRequest): Fate {
    if Newer(s.latest, request.identity) then Some((SupersededBeforeSelection, None))
    else if Repeats(s.latest, request.identity) then None
    else Some((FreshnessInvalidated, None))
  }

  function LineFate(cfg: Config, s: Session, payload: Payload): Fate {
    match payload
    case BattleLine(_, Ok(body)) => ReducedFate(cfg, s, body)
    case BattleLine(_, Err(fault)) => AbortFate(fault)
    case RequestLine(Ok(request)) => RequestFate(s, request)
    case RequestLine(Err(fault)) => AbortFate(fault)
    case ErrorLine(error) => AbortFate(BattleErrorFault(error))
    case TimerLine(Ok(body)) =>
      (match Reduce(s.state, s.state.eventIndex + 1, body)
       case Err(error) => AbortFate(ReduceFault(error))
       case Ok(_) => None)
    case TimerLine(Err(fault)) => AbortFate(fault)
    case ControlOrChat => None
    case UnknownLine => AbortFate(UNKNOWN_EVENT_FAULT)
  }

  /** What an item does to the request that is open when it comes. */
  function OpenFate(cfg: Config, s: Session, item: StreamItem): Fate {
    match item
    case StreamFault(fault) => AbortFate(fault)
    case Line(line) => if line.roomId == Some(cfg.roomId) then LineFate(cfg, s, line.payload) else None
  }

  /** The session just after it superseded the open request and opened a trace for the fresh one. */
  function Superseding(cfg: Config, s: Session, request: DecisionRequest): Session {
    Finalize(cfg, s, SupersededBeforeSelection, None, None).(latest := Some(request.identity), pending := Some(request))
  }

  function Opened(cfg: Config, s: Session, request: DecisionRequest): (t: Session)
    ensures t.pending == Some(request) && t.done == Superseding(cfg, s, request).done
  {
    OpenTrace(cfg, Superseding(cfg, s, request), request).session
  }

  /** A record's request, as its rqid, its content and the choices it offered, with the status and code it got. */
  datatype Entry = Entry(
    rqid: int, requestDigest: Digest, safeSetDigest: SafeSetDigest, status: RecordStatus, code: Option<ErrorCode>)

  function Entries(records: seq<DecisionRecord>): seq<Entry> {
    seq(|records|, i requires 0 <= i < |records| =>
      Entry(records[i].rqid, records[i].requestDigest, records[i].safeSetDigest, records[i].status,
            records[i].errorCode))
  }

  function EntryOf(request: DecisionRequest, fate: Fate): seq<Entry> {
    if fate.None? then [] else
    [Entry(request.identity.rqid, request.identity.digest, SafeSetDigest(request.safe), fate.value.0, fate.value.1)]
  }

  function OpenEntry(cfg: Config, s: Session, item: StreamItem): seq<Entry> {
    if s.pendingTrace.None? then [] else EntryOf(s.pendingTrace.value.request, OpenFate(cfg, s, item))
  }

  /** A fresh request may be answered at once. */
  function ArrivalEntry(cfg: Config, s: Session, item: StreamItem): seq<Entry> {
    var request := FreshRequest(cfg, s, item);
    if request.None? || Undigestible(cfg, s, item) then [] else
    EntryOf(request.value, RetryFate(cfg, Opened(cfg, s, request.value), false))
  }

  /** The ledger a run should leave. */
  function Fates(cfg: Config, s: Session, items: seq<StreamItem>): seq<Entry>
    decreases |items|
  {
    if items == [] || s.done then [] else
    OpenEntry(cfg, s, items[0]) + ArrivalEntry(cfg, s, items[0]) + Fates(cfg, Step(cfg, s, items[0]), items[1..])
  }

  // ----- one request -----

  /** The request open in `s` met this fate by the time of `t`. */
  ghost predicate Fated(s: Session, t: Session, fate: Fate) {
    match fate
    case None => t.records == s.records && OpenRqids(t) == OpenRqids(s)
    case Some((status, code)) => Disposed(s, t, status, code)
  }

  function Settle(cfg: Config, f: Flow): Session {
    if f.raised.Some? then Abort(cfg, f.session, f.raised.value) else f.session
  }

  lemma {:induction false} AbortFated(cfg: Config, s: Session, fault: Fault)
    requires Mid(cfg, s) && cfg.context.Some? && SinkWorks(cfg) && s.pendingTrace.Some?
    ensures Fated(s, Abort(cfg, s, fault), AbortFate(fault))
  {
    MidIsSound(cfg, s);
    AbortDisposesIffCoded(cfg, s, fault);
    AbortKept(cfg, s, fault);
    hide Mid, Disposed, Abort, AbortRecordCode, SinkWorks;
  }

  lemma MidIsSound(cfg: Config, s: Session)
    requires Mid(cfg, s)
    ensures Sound(s)
  {
    hide StateOk, SentInv, Matched, Counted, RecordsOk;
  }

  /** A request that got its record keeps it through an abort. */
  lemma SettleFated(cfg: Config, s: Session, f: Flow, status: RecordStatus, code: Option<ErrorCode>)
    requires Disposed(s, f.session, status, code)
    ensures Disposed(s, Settle(cfg, f), status, code)
  {
    hide Disposed, Abort, Grew;
    if f.raised.Some? {
      AbortQuietly(cfg, f.session, f.raised.value);
      DisposedLater(s, f.session, Settle(cfg, f), status, code);
    }
  }

  lemma SameStartFated(s: Session, from: Session, t: Session, fate: Fate)
    requires Fated(from, t, fate) && from.records == s.records && OpenOffer(from) == OpenOffer(s)
    ensures Fated(s, t, fate)
  {}

  /** The open request and its choices. */
  function OpenOffer(s: Session): Option<(DecisionRequest, SafeSetDigest)> {
    if s.pendingTrace.None? then None else Some((s.pendingTrace.value.request, s.pendingTrace.value.safeSetDigest))
  }

  lemma PolicyRaised(cfg: Config, s: Session, request: DecisionRequest)
    requires !request.kind.Wait? && cfg.team.policy(s.calls, request).PolicyRaises?
    requires s.submitted != Some(request.identity)
    ensures Submit(cfg, s, request)
         == Raises(s.(calls := s.calls + 1), cfg.team.policy(s.calls, request).policyFault)
  {}

  lemma RaisedFated(cfg: Config, s: Session, fault: Fault)
    requires Mid(cfg, s.(calls := s.calls + 1)) && cfg.context.Some? && SinkWorks(cfg) && s.pendingTrace.Some?
    ensures Fated(s, Settle(cfg, Raises(s.(calls := s.calls + 1), fault)), AbortFate(fault))
  {
    hide Mid, SinkWorks, Abort, AbortFate, Fated;
    var asked := s.(calls := s.calls + 1);
    AbortFated(cfg, asked, fault);
    SameStartFated(s, asked, Abort(cfg, asked, fault), AbortFate(fault));
  }

  lemma {:induction false} AnswerFated(cfg: Config, s: Session, request: DecisionRequest)
    requires Ready(cfg, s, request) && cfg.context.Some? && SinkWorks(cfg)
    ensures Fated(s, Settle(cfg, Submit(cfg, s, request)), AnswerFate(cfg, s, request))
  {
    hide Ready, Mid, Inv, Ledger, Disposed, SinkWorks, Settle, AbortFate, Submit, Reconcile;
    AnsweredRequest(cfg, s, request);
    ReadyLedger(cfg, s, request);
    SubmitKeeps(cfg, s, request);
    var f := Submit(cfg, s, request);
    if !request.kind.Wait? && cfg.team.policy(s.calls, request).PolicyRaises? {
      PolicyRaised(cfg, s, request);
      RaisedFated(cfg, s, cfg.team.policy(s.calls, request).policyFault);
    } else {
      var answer := AnswerStatus(cfg, s, request).value;
      SettleFated(cfg, s, f, answer.0, answer.1);
    }
  }

  lemma RefusalFated(cfg: Config, s: Session, note: Note)
    requires Ledger(cfg, s) && s.pendingTrace.Some? && SinkWorks(cfg)
    ensures Fated(s, Settle(cfg, RejectPending(cfg, s, note)), MISMATCH_FATE)
  {
    hide Ledger, Disposed, SinkWorks, RejectPending, Settle;
    RejectionDisposes(cfg, s, note);
    SettleFated(cfg, s, RejectPending(cfg, s, note), ReconciliationRejected, Some(ReconciliationMismatch));
  }

  lemma AwakeIsAnswerable(cfg: Config, s: Session, latestRqid: Option<int>)
    requires Awake(cfg, s) && s.pending.Some?
    requires Reconcile(cfg.roomId, s.pending.value, s.state, latestRqid).Accept?
    ensures Answerable(cfg, s, s.pending.value)
  {
    AcceptWithoutRqid(cfg.roomId, s.pending.value, s.state, latestRqid);
    hide Mid, Unanswered, Linked, Reconcile;
  }

  lemma {:induction false} AcceptedFated(cfg: Config, s: Session)
    requires Awake(cfg, s) && s.pending.Some? && s.pendingTrace.Some? && cfg.context.Some? && SinkWorks(cfg)
    requires Answerable(cfg, s, s.pending.value)
    ensures var refreshed := RefreshTrace(cfg, s);
            if cfg.team.canonical(s.state)
            then refreshed.raised.None?
                 && Fated(s, Settle(cfg, Submit(cfg, refreshed.session, s.pending.value)),
                          AnswerFate(cfg, s, s.pending.value))
            else refreshed.raised.Some? && Fated(s, Settle(cfg, refreshed), AbortFate(CANONICAL_FAULT))
  {
    hide Mid, Inv, Awake, Answerable, Ready, Submit, Abort, AbortFate, AnswerFate, Fated, SinkWorks, Reconcile,
         MissingFact;
    var request, refreshed := s.pending.value, RefreshTrace(cfg, s);
    AwakeIsMid(cfg, s);
    RefreshKeeps(cfg, s, request);
    Refreshed(cfg, s, request);
    if cfg.team.canonical(s.state) {
      AnswerFated(cfg, refreshed.session, request);
      SameStartFated(s, refreshed.session, Settle(cfg, Submit(cfg, refreshed.session, request)),
                     AnswerFate(cfg, s, request));
    } else {
      AbortFated(cfg, s, CANONICAL_FAULT);
    }
  }

  lemma Refreshed(cfg: Config, s: Session, request: DecisionRequest)
    requires s.pendingTrace.Some?
    ensures var refreshed := RefreshTrace(cfg, s);
            && (if cfg.team.canonical(s.state) then refreshed.raised.None? else refreshed == Raises(s, CANONICAL_FAULT))
            && refreshed.session.records == s.records && OpenOffer(refreshed.session) == OpenOffer(s)
            && AnswerFate(cfg, refreshed.session, request) == AnswerFate(cfg, s, request)
  {
    hide AbortFate;
  }

  lemma UntouchedFated(s: Session)
    ensures Fated(s, s, None)
  {}

  /** What becomes of an open request that is reconsidered. */
  lemma {:induction false} RetryFated(cfg: Config, s: Session, strict: bool)
    requires Awake(cfg, s) && s.pending.Some? && s.pendingTrace.Some? && cfg.context.Some? && SinkWorks(cfg)
    ensures Fated(s, Settle(cfg, Retry(cfg, s, strict)), RetryFate(cfg, s, strict))
  {
    hide Mid, Inv, Awake, Ledger, Reconcile, RejectPending, RefreshTrace, Submit, Abort, AnswerFate, AbortFate,
         SinkWorks, Disposed, Answerable, MissingFact, Fated;
    AwakeIsMid(cfg, s);
    MidLedger(cfg, s);
    UntouchedFated(s);
    var request := s.pending.value;
    match Reconcile(cfg.roomId, request, s.state, SubmittedRqid(s))
    case Reject(reason) => RefusalFated(cfg, s, Rejection(request, s.state, SubmittedRqid(s), reason));
    case Pending(reason) => RefusalFated(cfg, s, Overdue(request, s.state, SubmittedRqid(s), reason));
    case Accept =>
      AwakeIsAnswerable(cfg, s, SubmittedRqid(s));
      AcceptedFated(cfg, s);
  }

  // ----- the request open when an item comes -----

  lemma {:induction false} EventFated(cfg: Config, s: Session, body: EventBody)
    requires Inv(cfg, s) && !s.done && s.pendingTrace.Some? && cfg.context.Some? && SinkWorks(cfg)
    ensures Fated(s, Settle(cfg, ProcessEvent(cfg, s, Ok(body))), ReducedFate(cfg, s, body))
  {
    hide Inv, Mid, Awake, StateOk, Reduce, AfterEvent, Abort, AbortFate, EventFate, Fated, SinkWorks;
    InvIsMid(cfg, s);
    match Reduce(s.state, s.state.eventIndex + 1, body)
    case Err(error) => AbortFated(cfg, s, ReduceFault(error));
    case Ok(state) =>
      InvIsStateOk(cfg, s);
      ReduceKeeps(s.state, s.state.eventIndex + 1, body);
      NewStateKeeps(cfg, s, state);
      InvLinks(cfg, s);
      AdvancedFated(cfg, s.(state := state), body);
      SameStartFated(s, s.(state := state), Settle(cfg, AfterEvent(cfg, s.(state := state), body)),
                     EventFate(cfg, s.(state := state), body));
  }

  lemma InvLinks(cfg: Config, s: Session)
    requires Inv(cfg, s) && !s.done && cfg.context.Some?
    ensures s.pending.Some? <==> s.pendingTrace.Some?
    ensures s.pending.Some? ==> s.pendingTrace.value.request == s.pending.value
  {
    hide Mid, Unanswered, Waiting, Reported;
  }

  lemma {:induction false} AdvancedFated(cfg: Config, s: Session, body: EventBody)
    requires Awake(cfg, s) && s.pending.Some? && s.pendingTrace.Some? && cfg.context.Some? && SinkWorks(cfg)
    ensures Fated(s, Settle(cfg, AfterEvent(cfg, s, body)), EventFate(cfg, s, body))
  {
    hide Mid, Inv, Awake, Ledger, Retry, RetryFate, Abort, Finalize, RetryEvent, SinkWorks;
    AwakeIsMid(cfg, s);
    MidLedger(cfg, s);
    if body.BattleWon? || body.BattleTied? {
      FinalizeWrites(cfg, s, TerminallyDiscarded, None, None);
    } else if body.TurnStarted? {
      RetryFated(cfg, s, true);
    } else {
      RetryFated(cfg, s, body.BattleStarted?);
    }
  }

  lemma {:induction false} OldRequestFated(cfg: Config, s: Session, request: DecisionRequest)
    requires Mid(cfg, s) && s.pendingTrace.Some? && cfg.context.Some? && SinkWorks(cfg)
    requires !CheckFreshness(s, request.identity).Fresh?
    ensures Fated(s, Settle(cfg, ProcessRequest(cfg, s, request)), RequestFate(s, request))
  {
    hide Mid, Abort, CheckFreshness, AbortRecordCode, SinkWorks, Disposed;
    FreshnessFaults();
    AbortFated(cfg, s, STALE_FAULT);
    AbortFated(cfg, s, MISMATCH_FAULT);
  }

  lemma {:induction false} TimerFated(cfg: Config, s: Session, timer: Result<TimerBody, Fault>)
    requires Mid(cfg, s) && s.pendingTrace.Some? && cfg.context.Some? && SinkWorks(cfg)
    ensures Fated(s, Settle(cfg, ProcessTimer(s, timer)), LineFate(cfg, s, TimerLine(timer)))
  {
    hide Mid, Abort, AbortFate, SinkWorks, Reduce, Disposed;
    match timer
    case Err(fault) => AbortFated(cfg, s, fault);
    case Ok(body) =>
      match Reduce(s.state, s.state.eventIndex + 1, body)
      case Err(error) => AbortFated(cfg, s, ReduceFault(error));
      case Ok(_) =>
  }

  lemma {:induction false} LineFated(cfg: Config, s: Session, payload: Payload)
    requires Inv(cfg, s) && !s.done && s.pendingTrace.Some? && cfg.context.Some? && SinkWorks(cfg)
    requires payload.RequestLine? && payload.read.Ok? ==> !CheckFreshness(s, payload.read.value.identity).Fresh?
    ensures Fated(s, Settle(cfg, ProcessLine(cfg, s, payload)), LineFate(cfg, s, payload))
  {
    hide Inv, Mid, Abort, AbortFate, ReducedFate, RequestFate, ProcessEvent, ProcessRequest, ProcessTimer, SinkWorks,
         CheckFreshness, Disposed;
    InvIsMid(cfg, s);
    match payload
    case BattleLine(_, Ok(body)) => EventFated(cfg, s, body);
    case BattleLine(_, Err(fault)) =>
      AbortFated(cfg, s, fault);
      UnparsedRaises(cfg, s, fault);
    case RequestLine(Ok(request)) => OldRequestFated(cfg, s, request);
    case RequestLine(Err(fault)) => AbortFated(cfg, s, fault);
    case ErrorLine(error) => AbortFated(cfg, s, BattleErrorFault(error));
    case TimerLine(timer) => TimerFated(cfg, s, timer);
    case ControlOrChat =>
    case UnknownLine => AbortFated(cfg, s, UNKNOWN_EVENT_FAULT);
  }

  lemma UnparsedRaises(cfg: Config, s: Session, fault: Fault)
    ensures ProcessEvent(cfg, s, Err(fault)) == Raises(s, fault)
  {}

  /** What an item does to the open request, branch by branch; a fresh request supersedes it. */
  lemma {:induction false} OpenRequestFate(cfg: Config, s: Session, item: StreamItem)
    requires Inv(cfg, s) && !s.done && s.pendingTrace.Some? && cfg.context.Some? && SinkWorks(cfg)
    ensures Fated(s, Step(cfg, s, item), OpenFate(cfg, s, item))
  {
    hide Inv, Mid, Abort, AbortFate, ProcessLine, SinkWorks, CheckFreshness, Disposed;
    InvIsMid(cfg, s);
    match item
    case StreamFault(fault) => AbortFated(cfg, s, fault);
    case Line(line) =>
      if line.roomId == Some(cfg.roomId) {
        if FreshRequest(cfg, s, item).Some? {
          SupersededFated(cfg, s, line.payload.read.value);
          RequestLineFlow(cfg, s, line.payload.read.value);
          assert line.payload == RequestLine(Ok(line.payload.read.value));
        } else {
          LineFated(cfg, s, line.payload);
        }
      }
  }

  lemma RequestLineFlow(cfg: Config, s: Session, request: DecisionRequest)
    ensures ProcessLine(cfg, s, RequestLine(Ok(request))) == ProcessRequest(cfg, s, request)
  {}

  lemma SupersededFated(cfg: Config, s: Session, request: DecisionRequest)
    requires Inv(cfg, s) && s.pendingTrace.Some? && SinkWorks(cfg) && CheckFreshness(s, request.identity).Fresh?
    ensures Fated(s, Settle(cfg, ProcessRequest(cfg, s, request)), RequestFate(s, request))
  {
    hide Inv, Disposed, SinkWorks, ProcessRequest, Settle, CheckFreshness;
    NewerRequestSupersedes(cfg, s, request);
    SettleFated(cfg, s, ProcessRequest(cfg, s, request), SupersededBeforeSelection, None);
  }

  // ----- the request an item brings -----

  lemma {:induction false} OpenedAwake(cfg: Config, s: Session, request: DecisionRequest)
    requires Inv(cfg, s) && !s.done && cfg.context.Some? && SinkWorks(cfg)
    requires CheckFreshness(s, request.identity).Fresh? && request.identity == request.safe.identity
    requires cfg.team.canonical(s.state) && SafeInteger(request.safe.identity.rqid)
    ensures var t := Opened(cfg, s, request);
            && Awake(cfg, t) && OpenOffer(t) == Some((request, SafeSetDigest(request.safe)))
            && OpenRqids(t) == [request.identity.rqid]
            && t.records == Superseding(cfg, s, request).records
            && ProcessRequest(cfg, s, request) == Retry(cfg, t, false)
  {
    hide Inv, Mid, Unanswered, Awake, Finalize, CheckFreshness, SinkWorks, RecordsBefore, Retry, Kept;
    SupersedeKeeps(cfg, s, request);
    var t := Superseding(cfg, s, request);
    SupersedingWorks(cfg, s, request);
    OpenTraceKeeps(cfg, t, request);
    FinalizeKeepsState(cfg, s, SupersededBeforeSelection, None, None);
  }

  lemma SupersedingWorks(cfg: Config, s: Session, request: DecisionRequest)
    requires Inv(cfg, s) && !s.done && cfg.context.Some? && SinkWorks(cfg)
    requires CheckFreshness(s, request.identity).Fresh?
    ensures var t := Superseding(cfg, s, request);
            !t.done && !t.traceFailed && t.pendingTrace.None? && Kept(cfg, s, t) && s.records <= t.records
  {
    hide Mid, Inv, Finalize, CheckFreshness, RecordRqids;
    SupersedeKeeps(cfg, s, request);
    InvIsSound(cfg, s);
    FinalizeKept(cfg, s, SupersededBeforeSelection, None, None);
    FinalizeQuietly(cfg, s, None, SupersededBeforeSelection, None, None);
    MidLedger(cfg, Superseding(cfg, s, request));
    LedgerFlags(cfg, Superseding(cfg, s, request));
  }

  lemma LedgerFlags(cfg: Config, s: Session)
    requires Ledger(cfg, s)
    ensures s.traceFailed <==> s.traceError
    ensures SinkWorks(cfg) ==> !s.traceError
  {
    hide RecordsOk, RecordsUpTo, RecordsBefore;
  }

  /** A fresh request that opened its trace meets the fate of being reconsidered at once. */
  lemma {:induction false} ArrivalFated(cfg: Config, s: Session, request: DecisionRequest)
    requires Inv(cfg, s) && !s.done && cfg.context.Some? && SinkWorks(cfg)
    requires CheckFreshness(s, request.identity).Fresh? && request.identity == request.safe.identity
    requires cfg.team.canonical(s.state) && SafeInteger(request.safe.identity.rqid)
    ensures var t := Opened(cfg, s, request);
            && OpenOffer(t) == Some((request, SafeSetDigest(request.safe))) && OpenRqids(t) == [request.identity.rqid]
            && t.records == Superseding(cfg, s, request).records
            && Fated(t, Settle(cfg, ProcessRequest(cfg, s, request)), RetryFate(cfg, t, false))
  {
    hide Inv, Awake, Opened, Superseding, CheckFreshness, SinkWorks, Retry, RetryFate, Fated, Settle;
    OpenedAwake(cfg, s, request);
    RetryFated(cfg, Opened(cfg, s, request), false);
  }

  // ----- the whole ledger -----

  lemma EntriesAppend(records: seq<DecisionRecord>, more: seq<DecisionRecord>)
    ensures Entries(records + more) == Entries(records) + Entries(more)
  {}

  /** The open request's fate is all that reached the ledger. */
  lemma FatedExactly(s: Session, t: Session, fate: Fate)
    requires s.pendingTrace.Some? && Fated(s, t, fate) && Owed(t) == Owed(s)
    requires s.pendingTrace.value.safeSetDigest == SafeSetDigest(s.pendingTrace.value.request.safe)
    ensures Entries(t.records) == Entries(s.records) + EntryOf(s.pendingTrace.value.request, fate)
  {
    assert |Owed(t)| == |Owed(s)|;
    hide Owed;
    if fate.Some? {
      assert t.records == s.records + [t.records[|s.records|]];
      EntriesAppend(s.records, [t.records[|s.records|]]);
    }
  }

  /** Without an open request nothing reaches the ledger. */
  lemma NothingExactly(s: Session, t: Session)
    requires s.pendingTrace.None? && s.records <= t.records && Owed(t) == Owed(s)
    ensures t.records == s.records
  {
    assert |Owed(t)| == |Owed(s)|;
    hide Owed;
  }

  /** Neither lost in the sink nor left without a trace. */
  lemma {:induction false} StepIsExact(cfg: Config, s: Session, item: StreamItem)
    requires Inv(cfg, s) && !s.done && Coherent(item) && cfg.context.Some? && SinkWorks(cfg)
    ensures var t := Step(cfg, s, item);
            && !t.traceFailed && s.records <= t.records
            && Owed(s) + FreshHere(cfg, s, item)
               == Owed(t) + (if Undigestible(cfg, s, item) then FreshHere(cfg, s, item) else [])
            && (Undigestible(cfg, s, item) ==> t.pendingTrace.None?)
  {
    hide Inv, Mid, Ledger, Step, SinkWorks, Owed, FreshHere, Undigestible, Coherent, LineOk, Short, RecordRqids;
    InvIsSound(cfg, s);
    StepOwes(cfg, s, item);
    StepKeeps(cfg, s, item);
    InvIsMid(cfg, Step(cfg, s, item));
    MidLedger(cfg, Step(cfg, s, item));
    LedgerFlags(cfg, Step(cfg, s, item));
    InvIsCurrent(cfg, s);
    StepEffects(cfg, s, item);
    LineOkRecords(cfg, s, SeenBy(cfg, item), Step(cfg, s, item));
  }

  lemma LineOkRecords(cfg: Config, s: Session, payload: Payload, t: Session)
    requires LineOk(cfg, s, payload, t)
    ensures s.records <= t.records
  {
    hide NextState, SentAtMostOne, NotedAtMostOne, Explained;
  }

  lemma TraceOfSession(cfg: Config, s: Session)
    requires Inv(cfg, s) && s.pendingTrace.Some?
    ensures s.pendingTrace.value.safeSetDigest == SafeSetDigest(s.pendingTrace.value.request.safe)
  {
    LedgerFacts(cfg, s);
    TraceOfLedger(cfg, s);
    hide Inv, Ledger;
  }

  lemma {:induction false} StepWithoutArrival(cfg: Config, s: Session, item: StreamItem)
    requires Inv(cfg, s) && !s.done && Coherent(item) && cfg.context.Some? && SinkWorks(cfg)
    requires FreshRequest(cfg, s, item).None?
    ensures Entries(Step(cfg, s, item).records) == Entries(s.records) + OpenEntry(cfg, s, item)
  {
    hide Inv, Step, SinkWorks, Owed, Coherent, OpenFate, Fated, Entries;
    var t := Step(cfg, s, item);
    StepIsExact(cfg, s, item);
    assert Owed(t) == Owed(s) by {
      assert Owed(s) + [] == Owed(s) && Owed(t) + [] == Owed(t);
    }
    if s.pendingTrace.None? {
      NothingExactly(s, t);
      assert Entries(s.records) + [] == Entries(s.records);
    } else {
      OpenRequestFate(cfg, s, item);
      TraceOfSession(cfg, s);
      FatedExactly(s, t, OpenFate(cfg, s, item));
    }
  }

  /** A fresh request first costs the open one its place. */
  lemma {:induction false} SupersedingEntry(cfg: Config, s: Session, request: DecisionRequest)
    requires Inv(cfg, s) && !s.done && cfg.context.Some? && SinkWorks(cfg)
    requires CheckFreshness(s, request.identity).Fresh?
    ensures var t := Superseding(cfg, s, request);
            Entries(t.records) == Entries(s.records) + (if s.pendingTrace.None? then [] else
              EntryOf(s.pendingTrace.value.request, RequestFate(s, request)))
  {
    hide Inv, SinkWorks, Owed, CheckFreshness, Superseding, Entries, Ledger, Finalize;
    var t := Superseding(cfg, s, request);
    InvIsSound(cfg, s);
    SupersedingWorks(cfg, s, request);
    if s.pendingTrace.None? {
      NothingExactly(s, t);
      assert Entries(s.records) + [] == Entries(s.records);
    } else {
      OpenLedger(cfg, s, STALE_FAULT);
      FinalizeWrites(cfg, s, SupersededBeforeSelection, None, None);
      SupersedingRecords(cfg, s, request);
      SameDisposition(s, Finalize(cfg, s, SupersededBeforeSelection, None, None), t, SupersededBeforeSelection, None);
      hide Disposed;
      TraceOfSession(cfg, s);
      FatedExactly(s, t, Some((SupersededBeforeSelection, None)));
    }
  }

  lemma SupersedingRecords(cfg: Config, s: Session, request: DecisionRequest)
    ensures Superseding(cfg, s, request).records == Finalize(cfg, s, SupersededBeforeSelection, None, None).records
  {
    hide Finalize;
  }

  lemma FreshItem(cfg: Config, s: Session, item: StreamItem)
    requires FreshRequest(cfg, s, item).Some? && Coherent(item)
    ensures var request := FreshRequest(cfg, s, item).value;
            && item == Line(RoomLine(Some(cfg.roomId), RequestLine(Ok(request))))
            && CheckFreshness(s, request.identity).Fresh? && request.identity == request.safe.identity
            && Step(cfg, s, item) == Settle(cfg, ProcessRequest(cfg, s, request))
            && OpenFate(cfg, s, item) == RequestFate(s, request)
  {
    hide CheckFreshness, Abort, ProcessRequest, RequestFate;
  }

  lemma SupersedingOwed(cfg: Config, s: Session, request: DecisionRequest)
    requires Inv(cfg, s) && !s.done && cfg.context.Some? && SinkWorks(cfg)
    requires CheckFreshness(s, request.identity).Fresh?
    ensures var t := Superseding(cfg, s, request); t.pendingTrace.None? && Owed(t) == Owed(s)
  {
    hide Inv, CheckFreshness, Superseding, SinkWorks, Owed;
    SupersedingWorks(cfg, s, request);
  }

  lemma OwedOfOpened(s: Session, t: Session, rqid: int)
    requires s.pendingTrace.None? && t.records == s.records && OpenRqids(t) == [rqid]
    ensures Owed(t) == Owed(s) + [rqid]
  {}

  /** Without a trace the request has no place in the ledger. */
  lemma UndigestedRecords(cfg: Config, s: Session, request: DecisionRequest)
    requires Inv(cfg, s) && !s.done && cfg.context.Some? && SinkWorks(cfg)
    requires CheckFreshness(s, request.identity).Fresh?
    requires !cfg.team.canonical(s.state) || !SafeInteger(request.safe.identity.rqid)
    ensures Settle(cfg, ProcessRequest(cfg, s, request)).records == Superseding(cfg, s, request).records
  {
    hide Inv, SinkWorks, Finalize, CheckFreshness, Kept, AbortRecordCode, FirstError;
    var t := Superseding(cfg, s, request);
    SupersedingWorks(cfg, s, request);
    FinalizeKeepsState(cfg, s, SupersededBeforeSelection, None, None);
    var fault := if cfg.team.canonical(s.state) then VALUE_FAULT else CANONICAL_FAULT;
    assert ProcessRequest(cfg, s, request) == Raises(t, fault);
    AbortWithoutTrace(cfg, t, fault);
  }

  lemma AbortWithoutTrace(cfg: Config, s: Session, fault: Fault)
    requires s.pendingTrace.None?
    ensures Abort(cfg, s, fault).records == s.records
  {
    hide AbortRecordCode;
  }

  lemma {:induction false} StepWithArrival(cfg: Config, s: Session, item: StreamItem)
    requires Inv(cfg, s) && !s.done && Coherent(item) && cfg.context.Some? && SinkWorks(cfg)
    requires FreshRequest(cfg, s, item).Some?
    ensures Entries(Step(cfg, s, item).records)
         == Entries(s.records) + OpenEntry(cfg, s, item) + ArrivalEntry(cfg, s, item)
  {
    hide Inv, Step, SinkWorks, Owed, OpenFate, Fated, Entries, FreshRequest, Coherent, CheckFreshness, Superseding,
         Opened, Settle, RequestFate, RetryFate, Kept;
    FreshItem(cfg, s, item);
    StepIsExact(cfg, s, item);
    var request, t := FreshRequest(cfg, s, item).value, Step(cfg, s, item);
    var u := Superseding(cfg, s, request);
    SupersedingEntry(cfg, s, request);
    SupersedingOwed(cfg, s, request);
    if Undigestible(cfg, s, item) {
      UndigestedRecords(cfg, s, request);
      assert Entries(u.records) + [] == Entries(u.records);
    } else {
      ArrivalFated(cfg, s, request);
      var w := Opened(cfg, s, request);
      OwedOfOpened(u, w, request.identity.rqid);
      assert Owed(t) + [] == Owed(t);
      FatedExactly(w, t, RetryFate(cfg, w, false));
    }
  }

  /** One item adds to the ledger what it does to the open request, then what it does to the request it brings. */
  lemma {:induction false} StepFates(cfg: Config, s: Session, item: StreamItem)
    requires Inv(cfg, s) && !s.done && Coherent(item) && cfg.context.Some? && SinkWorks(cfg)
    ensures Entries(Step(cfg, s, item).records)
         == Entries(s.records) + OpenEntry(cfg, s, item) + ArrivalEntry(cfg, s, item)
  {
    hide Inv, Step, SinkWorks, OpenEntry, Entries, FreshRequest, Coherent;
    if FreshRequest(cfg, s, item).Some? {
      StepWithArrival(cfg, s, item);
    } else {
      StepWithoutArrival(cfg, s, item);
      assert ArrivalEntry(cfg, s, item) == [];
    }
  }

  lemma FatesUnfold(cfg: Config, s: Session, items: seq<StreamItem>)
    requires items != [] && !s.done
    ensures Fates(cfg, s, items)
         == OpenEntry(cfg, s, items[0]) + ArrivalEntry(cfg, s, items[0])
            + Fates(cfg, Step(cfg, s, items[0]), items[1..])
  {
    hide Step, OpenEntry, ArrivalEntry;
  }

  lemma {:induction false} RunFates(cfg: Config, s: Session, items: seq<StreamItem>)
    requires Inv(cfg, s) && Admissible(items) && cfg.context.Some? && SinkWorks(cfg)
    ensures Entries(Run(cfg, s, items).records) == Entries(s.records) + Fates(cfg, s, items)
    decreases |items|
  {
    hide Inv, Step, SinkWorks, OpenEntry, ArrivalEntry, Entries;
    if items == [] || s.done {
      assert Fates(cfg, s, items) == [];
    } else {
      var t := Step(cfg, s, items[0]);
      StepFates(cfg, s, items[0]);
      StepKeeps(cfg, s, items[0]);
      assert forall i :: 0 <= i < |items[1..]| ==> items[1..][i] == items[i + 1];
      RunFates(cfg, t, items[1..]);
      FatesUnfold(cfg, s, items);
      hide Fates;
    }
  }

  /** The ledger of every run with a working sink, entry by entry: each record's request, status and error code are
      the fate of a fresh request, in the order the requests met theirs; nothing else is recorded. */
  lemma {:induction false} LedgerIsFates(cfg: Config, state: ObservedState, items: seq<StreamItem>)
    requires StateOk(state) && Admissible(items) && cfg.context.Some? && SinkWorks(cfg)
    ensures Entries(After(cfg, state, items).records) == Fates(cfg, InitialSession(state), items)
  {
    hide Inv, StateOk, Fates, Run, SinkWorks;
    InitialInv(cfg, state);
    RunFates(cfg, InitialSession(state), items);
  }
}
