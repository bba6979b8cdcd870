/** The law that every fresh request gets its record: exactly when a run keeps it, and what is missing when it does
    not. */
module SessionLaw {
  import opened Basics
  import opened ObservedStates
  import opened Reducer
  import opened ReducerInvariants
  import opened RosterKeys
  import opened Submissions
  import opened Reconciler
  import opened DecisionRecords
  import opened SessionModel
  import opened SessionInvariants
  import opened SessionEffects
  import opened SessionTheorems
  import opened SessionWaits
  import opened SessionDispositions

  // ----- what a run is shown -----

  /** One pass of the loop in `run`, before an exception is turned into an abort. */
  function FlowOf(cfg: Config, s: Session, item: StreamItem): Flow {
    match item
    case StreamFault(fault) => Raises(s, fault)
    case Line(line) => if line.roomId == Some(cfg.roomId) then ProcessLine(cfg, s, line.payload) else Returns(s)
  }

  function FreshHere(cfg: Config, s: Session, item: StreamItem): seq<int> {
    match FreshRequest(cfg, s, item)
    case None => []
    case Some(request) => [request.identity.rqid]
  }

  /** The rqids of the requests that passed the freshness check along a run, in order. */
  function FreshRqids(cfg: Config, s: Session, items: seq<StreamItem>): seq<int>
    decreases |items|
  {
    if items == [] || s.done then [] else
    FreshHere(cfg, s, items[0]) + FreshRqids(cfg, Step(cfg, s, items[0]), items[1..])
  }

  /** A fresh request arrives in a state without canonical form, or with an rqid outside the safe integers. */
  predicate Undigestible(cfg: Config, s: Session, item: StreamItem) {
    && FreshRequest(cfg, s, item).Some?
    && (!cfg.team.canonical(s.state) || !SafeInteger(FreshRequest(cfg, s, item).value.safe.identity.rqid))
  }

  predicate DigestFails(cfg: Config, s: Session, items: seq<StreamItem>)
    decreases |items|
  {
    items != [] && !s.done
    && (Undigestible(cfg, s, items[0]) || DigestFails(cfg, Step(cfg, s, items[0]), items[1..]))
  }

  /** The item ends the run by a fault without a record code, and a request is still open then. */
  predicate UncodedHere(cfg: Config, s: Session, item: StreamItem) {
    var f := FlowOf(cfg, s, item);
    f.raised.Some? && AbortRecordCode(f.raised.value).None? && f.session.pendingTrace.Some?
  }

  predicate EndsUncoded(cfg: Config, s: Session, items: seq<StreamItem>)
    decreases |items|
  {
    items != [] && !s.done
    && (UncodedHere(cfg, s, items[0]) || EndsUncoded(cfg, Step(cfg, s, items[0]), items[1..]))
  }

  // ----- what a session owes -----

  function RecordRqids(records: seq<DecisionRecord>): seq<int> {
    seq(|records|, i requires 0 <= i < |records| => records[i].rqid)
  }

  function OpenRqids(s: Session): seq<int> {
    if s.pendingTrace.Some? then [s.pendingTrace.value.request.identity.rqid] else []
  }

  /** The rqids for which a record was written or is still to be written. */
  function Owed(s: Session): seq<int> { RecordRqids(s.records) + OpenRqids(s) }

  /** The open trace became a record, or was lost in a refusing sink, or is still open; nothing else happened to it. */
  ghost predicate Kept(cfg: Config, s: Session, t: Session) {
    && (s.traceFailed ==> t.traceFailed)
    && (t.pendingTrace.Some? ==> !t.traceFailed && OpenRqids(t) == OpenRqids(s))
    && (if t.traceFailed && !s.traceFailed
        then s.pendingTrace.Some? && t.done && Owed(s) == Owed(t) + OpenRqids(s)
        else Owed(t) == Owed(s))
  }

  /** A session that stops on its own leaves no trace open. */
  predicate Shut(s: Session, t: Session) {
    t.done && !s.done ==> t.pendingTrace.None?
  }

  /** A trace is open only while the sink works. */
  predicate Sound(s: Session) {
    s.pendingTrace.Some? ==> !s.traceFailed
  }

  ghost predicate Alike(s: Session, t: Session) {
    && t.records == s.records && OpenRqids(t) == OpenRqids(s) && t.traceFailed == s.traceFailed
    && t.done == s.done
  }

  lemma KeptAlike(cfg: Config, s: Session, from: Session, t: Session)
    requires Alike(s, from) && Kept(cfg, from, t) && Shut(from, t)
    ensures Kept(cfg, s, t) && Shut(s, t)
  {}

  lemma AlikeKept(cfg: Config, s: Session, t: Session)
    requires Alike(s, t) && Sound(s)
    ensures Kept(cfg, s, t) && Shut(s, t)
  {}

  lemma RecordAppended(records: seq<DecisionRecord>, r: DecisionRecord)
    ensures RecordRqids(records + [r]) == RecordRqids(records) + [r.rqid]
  {}

  lemma FirstErrorAlike(s: Session, fault: Fault)
    ensures Alike(s, FirstError(s, fault))
  {}

  lemma ConcludedKept(cfg: Config, s: Session, record: DecisionRecord)
    requires s.pendingTrace.Some? && !s.traceFailed && record.rqid == s.pendingTrace.value.request.identity.rqid
    ensures var t := Concluded(cfg, s, record);
            Kept(cfg, s, t) && t.pendingTrace.None? && (t.done ==> s.done || t.traceFailed)
  {
    RecordAppended(s.records, record);
    hide RecordChecks, RecordRqids;
  }

  lemma FinalizeKept(
    cfg: Config, s: Session, status: RecordStatus, code: Option<ErrorCode>, selected: Option<BattleSubmission>)
    requires cfg.context.Some? && Sound(s)
    ensures var t := Finalize(cfg, s, status, code, selected);
            Kept(cfg, s, t) && t.pendingTrace.None? && (t.done ==> s.done || t.traceFailed) && (s.done ==> t.done)
  {
    hide RecordChecks, Concluded, Kept;
    if s.pendingTrace.Some? {
      var record := MakeRecord(cfg.context.value, s.pendingTrace.value, status, code, selected);
      MadeRecord(cfg.context.value, s.pendingTrace.value, status, code, selected);
      ConcludedKept(cfg, s, record);
      ConcludedStaysDone(cfg, s, record);
    } else {
      AlikeKept(cfg, s, s);
    }
  }

  lemma ConcludedStaysDone(cfg: Config, s: Session, record: DecisionRecord)
    ensures s.done ==> Concluded(cfg, s, record).done
  {
    hide RecordChecks;
  }

  /** What holds of every flow of `_process_line` that works on a request already open. */
  ghost predicate FlowKept(cfg: Config, s: Session, f: Flow) {
    Kept(cfg, s, f.session) && Shut(s, f.session) && (s.done ==> f.session.done)
  }

  lemma FailKept(
    cfg: Config, s: Session, noted: Session, fault: Fault, status: RecordStatus, code: Option<ErrorCode>,
    selected: Option<BattleSubmission>)
    requires cfg.context.Some? && Sound(s) && Alike(s, noted)
    ensures FlowKept(cfg, s, Raises(Finalize(cfg, FirstError(noted, fault), status, code, selected), fault))
  {
    FirstErrorAlike(noted, fault);
    var from := FirstError(noted, fault);
    hide FirstError, Finalize;
    FinalizeKept(cfg, from, status, code, selected);
    KeptAlike(cfg, s, from, Finalize(cfg, from, status, code, selected));
  }

  lemma EndKept(cfg: Config, s: Session, from: Session, status: RecordStatus, selected: Option<BattleSubmission>)
    requires cfg.context.Some? && Sound(s) && Alike(s, from)
    ensures FlowKept(cfg, s, Returns(Finalize(cfg, from, status, None, selected)))
  {
    hide Finalize;
    FinalizeKept(cfg, from, status, None, selected);
    KeptAlike(cfg, s, from, Finalize(cfg, from, status, None, selected));
  }

  lemma SendKept(
    cfg: Config, s: Session, asked: Session, request: DecisionRequest, choice: BattleSubmission, text: string)
    requires cfg.context.Some? && Sound(s) && Alike(s, asked)
    ensures FlowKept(cfg, s, SendChoice(cfg, asked, request, choice, text))
  {
    hide Finalize, FirstError, FlowKept;
    var logged := Logged(cfg, asked, request, choice, text);
    match cfg.team.send(asked.calls)
    case RefusedInvalid =>
      FailKept(cfg, s, logged, INVALID_CHOICE_FAULT, SendFailed, Some(ServerInvalidChoice), Some(choice));
    case RefusedUnavailable =>
      FailKept(cfg, s, logged, UNAVAILABLE_CHOICE_FAULT, SendFailed, Some(ServerUnavailableChoice), Some(choice));
    case SendRaises(fault) => FailKept(cfg, s, logged, fault, SendFailed, Some(SendingFailed), Some(choice));
    case Delivered => EndKept(cfg, s, Sent(cfg, asked, request, choice, text), Submitted, Some(choice));
  }

  lemma ChoiceKept(cfg: Config, s: Session, asked: Session, request: DecisionRequest, candidate: BattleSubmission)
    requires cfg.context.Some? && Sound(s) && Alike(s, asked)
    ensures FlowKept(cfg, s, SubmitChoice(cfg, asked, request, candidate))
  {
    hide Finalize, FirstError, FlowKept, SendChoice;
    match Authorize(candidate, request.identity, request.safe)
    case Err(StaleIdentity) => SameKept(cfg, s, SubmitChoice(cfg, asked, request, candidate));
    case Err(NotInSafeSet) =>
      FailKept(cfg, s, asked.(notes := asked.notes + [ChosenOutside(request, asked.state, asked.calls, candidate)]),
               GATE_FAULT, ActionGateRejected, Some(LocalActionGateRejection), Some(candidate));
    case Ok(choice) =>
      match cfg.team.encode(choice)
      case Err(fault) =>
        FailKept(cfg, s, asked.(notes := asked.notes + [Unencodable(request, asked.state, asked.calls, choice)]), fault,
                 CommandEncodingFailed, Some(EncodingFailed), Some(choice));
      case Ok(text) => SendKept(cfg, s, asked, request, choice, text);
  }

  lemma SameKept(cfg: Config, s: Session, f: Flow)
    requires Alike(s, f.session) && Sound(s)
    ensures FlowKept(cfg, s, f)
  {
  }

  lemma SubmitKept(cfg: Config, s: Session, ready: Session, request: DecisionRequest)
    requires cfg.context.Some? && Sound(s) && Alike(s, ready)
    ensures FlowKept(cfg, s, Submit(cfg, ready, request))
  {
    hide Finalize, FirstError, FlowKept, SubmitChoice;
    var asked := ready.(calls := ready.calls + 1);
    if ready.submitted == Some(request.identity) {
      SameKept(cfg, s, Submit(cfg, ready, request));
    } else if request.kind.Wait? {
      EndKept(cfg, s, ready.(submitted := Some(request.identity), pending := None), WaitNoop, None);
    } else {
      match cfg.team.policy(ready.calls, request)
      case NoLegalAction =>
        FailKept(cfg, s, asked.(notes := ready.notes + [NothingChosen(request, ready.state, asked.calls)]),
                 NO_LEGAL_ACTION_FAULT, PolicyRejected, Some(NoLegalActionAvailable), None);
      case PolicyRaises(_) => SameKept(cfg, s, Submit(cfg, ready, request));
      case Chosen(candidate) => ChoiceKept(cfg, s, asked, request, candidate);
    }
  }

  lemma RetryKept(cfg: Config, s: Session, strict: bool)
    requires cfg.context.Some? && Sound(s)
    ensures FlowKept(cfg, s, Retry(cfg, s, strict))
  {
    hide Finalize, FirstError, FlowKept, Submit, Reconcile;
    SameKept(cfg, s, Returns(s));
    if s.pending.Some? {
      var request := s.pending.value;
      match Reconcile(cfg.roomId, request, s.state, SubmittedRqid(s))
      case Reject(reason) =>
        FailKept(cfg, s, s.(notes := s.notes + [Rejection(request, s.state, SubmittedRqid(s), reason)]), MISMATCH_FAULT,
                 ReconciliationRejected, Some(ReconciliationMismatch), None);
      case Pending(reason) =>
        FailKept(cfg, s, s.(notes := s.notes + [Overdue(request, s.state, SubmittedRqid(s), reason)]), MISMATCH_FAULT,
                 ReconciliationRejected, Some(ReconciliationMismatch), None);
      case Accept =>
        var refreshed := RefreshTrace(cfg, s);
        SameKept(cfg, s, refreshed);
        SubmitKept(cfg, s, refreshed.session, request);
    }
  }

  lemma EventKept(cfg: Config, s: Session, body: EventBody)
    requires cfg.context.Some? && Sound(s)
    ensures FlowKept(cfg, s, AfterEvent(cfg, s, body))
  {
    SameKept(cfg, s, Returns(s));
    EndKept(cfg, s, s, TerminallyDiscarded, None);
    RetryKept(cfg, s, true);
    RetryKept(cfg, s, body.BattleStarted?);
    hide Kept, Finalize, Retry, RetryEvent;
    if body.BattleWon? || body.BattleTied? {
      hide FlowKept;
      DiscardKept(cfg, s);
    }
  }

  lemma DiscardKept(cfg: Config, s: Session)
    requires cfg.context.Some? && Sound(s)
    ensures FlowKept(cfg, s, Returns(Finalize(cfg, s, TerminallyDiscarded, None, None).(pending := None, done := true)))
  {
    FinalizeKept(cfg, s, TerminallyDiscarded, None, None);
    var t := Finalize(cfg, s, TerminallyDiscarded, None, None);
    hide Finalize;
    StoppedKept(cfg, s, t);
  }

  lemma StoppedKept(cfg: Config, s: Session, t: Session)
    requires Kept(cfg, s, t)
    ensures Kept(cfg, s, t.(pending := None, done := true))
  {}

  lemma AbortKept(cfg: Config, s: Session, fault: Fault)
    requires cfg.context.Some? && Sound(s)
    ensures var t := Abort(cfg, s, fault);
            Kept(cfg, s, t) && t.done
            && (t.pendingTrace.Some? <==> s.pendingTrace.Some? && AbortRecordCode(fault).None?)
  {
    hide Finalize, FirstError, AbortRecordCode, FlowKept, Kept, Sound;
    var failed := FirstError(s, fault);
    FirstErrorAlike(s, fault);
    AlikeKept(cfg, s, failed);
    AlikeSound(s, failed);
    FinalizeKept(cfg, failed, FreshnessInvalidated, None, None);
    FinalizeKept(cfg, failed, SessionAborted, AbortRecordCode(fault), None);
    var code := AbortRecordCode(fault);
    var ended := if code.None? then failed
                 else if code.value == ReconciliationMismatch || code.value == StaleRqidCode
                 then Finalize(cfg, failed, FreshnessInvalidated, None, None)
                 else Finalize(cfg, failed, SessionAborted, code, None);
    if code.Some? {
      EndedKept(cfg, s, failed, ended);
    }
    StoppedKept(cfg, s, ended);
    assert Abort(cfg, s, fault) == ended.(pending := None, done := true);
  }

  lemma AlikeSound(s: Session, t: Session)
    requires Alike(s, t) && Sound(s)
    ensures Sound(t) && (t.pendingTrace.Some? <==> s.pendingTrace.Some?)
  {}

  lemma EndedKept(cfg: Config, s: Session, from: Session, t: Session)
    requires Alike(s, from) && Kept(cfg, from, t) && t.pendingTrace.None?
    ensures Kept(cfg, s, t)
  {}

  // ----- one item -----

  /** `have` is `all` without its last elements, at least `least` and at most `most` of them. */
  ghost predicate Short(all: seq<int>, have: seq<int>, least: nat, most: nat) {
    have <= all && |have| + least <= |all| <= |have| + most
  }

  /** What becomes of the fresh requests a pass brings: owed from now on, unless no trace could be opened; a refusing
      sink costs the open request its record and a request that supersedes it the trace. */
  ghost predicate Owes(cfg: Config, s: Session, arrived: seq<int>, digested: bool, t: Session) {
    && (if t.traceFailed then t.done && t.pendingTrace.None? && Short(Owed(s) + arrived, RecordRqids(t.records), 1, 2)
        else Owed(s) + arrived == Owed(t) + (if digested then [] else arrived) && (!digested ==> t.pendingTrace.None?))
  }

  lemma KeptOwes(cfg: Config, s: Session, t: Session)
    requires Kept(cfg, s, t) && !s.traceFailed
    ensures Owes(cfg, s, [], true, t)
  {
    hide RecordRqids;
    assert Owed(s) + [] == Owed(s) && Owed(t) + [] == Owed(t);
  }

  lemma OwesThenKept(cfg: Config, s: Session, arrived: seq<int>, digested: bool, t: Session, u: Session)
    requires Owes(cfg, s, arrived, digested, t) && Kept(cfg, t, u) && u.done
    ensures Owes(cfg, s, arrived, digested, u)
  {
    hide RecordRqids;
    assert Owed(t) + [] == Owed(t);
    if u.traceFailed {
      assert OpenRqids(u) == [] && Owed(u) == RecordRqids(u.records);
      if t.traceFailed { assert Owed(t) == RecordRqids(t.records); }
    }
  }

  lemma OpenedOwes(cfg: Config, s: Session, traced: Session, request: DecisionRequest, t: Session)
    requires !traced.traceFailed
    requires Owed(traced) == Owed(s) + [request.identity.rqid]
    requires Kept(cfg, traced, t)
    ensures Owes(cfg, s, [request.identity.rqid], true, t)
  {
    hide RecordRqids;
    KeptOwes(cfg, traced, t);
    assert Owed(s) + [request.identity.rqid] + [] == Owed(traced) + [];
  }

  lemma RequestOwes(cfg: Config, s: Session, request: DecisionRequest)
    requires cfg.context.Some? && Sound(s) && !s.done && !s.traceFailed && CheckFreshness(s, request.identity).Fresh?
    ensures var f := ProcessRequest(cfg, s, request);
            var digested := cfg.team.canonical(s.state) && SafeInteger(request.safe.identity.rqid);
            Owes(cfg, s, [request.identity.rqid], digested, f.session) && Shut(s, f.session)
            && (!digested && !f.session.traceFailed ==> f.raised.Some?)
  {
    hide Finalize, CheckFreshness, Retry, RecordRqids;
    FinalizeKept(cfg, s, SupersededBeforeSelection, None, None);
    FinalizeKeepsState(cfg, s, SupersededBeforeSelection, None, None);
    var t := Finalize(cfg, s, SupersededBeforeSelection, None, None)
             .(latest := Some(request.identity), pending := Some(request));
    var traced := OpenTrace(cfg, t, request);
    if !t.traceFailed && traced.raised.None? {
      RetryKept(cfg, traced.session, false);
      OpenedOwes(cfg, s, traced.session, request, Retry(cfg, traced.session, false).session);
    }
  }

  lemma EventOwes(cfg: Config, s: Session, parsed: Result<EventBody, Fault>)
    requires cfg.context.Some? && Sound(s) && !s.done && !s.traceFailed
    ensures Owes(cfg, s, [], true, ProcessEvent(cfg, s, parsed).session)
    ensures Shut(s, ProcessEvent(cfg, s, parsed).session)
  {
    hide Reduce, AfterEvent, Kept, Owes;
    AlikeKept(cfg, s, s);
    KeptOwes(cfg, s, s);
    if parsed.Ok? && Reduce(s.state, s.state.eventIndex + 1, parsed.value).Ok? {
      var t := s.(state := Reduce(s.state, s.state.eventIndex + 1, parsed.value).value);
      var u := AfterEvent(cfg, t, parsed.value).session;
      EventKept(cfg, t, parsed.value);
      KeptAlike(cfg, s, t, u);
      KeptOwes(cfg, s, u);
    }
  }

  lemma StillOwes(cfg: Config, s: Session, t: Session)
    requires Alike(s, t) && Sound(s) && !s.traceFailed
    ensures Owes(cfg, s, [], true, t) && Shut(s, t)
  {
    AlikeKept(cfg, s, t);
    KeptOwes(cfg, s, t);
    hide Owes, Alike;
  }

  lemma FlowOwes(cfg: Config, s: Session, item: StreamItem)
    requires cfg.context.Some? && Sound(s) && !s.done && !s.traceFailed
    ensures var f := FlowOf(cfg, s, item);
            && Owes(cfg, s, FreshHere(cfg, s, item), !Undigestible(cfg, s, item), f.session) && Shut(s, f.session)
            && (Undigestible(cfg, s, item) && !f.session.traceFailed ==> f.raised.Some?)
  {
    hide Owes, Kept, ProcessEvent, ProcessRequest, CheckFreshness, Reduce;
    StillOwes(cfg, s, s);
    match SeenBy(cfg, item)
    case BattleLine(_, parsed) => EventOwes(cfg, s, parsed);
    case RequestLine(Ok(request)) =>
      if CheckFreshness(s, request.identity).Fresh? {
        RequestOwes(cfg, s, request);
      } else {
        OldRequestStays(cfg, s, request);
      }
    case _ => StillOwes(cfg, s, FlowOf(cfg, s, item).session);
  }

  lemma OldRequestStays(cfg: Config, s: Session, request: DecisionRequest)
    requires !CheckFreshness(s, request.identity).Fresh?
    ensures ProcessRequest(cfg, s, request).session == s
  {
    hide CheckFreshness;
  }

  lemma StepSettles(cfg: Config, s: Session, item: StreamItem)
    ensures var f := FlowOf(cfg, s, item);
            Step(cfg, s, item) == if f.raised.Some? then Abort(cfg, f.session, f.raised.value) else f.session
  {
    hide ProcessLine, Abort;
  }

  lemma OwesSound(cfg: Config, s: Session, arrived: seq<int>, digested: bool, t: Session)
    requires Owes(cfg, s, arrived, digested, t)
    ensures Sound(t)
  {
    hide RecordRqids, Short;
  }

  lemma StepOwes(cfg: Config, s: Session, item: StreamItem)
    requires cfg.context.Some? && Sound(s) && !s.done && !s.traceFailed
    ensures var t := Step(cfg, s, item);
            && Owes(cfg, s, FreshHere(cfg, s, item), !Undigestible(cfg, s, item), t)
            && (Undigestible(cfg, s, item) ==> t.done)
            && (t.done && t.pendingTrace.Some? <==> UncodedHere(cfg, s, item))
  {
    FlowOwes(cfg, s, item);
    StepSettles(cfg, s, item);
    var f := FlowOf(cfg, s, item);
    var arrived, digested := FreshHere(cfg, s, item), !Undigestible(cfg, s, item);
    OwesSound(cfg, s, arrived, digested, f.session);
    FailedIsDone(cfg, s, arrived, digested, f.session);
    hide Owes, Kept, FlowOf, Step, Abort, Undigestible, FreshHere, AbortRecordCode;
    if f.raised.Some? {
      AbortKept(cfg, f.session, f.raised.value);
      OwesThenKept(cfg, s, arrived, digested, f.session, Abort(cfg, f.session, f.raised.value));
    }
  }

  lemma FailedIsDone(cfg: Config, s: Session, arrived: seq<int>, digested: bool, t: Session)
    requires Owes(cfg, s, arrived, digested, t)
    ensures t.traceFailed ==> t.done
  {
    hide RecordRqids, Short;
  }

  // ----- whole runs -----

  /** The fresh requests of a run against its records. */
  ghost predicate RunOwed(cfg: Config, s: Session, items: seq<StreamItem>, t: Session) {
    var all := Owed(s) + FreshRqids(cfg, s, items);
    && (if t.traceFailed then t.pendingTrace.None? && Short(all, RecordRqids(t.records), 1, 2)
        else if DigestFails(cfg, s, items) then t.pendingTrace.None? && Short(all, RecordRqids(t.records), 1, 1)
        else all == Owed(t))
    && (t.done && t.pendingTrace.Some? <==> EndsUncoded(cfg, s, items))
  }

  lemma NothingOwed(cfg: Config, s: Session)
    requires !s.done && !s.traceFailed
    ensures RunOwed(cfg, s, [], s)
  {
    hide Owed;
    assert Owed(s) + [] == Owed(s);
  }

  /** The run stops at its first item. */
  lemma StoppedOwed(cfg: Config, s: Session, items: seq<StreamItem>, t: Session)
    requires items != [] && !s.done && t == Step(cfg, s, items[0]) && t.done
    requires Owes(cfg, s, FreshHere(cfg, s, items[0]), !Undigestible(cfg, s, items[0]), t)
    requires t.done && t.pendingTrace.Some? <==> UncodedHere(cfg, s, items[0])
    ensures RunOwed(cfg, s, items, t)
  {
    hide RecordRqids, Step, CheckFreshness, UncodedHere, SeenBy;
    var arrived, rest := FreshHere(cfg, s, items[0]), items[1..];
    assert FreshRqids(cfg, t, rest) == [] && !DigestFails(cfg, t, rest) && !EndsUncoded(cfg, t, rest);
    assert FreshRqids(cfg, s, items) == arrived + [] == arrived;
    assert Owed(t) + [] == Owed(t);
    if !t.traceFailed && Undigestible(cfg, s, items[0]) {
      assert |arrived| == 1 && Owed(t) == RecordRqids(t.records);
    }
  }

  /** The run goes on after its first item. */
  lemma ContinuedOwed(cfg: Config, s: Session, items: seq<StreamItem>, t: Session, u: Session)
    requires items != [] && !s.done && t == Step(cfg, s, items[0]) && !t.done && !t.traceFailed
    requires Owes(cfg, s, FreshHere(cfg, s, items[0]), true, t)
    requires !Undigestible(cfg, s, items[0]) && !UncodedHere(cfg, s, items[0])
    requires RunOwed(cfg, t, items[1..], u)
    ensures RunOwed(cfg, s, items, u)
  {
    hide RecordRqids, Step, FreshHere, UncodedHere, Undigestible, Owed, Short;
    var arrived, rest := FreshHere(cfg, s, items[0]), FreshRqids(cfg, t, items[1..]);
    assert Owed(t) + [] == Owed(t);
    assert Owed(s) + (arrived + rest) == Owed(t) + rest;
  }

  lemma {:induction false} RunOwes(cfg: Config, s: Session, items: seq<StreamItem>)
    requires Inv(cfg, s) && Admissible(items) && cfg.context.Some? && !s.done
    ensures RunOwed(cfg, s, items, Run(cfg, s, items))
    decreases |items|
  {
    hide Inv, Step, RunOwed, Owes, FreshHere, Undigestible, UncodedHere;
    InvIsSound(cfg, s);
    if items == [] {
      NothingOwed(cfg, s);
    } else {
      var t := Step(cfg, s, items[0]);
      StepOwes(cfg, s, items[0]);
      StepKeeps(cfg, s, items[0]);
      InvIsSound(cfg, t);
      if t.done {
        StoppedOwed(cfg, s, items, t);
      } else {
        assert forall i :: 0 <= i < |items[1..]| ==> items[1..][i] == items[i + 1];
        RunOwes(cfg, t, items[1..]);
        ContinuedOwed(cfg, s, items, t, Run(cfg, t, items[1..]));
      }
    }
  }

  lemma InvIsSound(cfg: Config, s: Session)
    requires Inv(cfg, s)
    ensures Sound(s) && (s.traceFailed <==> s.traceError) && (s.traceFailed ==> s.done)
    ensures !s.done && cfg.context.Some? ==> (s.pending.Some? <==> s.pendingTrace.Some?)
  {
    hide StateOk, Matched, Counted, SentInv, RecordsOk;
  }

  /** The sink refused a record that this run handed to it. */
  ghost predicate SinkRefused(cfg: Config, s: Session) {
    exists c :: c in s.emits && !cfg.team.emit(c)
  }

  lemma RefusalIsReported(cfg: Config, s: Session)
    requires Inv(cfg, s)
    ensures s.traceError <==> SinkRefused(cfg, s)
  {
    hide StateOk, Matched, Counted, SentInv, RecordsOk;
    if s.traceError { assert s.emits[|s.records|] in s.emits; }
  }

  /** Each record of a run was handed to the sink in a call of its own and accepted there; a trace error is reported
      exactly if the sink refused one more, and then it was the last. */
  lemma {:induction false} SinkIsBlamed(cfg: Config, state: ObservedState, items: seq<StreamItem>)
    requires StateOk(state) && Admissible(items)
    ensures var s := After(cfg, state, items);
            && (s.traceError <==> SinkRefused(cfg, s))
            && |s.emits| == |s.records| + (if s.traceError then 1 else 0)
            && (forall i :: 0 <= i < |s.records| ==> cfg.team.emit(s.emits[i]))
            && EmitsOrdered(s.emits, s.calls)
  {
    hide Inv, StateOk, Run, SinkRefused;
    Reached(cfg, state, items);
    var s := After(cfg, state, items);
    RefusalIsReported(cfg, s);
    LedgerFacts(cfg, s);
    hide RecordsOk, After;
  }

  /** The documented law, that every fresh request opens one record and gets one disposition, holds of a run exactly if
      - the sink accepted each record the run handed to it,
      - no fresh request found a state or rqid without canonical form,
      - no fault without a record code ended the run while a request was open, and
      - the stream did not end, the session still running, with its last fresh request lacking a public fact.
      In any case the records are those of the first fresh requests, one each and in order: all of them but the last, or
      but two if the sink refused one. */
  lemma {:induction false} DispositionLaw(cfg: Config, state: ObservedState, items: seq<StreamItem>)
    requires StateOk(state) && Admissible(items) && cfg.context.Some?
    ensures var s0, s := InitialSession(state), After(cfg, state, items);
            var requested, recorded := FreshRqids(cfg, s0, items), RecordRqids(s.records);
            && (recorded == requested <==>
                  && !SinkRefused(cfg, s)
                  && !DigestFails(cfg, s0, items)
                  && !EndsUncoded(cfg, s0, items)
                  && (s.done || !LacksFact(cfg, state, items)))
            && recorded <= requested && |requested| <= |recorded| + (if SinkRefused(cfg, s) then 2 else 1)
  {
    hide Inv, StateOk, Run, FreshRqids, DigestFails, EndsUncoded, LacksFact, LastFresh, SinkRefused;
    var s0, s := InitialSession(state), After(cfg, state, items);
    InitialInv(cfg, state);
    RunOwes(cfg, s0, items);
    Reached(cfg, state, items);
    InvIsSound(cfg, s);
    RefusalIsReported(cfg, s);
    if !s.done { WaitsIffFactMissing(cfg, state, items); }
    hide RecordRqids, After;
    var requested := FreshRqids(cfg, s0, items);
    assert Owed(s0) + requested == requested by { assert RecordRqids([]) == [] by { EmptyRecords(); } }
  }

  lemma EmptyRecords()
    ensures RecordRqids([]) == []
  {}

  // ----- each way to fail is taken -----

  /** The first request of a battle, which waits for our side to be announced, and what follows it. */
  function FirstRequest(cfg: Config, request: DecisionRequest, after: seq<StreamItem>): seq<StreamItem> {
    [Line(RoomLine(Some(cfg.roomId), RequestLine(Ok(request))))] + after
  }

  /** A request as its reader makes it. */
  predicate ReadFor(cfg: Config, request: DecisionRequest) {
    request.identity == request.safe.identity && request.identity.roomId == cfg.roomId
  }

  /** A run that brought this one fresh request and has no record. */
  predicate LeftUnrecorded(cfg: Config, ourUserId: string, request: DecisionRequest, items: seq<StreamItem>) {
    var s0 := InitialSession(InitialState(ourUserId));
    var s := Run(cfg, s0, items);
    FreshRqids(cfg, s0, items) == [request.identity.rqid] && s.records == [] && s.latest == Some(request.identity)
  }

  lemma FirstRequestWaits(cfg: Config, ourUserId: string, request: DecisionRequest)
    requires cfg.context.Some? && cfg.team.canonical(InitialState(ourUserId)) && ReadFor(cfg, request)
    requires SafeInteger(request.identity.rqid)
    ensures var s := Step(cfg, InitialSession(InitialState(ourUserId)), FirstRequest(cfg, request, [])[0]);
            && !s.done && s.records == [] && s.pendingTrace.Some? && !s.traceFailed && s.primary.None?
            && s.latest == Some(request.identity) && s.pending.Some? && s.calls == 0
            && s.pendingTrace.value.index == 0
  {}

  lemma FirstRequestIsFresh(cfg: Config, ourUserId: string, request: DecisionRequest)
    ensures FreshHere(cfg, InitialSession(InitialState(ourUserId)), FirstRequest(cfg, request, [])[0])
         == [request.identity.rqid]
  {}

  lemma RunOfTwo(cfg: Config, s: Session, first: StreamItem, second: StreamItem)
    requires !s.done && FreshHere(cfg, Step(cfg, s, first), second) == []
    ensures var t := Step(cfg, s, first);
            && Run(cfg, s, [first, second]) == (if t.done then t else Step(cfg, t, second))
            && FreshRqids(cfg, s, [first, second]) == FreshHere(cfg, s, first)
  {
    hide Step, FreshHere;
    var t := Step(cfg, s, first);
    assert [first, second][1..] == [second];
    OneStep(cfg, t, second);
    assert [second][1..] == [];
    assert FreshRqids(cfg, Step(cfg, t, second), []) == [];
    assert FreshRqids(cfg, t, [second]) == [];
  }

  /** The stream ends while the request waits. */
  lemma WaitingRequestIsUnrecorded(cfg: Config, ourUserId: string, request: DecisionRequest)
    requires cfg.context.Some? && cfg.team.canonical(InitialState(ourUserId)) && ReadFor(cfg, request)
    requires SafeInteger(request.identity.rqid)
    ensures LeftUnrecorded(cfg, ourUserId, request, FirstRequest(cfg, request, []))
    ensures var items := FirstRequest(cfg, request, []);
            !After(cfg, InitialState(ourUserId), items).done && LacksFact(cfg, InitialState(ourUserId), items)
  {
    FirstRequestWaits(cfg, ourUserId, request);
    FirstRequestIsFresh(cfg, ourUserId, request);
    InitialStateOk(ourUserId);
    hide Step, FreshHere, StateOk, LacksFact, LastFresh;
    var items, s0 := FirstRequest(cfg, request, []), InitialSession(InitialState(ourUserId));
    assert items == [items[0]];
    OneStep(cfg, s0, items[0]);
    assert items[1..] == [];
    assert FreshRqids(cfg, Step(cfg, s0, items[0]), []) == [];
    WaitsIffFactMissing(cfg, InitialState(ourUserId), items);
  }

  /** The server's `[Invalid choice]` error ends the session: a fault whose code is none an abort records. */
  lemma FreshRequestWithoutDisposition(cfg: Config, ourUserId: string, request: DecisionRequest)
    requires cfg.context.Some? && cfg.team.canonical(InitialState(ourUserId)) && ReadFor(cfg, request)
    requires SafeInteger(request.identity.rqid)
    ensures var items := FirstRequest(cfg, request, [Line(RoomLine(Some(cfg.roomId), ErrorLine(InvalidChoice)))]);
            && LeftUnrecorded(cfg, ourUserId, request, items)
            && EndsUncoded(cfg, InitialSession(InitialState(ourUserId)), items)
  {
    FirstRequestWaits(cfg, ourUserId, request);
    FirstRequestIsFresh(cfg, ourUserId, request);
    var ended := Line(RoomLine(Some(cfg.roomId), ErrorLine(InvalidChoice)));
    var items, s0 := FirstRequest(cfg, request, [ended]), InitialSession(InitialState(ourUserId));
    var s1 := Step(cfg, s0, items[0]);
    InvalidChoiceEnds(cfg, s1);
    assert FreshHere(cfg, s1, ended) == [];
    hide Step, FreshHere, UncodedHere;
    RunOfTwo(cfg, s0, items[0], ended);
    assert items == [items[0], ended] && items[1..] == [ended];
  }

  lemma InvalidChoiceEnds(cfg: Config, s: Session)
    requires s.primary.None?
    ensures var item := Line(RoomLine(Some(cfg.roomId), ErrorLine(InvalidChoice)));
            && Step(cfg, s, item) == s.(primary := Some(INVALID_CHOICE_FAULT), pending := None, done := true)
            && (s.pendingTrace.Some? ==> UncodedHere(cfg, s, item))
  {
    ParseOfText(ServerInvalidChoice);
    hide ParseCode;
  }

  /** The state has no canonical form, so the request never opens a trace. */
  lemma UndigestedRequestIsUnrecorded(cfg: Config, ourUserId: string, request: DecisionRequest)
    requires cfg.context.Some? && !cfg.team.canonical(InitialState(ourUserId)) && ReadFor(cfg, request)
    ensures var items, s0 := FirstRequest(cfg, request, []), InitialSession(InitialState(ourUserId));
            && LeftUnrecorded(cfg, ourUserId, request, items) && DigestFails(cfg, s0, items)
            && Run(cfg, s0, items).done && Run(cfg, s0, items).nextIndex == 0
  {
    FirstRequestIsFresh(cfg, ourUserId, request);
    var items, s0 := FirstRequest(cfg, request, []), InitialSession(InitialState(ourUserId));
    UndigestedStep(cfg, ourUserId, request);
    hide Step, FreshHere, Undigestible;
    assert items == [items[0]];
    OneStep(cfg, s0, items[0]);
    assert items[1..] == [];
    assert FreshRqids(cfg, Step(cfg, s0, items[0]), []) == [];
  }

  lemma UndigestedStep(cfg: Config, ourUserId: string, request: DecisionRequest)
    requires cfg.context.Some? && !cfg.team.canonical(InitialState(ourUserId)) && ReadFor(cfg, request)
    ensures var item, s0 := FirstRequest(cfg, request, [])[0], InitialSession(InitialState(ourUserId));
            var s := Step(cfg, s0, item);
            && Undigestible(cfg, s0, item) && s.done && s.records == [] && s.nextIndex == 0
            && s.latest == Some(request.identity)
  {
    hide ParseCode;
  }

  /** The sink refuses the record of the request. */
  lemma RefusedRecordIsLost(cfg: Config, ourUserId: string, request: DecisionRequest)
    requires cfg.context.Some? && cfg.team.canonical(InitialState(ourUserId)) && ReadFor(cfg, request)
    requires SafeInteger(request.identity.rqid) && !cfg.team.emit(0)
    ensures var items := FirstRequest(cfg, request, [StreamFault(STALE_FAULT)]);
            && LeftUnrecorded(cfg, ourUserId, request, items)
            && SinkRefused(cfg, After(cfg, InitialState(ourUserId), items))
  {
    FirstRequestWaits(cfg, ourUserId, request);
    FirstRequestIsFresh(cfg, ourUserId, request);
    var items, s0 := FirstRequest(cfg, request, [StreamFault(STALE_FAULT)]), InitialSession(InitialState(ourUserId));
    FirstSessionIsValid(cfg, ourUserId, request);
    var s1 := Step(cfg, s0, items[0]);
    LostRecord(cfg, s1);
    assert FreshHere(cfg, s1, StreamFault(STALE_FAULT)) == [];
    hide Step, FreshHere, SinkRefused;
    RunOfTwo(cfg, s0, items[0], StreamFault(STALE_FAULT));
    assert items == [items[0], StreamFault(STALE_FAULT)];
  }

  lemma FirstSessionIsValid(cfg: Config, ourUserId: string, request: DecisionRequest)
    requires ReadFor(cfg, request)
    ensures Inv(cfg, Step(cfg, InitialSession(InitialState(ourUserId)), FirstRequest(cfg, request, [])[0]))
  {
    InitialStateOk(ourUserId);
    hide Inv, Step, StateOk;
    InitialInv(cfg, InitialState(ourUserId));
    StepKeeps(cfg, InitialSession(InitialState(ourUserId)), FirstRequest(cfg, request, [])[0]);
  }

  lemma LostRecord(cfg: Config, s: Session)
    requires Inv(cfg, s) && s.pendingTrace.Some? && s.records == [] && s.calls == 0 && !cfg.team.emit(0)
    ensures var t := Step(cfg, s, StreamFault(STALE_FAULT));
            t.records == [] && SinkRefused(cfg, t) && t.done && t.latest == s.latest
  {
    hide Inv, Ledger, Finalize, FirstError, AbortRecordCode;
    FreshnessFaults();
    LedgerFacts(cfg, s);
    LedgerOfFirst(cfg, s, STALE_FAULT);
    FirstErrorLogs(s, STALE_FAULT);
    RefusedFinalize(cfg, FirstError(s, STALE_FAULT), FreshnessInvalidated);
  }

  lemma RefusedFinalize(cfg: Config, s: Session, status: RecordStatus)
    requires Ledger(cfg, s) && s.pendingTrace.Some? && MatrixRow(status, None, None) && !cfg.team.emit(s.calls)
    ensures var t := Finalize(cfg, s, status, None, None);
            t.records == s.records && SinkRefused(cfg, t) && t.latest == s.latest
  {
    AttemptIsValid(cfg, s, status, None, None);
    TraceOfLedger(cfg, s);
    hide Ledger, RecordChecks, MakeRecord, MatrixRow;
    assert s.calls in Finalize(cfg, s, status, None, None).emits;
  }
}
