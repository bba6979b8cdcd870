/** What every run of a battle session satisfies, whatever arrives and whichever collaborator fails. */
module SessionTheorems {
  import opened Basics
  import opened ObservedStates
  import opened Reducer
  import opened ReducerInvariants
  import opened Submissions
  import opened Reconciler
  import opened DecisionRecords
  import opened SessionModel
  import opened SessionInvariants
  import opened SessionEffects

  ghost predicate Admissible(items: seq<StreamItem>) {
    forall i :: 0 <= i < |items| ==> Coherent(items[i])
  }

  /** The session a fresh one has become after the stream delivered `items`. */
  function After(cfg: Config, state: ObservedState, items: seq<StreamItem>): Session {
    Run(cfg, InitialSession(state), items)
  }

  lemma Reached(cfg: Config, state: ObservedState, items: seq<StreamItem>)
    requires StateOk(state) && Admissible(items)
    ensures Inv(cfg, After(cfg, state, items))
  {
    hide Inv, StateOk;
    InitialInv(cfg, state);
    RunKeeps(cfg, InitialSession(state), items);
  }

  // ----- runs and their prefixes -----

  /** A run over a longer stream continues the run over its prefix; a session that is done ignores the rest. */
  lemma {:induction false} RunsCompose(cfg: Config, s: Session, first: seq<StreamItem>, rest: seq<StreamItem>)
    ensures Run(cfg, s, first + rest) == Run(cfg, Run(cfg, s, first), rest)
    ensures s.done ==> Run(cfg, s, rest) == s
    decreases |first|
  {
    hide Step;
    if first == [] {
      assert first + rest == rest;
    } else if !s.done {
      assert (first + rest)[0] == first[0] && (first + rest)[1..] == first[1..] + rest;
      RunsCompose(cfg, Step(cfg, s, first[0]), first[1..], rest);
    } else {
      assert Run(cfg, s, first) == s;
    }
  }

  /** The logs and the observed evidence only grow, each new record has its cause in the logs, and what each new note
      says is what the reconciler, the policy or the encoder did. */
  ghost predicate LogsGrow(cfg: Config, s: Session, t: Session) {
    && Grew(s, t) && StateGrows(s.state, t.state)
    && forall i :: |s.notes| <= i < |t.notes| ==> NoteTrue(cfg, t.notes[i])
  }

  lemma LogsGrowTransitive(cfg: Config, s: Session, t: Session, u: Session)
    requires LogsGrow(cfg, s, t) && LogsGrow(cfg, t, u)
    ensures LogsGrow(cfg, s, u)
  {
    GrewTransitive(s, t, u);
    GrowsTransitive(s.state, t.state, u.state);
    hide Explained, StateGrows, NoteTrue;
    forall i | |s.notes| <= i < |u.notes| ensures NoteTrue(cfg, u.notes[i]) {
      if i < |t.notes| { assert u.notes[i] == t.notes[i]; }
    }
  }

  lemma GrowsRefl(state: ObservedState)
    requires StateOk(state)
    ensures StateGrows(state, state)
  {
    SideLater(state.p1, state.eventIndex, state.eventIndex);
    SideLater(state.p2, state.eventIndex, state.eventIndex);
  }

  lemma NextGrows(state: ObservedState, payload: Payload)
    requires StateOk(state)
    ensures StateGrows(state, NextState(state, payload))
  {
    hide Reduce, StateGrows, StateOk;
    GrowsRefl(state);
    if BodyOf(payload).Some? && Reduce(state, state.eventIndex + 1, BodyOf(payload).value).Ok? {
      ReduceKeeps(state, state.eventIndex + 1, BodyOf(payload).value);
    }
  }

  lemma LineOkGrows(cfg: Config, s: Session, payload: Payload, t: Session)
    requires StateOk(s.state) && LineOk(cfg, s, payload, t)
    ensures LogsGrow(cfg, s, t)
  {
    hide StateOk, StateGrows, NextState, NoteTrue, Explained;
    NextGrows(s.state, payload);
  }

  lemma InvIsCurrent(cfg: Config, s: Session)
    requires Inv(cfg, s)
    ensures Current(s) && StateOk(s.state)
  {
    if s.pendingTrace.Some? { TraceOfLedger(cfg, s); }
    hide StateOk, Ledger, Matched, Counted, SentInv;
  }

  /** Nothing a session sent, recorded, noted or observed is ever taken back, and each record is explained. */
  lemma {:induction false} LogsOnlyGrow(cfg: Config, s: Session, items: seq<StreamItem>)
    requires Inv(cfg, s) && Admissible(items)
    ensures LogsGrow(cfg, s, Run(cfg, s, items))
    decreases |items|
  {
    hide Inv, Step, LineOk, LogsGrow;
    InvIsCurrent(cfg, s);
    if items == [] || s.done {
      LogsGrowRefl(cfg, s);
    } else {
      var t := Step(cfg, s, items[0]);
      StepEffects(cfg, s, items[0]);
      LineOkGrows(cfg, s, SeenBy(cfg, items[0]), t);
      StepKeeps(cfg, s, items[0]);
      assert forall i :: 0 <= i < |items[1..]| ==> items[1..][i] == items[i + 1];
      LogsOnlyGrow(cfg, t, items[1..]);
      LogsGrowTransitive(cfg, s, t, Run(cfg, t, items[1..]));
    }
  }

  lemma LogsGrowRefl(cfg: Config, s: Session)
    requires StateOk(s.state)
    ensures LogsGrow(cfg, s, s)
  {
    GrowsRefl(s.state);
    SameLogs(s, s);
    hide StateOk, StateGrows, Grew;
  }

  // ----- dispatch -----

  lemma SentFacts(cfg: Config, s: Session)
    requires Inv(cfg, s)
    ensures SentOnce(s.sent) && AllLegal(cfg, s.sent) && CallsOrdered(s.sent, s.calls)
  {
    hide StateOk, Ledger, Matched, Counted, SentOnce, AllLegal, CallsOrdered;
  }

  /** Over a whole run each command answers a request accepted when it was sent, with the policy's choice out of the
      request's safe set, under the request's own rqid: the choice of the very policy call the session made just before
      that send. The commands' rqids strictly increase, and each is a different call of the run. */
  lemma {:induction false} ExactlyOnceDispatch(cfg: Config, state: ObservedState, items: seq<StreamItem>)
    requires StateOk(state) && Admissible(items)
    ensures forall d :: d in After(cfg, state, items).sent ==> LegalDispatch(cfg, d)
    ensures var sent := After(cfg, state, items).sent;
            && (forall i, j :: 0 <= i < j < |sent| ==>
                  sent[i].command.rqid < sent[j].command.rqid && sent[i].call < sent[j].call)
            && forall d :: d in sent ==> d.call < After(cfg, state, items).calls
  {
    hide Inv, LegalDispatch, StateOk;
    Reached(cfg, state, items);
    var s := After(cfg, state, items);
    hide After;
    SentFacts(cfg, s);
    forall i, j | 0 <= i < j < |s.sent| ensures s.sent[i].command.rqid < s.sent[j].command.rqid {
      LegalRqid(cfg, s.sent[i]);
      LegalRqid(cfg, s.sent[j]);
    }
  }

  lemma LegalRqid(cfg: Config, d: Dispatch)
    requires LegalDispatch(cfg, d)
    ensures d.command.rqid == DispatchRqid(d)
  {
    hide Reconcile;
  }

  /** The next line makes the session send at most one command: for the latest request, in the current state. */
  lemma {:induction false} CommandAnswersLatest(
    cfg: Config, state: ObservedState, items: seq<StreamItem>, next: StreamItem)
    requires StateOk(state) && Admissible(items + [next])
    ensures After(cfg, state, items).done ==> After(cfg, state, items + [next]) == After(cfg, state, items)
    ensures SentAtMostOne(After(cfg, state, items), After(cfg, state, items + [next]))
  {
    assert forall i :: 0 <= i < |items| ==> items[i] == (items + [next])[i];
    assert next == (items + [next])[|items|];
    hide Inv, StateOk, Step, LineOk, NotedAtMostOne, Grew, Coherent;
    Reached(cfg, state, items);
    var s := After(cfg, state, items);
    RunsCompose(cfg, InitialSession(state), items, [next]);
    hide After;
    if !s.done {
      OneStep(cfg, s, next);
      InvIsCurrent(cfg, s);
      StepEffects(cfg, s, next);
      LineOkSends(cfg, s, next);
    }
  }

  lemma OneStep(cfg: Config, s: Session, item: StreamItem)
    ensures !s.done ==> Run(cfg, s, [item]) == Step(cfg, s, item)
  {
    hide Step;
    assert [item][1..] == [];
    assert Run(cfg, Step(cfg, s, item), []) == Step(cfg, s, item);
  }

  lemma LineOkSends(cfg: Config, s: Session, item: StreamItem)
    requires LineOk(cfg, s, SeenBy(cfg, item), Step(cfg, s, item))
    ensures SentAtMostOne(s, Step(cfg, s, item))
  {
    hide Step, NextState, Grew, NotedAtMostOne;
  }

  // ----- waiting -----

  lemma WaitingFacts(cfg: Config, s: Session)
    requires Inv(cfg, s)
    ensures !s.done && s.pending.Some? ==> MissingFact(s.state, s.pending.value)
  {
    hide Mid, Unanswered, Linked, Reported, MissingFact;
  }

  /** No missed wake-up: a session that waits for its next line with a request pending could not answer it now. */
  lemma {:induction false} NoMissedWakeUp(
    cfg: Config, state: ObservedState, items: seq<StreamItem>, latestRqid: Option<int>)
    requires StateOk(state) && Admissible(items)
    ensures var s := After(cfg, state, items);
            !s.done && s.pending.Some? ==>
              && MissingFact(s.state, s.pending.value)
              && !Reconcile(cfg.roomId, s.pending.value, s.state, latestRqid).Accept?
  {
    hide Inv, StateOk, MissingFact, Reconcile;
    Reached(cfg, state, items);
    var s := After(cfg, state, items);
    hide After;
    WaitingFacts(cfg, s);
    if !s.done && s.pending.Some? {
      PendingMeansMissing(cfg.roomId, s.pending.value, s.state, latestRqid);
    }
  }

  lemma StrictEventClears(cfg: Config, s: Session, body: EventBody)
    requires Inv(cfg, s) && !s.done && (body.BattleStarted? || body.TurnStarted?)
    requires Reduce(s.state, s.state.eventIndex + 1, body).Ok?
    ensures var f := AfterEvent(cfg, s.(state := Reduce(s.state, s.state.eventIndex + 1, body).value), body);
            f.raised.None? ==> f.session.pending.None?
  {
    hide Reduce, StateOk, Mid, Awake, Retry, Finalize, MissingFact;
    InvIsStateOk(cfg, s);
    ReduceKeeps(s.state, s.state.eventIndex + 1, body);
    var state := Reduce(s.state, s.state.eventIndex + 1, body).value;
    NewStateKeeps(cfg, s, state);
    hide Inv;
    RetryKeeps(cfg, s.(state := state), true);
  }

  /** Once the battle or a turn has started and the session goes on, no request is left pending. */
  lemma {:induction false} ProgressClearsPending(
    cfg: Config, state: ObservedState, items: seq<StreamItem>, wire: WireKind, body: EventBody)
    requires StateOk(state) && Admissible(items) && (body.BattleStarted? || body.TurnStarted?)
    requires !After(cfg, state, items).done
    ensures var line := Line(RoomLine(Some(cfg.roomId), BattleLine(wire, Ok(body))));
            var t := After(cfg, state, items + [line]);
            !t.done ==> t.pending.None?
  {
    hide Inv, StateOk, AfterEvent, Abort, Reduce;
    Reached(cfg, state, items);
    var s := After(cfg, state, items);
    var line := Line(RoomLine(Some(cfg.roomId), BattleLine(wire, Ok(body))));
    RunsCompose(cfg, InitialSession(state), items, [line]);
    hide After;
    OneStep(cfg, s, line);
    if Reduce(s.state, s.state.eventIndex + 1, body).Ok? {
      StrictEventClears(cfg, s, body);
    }
    AbortEnds(cfg, ProcessEvent(cfg, s, Ok(body)));
  }

  lemma AbortEnds(cfg: Config, f: Flow)
    ensures f.raised.Some? ==> Abort(cfg, f.session, f.raised.value).done
  {
    hide Finalize, AbortRecordCode;
  }

  // ----- what the server refuses -----

  /** The public code of each error line of the server. */
  function ErrorLineCode(error: BattleErrorKind): string {
    match error
    case InvalidChoice => "server_invalid_choice"
    case UnavailableChoice => "server_unavailable_choice"
    case UnclassifiedError => "malformed_protocol_message"
  }

  lemma FaultTexts(error: BattleErrorKind, refusal: ReduceError)
    ensures BattleErrorFault(error).code == Some(ErrorLineCode(error))
    ensures ReduceFault(refusal).code == (if refusal.ValueFault? then None else Some("reducer_invariant_failure"))
  {}

  /** An error line ends a running session, which reports its code. */
  lemma {:induction false} ErrorLinesAreReported(cfg: Config, s: Session, error: BattleErrorKind)
    requires Inv(cfg, s) && !s.done
    ensures var t := Step(cfg, s, Line(RoomLine(Some(cfg.roomId), ErrorLine(error))));
            t.done && t.primary.Some? && t.primary.value.code == Some(ErrorLineCode(error))
  {
    hide Inv, Abort, BattleErrorFault, ErrorLineCode;
    FaultTexts(error, InvariantViolation);
    RunningIsClean(cfg, s);
    AbortReports(cfg, s, BattleErrorFault(error));
  }

  /** An event the reducer refuses ends a running session, which reports the reducer's code, or none if a value was
      malformed. */
  lemma {:induction false} RefusedEventsAreReported(cfg: Config, s: Session, wire: WireKind, body: EventBody)
    requires Inv(cfg, s) && !s.done && Reduce(s.state, s.state.eventIndex + 1, body).Err?
    ensures var t := Step(cfg, s, Line(RoomLine(Some(cfg.roomId), BattleLine(wire, Ok(body)))));
            && t.done && t.primary.Some?
            && t.primary.value.code
               == (if Reduce(s.state, s.state.eventIndex + 1, body).error.ValueFault? then None
                   else Some("reducer_invariant_failure"))
  {
    hide Inv, Abort, Reduce, AfterEvent, ReduceFault;
    var refusal := Reduce(s.state, s.state.eventIndex + 1, body).error;
    FaultTexts(InvalidChoice, refusal);
    RunningIsClean(cfg, s);
    AbortReports(cfg, s, ReduceFault(refusal));
  }

  lemma RunningIsClean(cfg: Config, s: Session)
    requires Inv(cfg, s)
    ensures !s.done ==> s.primary.None?
  {
    hide Mid, Unanswered, Waiting, Linked;
  }

  lemma AbortReports(cfg: Config, s: Session, fault: Fault)
    requires s.primary.None?
    ensures Abort(cfg, s, fault).done && Abort(cfg, s, fault).primary == Some(fault)
  {
    hide Finalize, AbortRecordCode;
    FinalizePrimary(cfg, FirstError(s, fault), FreshnessInvalidated, None, None);
    FinalizePrimary(cfg, FirstError(s, fault), SessionAborted, AbortRecordCode(fault), None);
  }

  // ----- the ledger -----

  lemma LedgerFacts(cfg: Config, s: Session)
    requires Inv(cfg, s)
    ensures Ledger(cfg, s) && Matched(cfg, s) && GuardsSilent(s.notes)
  {
    hide StateOk, Ledger, Matched, Counted, SentInv;
  }

  /** The record at position i has index i and belongs to a newer request than the one before; the next free index is
      the record count, plus one while a trace is open or after its record was lost in a failed sink. */
  lemma {:induction false} GapFreeLedger(cfg: Config, state: ObservedState, items: seq<StreamItem>)
    requires StateOk(state) && Admissible(items)
    ensures var s := After(cfg, state, items);
            && (forall i :: 0 <= i < |s.records| ==> s.records[i].decisionIndex == i)
            && (forall i, j :: 0 <= i < j < |s.records| ==> s.records[i].rqid < s.records[j].rqid)
            && s.nextIndex == |s.records| + (if s.pendingTrace.Some? || s.traceFailed then 1 else 0)
            && (s.traceFailed ==> s.done && s.primary.Some?)
  {
    hide Inv, StateOk, RecordChecks;
    Reached(cfg, state, items);
    var s := After(cfg, state, items);
    hide After;
    LedgerFacts(cfg, s);
  }

  /** Every record the session builds passes the checks of its constructor, so no run reports a construction failure. */
  lemma {:induction false} RecordsAlwaysConstruct(cfg: Config, state: ObservedState, items: seq<StreamItem>)
    requires StateOk(state) && Admissible(items)
    ensures var s := After(cfg, state, items);
            && !s.recordError
            && forall r :: r in s.records ==>
                 && RecordChecks(r) && MatrixRow(r.status, r.selected, r.errorCode)
                 && cfg.context.Some? && OfContext(r, cfg.context.value)
  {
    hide Inv, StateOk, RecordChecks, MatrixRow;
    Reached(cfg, state, items);
    var s := After(cfg, state, items);
    hide After;
    LedgerFacts(cfg, s);
    forall r | r in s.records ensures MatrixRow(r.status, r.selected, r.errorCode) {
      ChecksAreTheMatrix(r);
    }
  }

  /** The SUBMITTED records are the delivered commands, one for one and in order, each bound to the state its
      command was sent in and to its request's safe set; only the last delivery has none when the sink failed on it. */
  lemma {:induction false} SubmittedRecordsAreDeliveries(cfg: Config, state: ObservedState, items: seq<StreamItem>)
    requires StateOk(state) && Admissible(items) && cfg.context.Some?
    ensures var s := After(cfg, state, items);
            var recorded, delivered := RecordedDecisions(s.records), DeliveredDecisions(s.sent);
            || recorded == delivered
            || (&& s.traceError && s.primary == Some(TRACE_SINK_FAULT)
                && delivered != [] && recorded == delivered[..|delivered| - 1])
  {
    hide Inv, StateOk, RecordsOk, RecordedDecisions, DeliveredDecisions;
    Reached(cfg, state, items);
    var s := After(cfg, state, items);
    hide After;
    LedgerFacts(cfg, s);
  }

  // ----- guards and collaborators -----

  /** The already-submitted guard, the gate's identity guard and the reconciler's stale-rqid guard never fire. */
  lemma {:induction false} GuardsNeverFire(cfg: Config, state: ObservedState, items: seq<StreamItem>)
    requires StateOk(state) && Admissible(items)
    ensures var notes := After(cfg, state, items).notes;
            forall n :: n in notes ==>
              !n.SubmittedTwice? && !n.GateFoundStale? && !(n.Rejection? && n.reason.StaleRqid?)
  {
    hide Inv, StateOk, Ledger, Matched;
    Reached(cfg, state, items);
    var s := After(cfg, state, items);
    hide After;
    LedgerFacts(cfg, s);
  }

  function HeuristicOutcome(request: DecisionRequest): PolicyOutcome {
    if request.safe.submissions == [] then NoLegalAction else Chosen(FirstLeast(request.safe.submissions))
  }

  ghost predicate HeuristicTeam(cfg: Config) {
    forall n: nat, request :: cfg.team.policy(n, request) == HeuristicOutcome(request)
  }

  ghost predicate StandardEncoder(cfg: Config) {
    forall choice :: cfg.team.encode(choice) == Ok(EncodeSubmission(choice))
  }

  lemma FirstLeastIsOffered(submissions: seq<BattleSubmission>)
    requires submissions != []
    ensures FirstLeast(submissions) in submissions
  {
    var at := FirstLeastIsFirst(submissions);
  }

  /** Each record has its cause in the logs and each note is true: from the first line on. */
  lemma {:induction false} AllExplained(cfg: Config, state: ObservedState, items: seq<StreamItem>)
    requires StateOk(state) && Admissible(items)
    ensures var s := After(cfg, state, items);
            && (forall n :: n in s.notes ==> NoteTrue(cfg, n))
            && forall r :: r in s.records ==> Explained(r, s.notes, s.sent)
  {
    hide Inv, StateOk, StateGrows, Explained, NoteTrue;
    InitialInv(cfg, state);
    LogsOnlyGrow(cfg, InitialSession(state), items);
  }

  lemma HeuristicNotes(cfg: Config, note: Note)
    requires HeuristicTeam(cfg) && NoteTrue(cfg, note)
    ensures !note.NothingChosen? && !note.ChosenOutside? && (StandardEncoder(cfg) ==> !note.Unencodable?)
  {
    if note.NothingChosen? || note.ChosenOutside? {
      var n: nat, request := note.calls - 1, note.request;
      AcceptedRequest(cfg.roomId, request, note.state, None);
      hide Reconcile;
      assert cfg.team.policy(n, request) == HeuristicOutcome(request);
      FirstLeastIsOffered(request.safe.submissions);
    }
  }

  lemma HeuristicCauses(cfg: Config, rqid: int, status: RecordStatus, selected: Option<BattleSubmission>, s: Session)
    requires HeuristicTeam(cfg) && Cause(rqid, status, selected, s.notes, s.sent)
    requires forall n :: n in s.notes ==> NoteTrue(cfg, n)
    ensures !status.PolicyRejected? && !status.ActionGateRejected?
    ensures StandardEncoder(cfg) ==> !status.CommandEncodingFailed?
  {
    hide NoteTrue, HeuristicTeam, StandardEncoder;
    if status.PolicyRejected? || status.ActionGateRejected? || status.CommandEncodingFailed? {
      var i :| 0 <= i < |s.notes| && Accounts(s.notes[i], rqid, status, selected);
      HeuristicNotes(cfg, s.notes[i]);
    }
  }

  lemma LegalChoice(cfg: Config, d: Dispatch)
    requires LegalDispatch(cfg, d) && HeuristicTeam(cfg)
    ensures d.request.safe.submissions != [] && d.submission == FirstLeast(d.request.safe.submissions)
  {
    hide Reconcile;
    var n: nat := d.call - 1;
    assert cfg.team.policy(n, d.request) == HeuristicOutcome(d.request);
  }

  /** With the heuristic policy no request is refused by the policy or the gate, and every command carries the first
      submission of least priority; with the standard encoder none fails to encode. */
  lemma {:induction false} HeuristicRuns(cfg: Config, state: ObservedState, items: seq<StreamItem>)
    requires StateOk(state) && Admissible(items) && HeuristicTeam(cfg)
    ensures var s := After(cfg, state, items);
            && (forall r :: r in s.records ==> !r.status.PolicyRejected? && !r.status.ActionGateRejected?)
            && (StandardEncoder(cfg) ==> forall r :: r in s.records ==> !r.status.CommandEncodingFailed?)
            && (forall d :: d in s.sent ==>
                  d.request.safe.submissions != [] && d.submission == FirstLeast(d.request.safe.submissions))
  {
    hide StateOk, After, Inv, NoteTrue, Cause, LegalDispatch, HeuristicTeam, StandardEncoder;
    AllExplained(cfg, state, items);
    ExactlyOnceDispatch(cfg, state, items);
    var s := After(cfg, state, items);
    forall r | r in s.records
      ensures !r.status.PolicyRejected? && !r.status.ActionGateRejected?
      ensures StandardEncoder(cfg) ==> !r.status.CommandEncodingFailed?
    {
      HeuristicCauses(cfg, r.rqid, r.status, r.selected, s);
    }
    forall d | d in s.sent
      ensures d.request.safe.submissions != [] && d.submission == FirstLeast(d.request.safe.submissions)
    {
      LegalChoice(cfg, d);
    }
  }

  // ----- terminal dispositions -----

  lemma CodedRow(fault: Fault)
    ensures MatrixRow(FreshnessInvalidated, None, None)
    ensures var code := AbortRecordCode(fault);
            code.Some? && code.value !in StatusErrorCodes(ReconciliationRejected) ==>
              MatrixRow(SessionAborted, None, code)
    ensures AbortRecordCode(fault).Some? ==>
              (AbortRecordCode(fault).value in StatusErrorCodes(ReconciliationRejected)
               <==> AbortRecordCode(fault).value in {ReconciliationMismatch, StaleRqidCode})
  {
    hide ParseCode;
  }

  lemma LedgerOfFirst(cfg: Config, s: Session, fault: Fault)
    requires Ledger(cfg, s)
    ensures Ledger(cfg, FirstError(s, fault))
  {
    hide RecordsOk, RecordsUpTo, RecordsBefore;
  }

  // ----- what the session watched -----

  /** The public state after the room's events among `items`, each reduced at the next index. */
  function Watch(cfg: Config, state: ObservedState, items: seq<StreamItem>): ObservedState
    decreases |items|
  {
    if items == [] then state else Watch(cfg, NextState(state, SeenBy(cfg, items[0])), items[1..])
  }

  function ControlLines(cfg: Config, items: seq<StreamItem>): nat {
    if items == [] then 0 else ControlSeen(SeenBy(cfg, items[0])) + ControlLines(cfg, items[1..])
  }

  lemma LineOkState(cfg: Config, s: Session, payload: Payload, t: Session)
    requires LineOk(cfg, s, payload, t)
    ensures t.state == NextState(s.state, payload) && t.controlCount == s.controlCount + ControlSeen(payload)
  {
    hide Effects, NextState;
  }

  /** A session consumes a prefix of its stream, ends exactly where it leaves the rest, and shows the reducer's state
      after the room events of that prefix: none skipped, repeated or reordered. */
  lemma {:induction false} StateIsWatched(cfg: Config, s: Session, items: seq<StreamItem>) returns (n: nat)
    requires Inv(cfg, s) && Admissible(items)
    ensures n <= |items|
    ensures Run(cfg, s, items) == Run(cfg, s, items[..n])
    ensures Run(cfg, s, items).state == Watch(cfg, s.state, items[..n])
    ensures Run(cfg, s, items).controlCount == s.controlCount + ControlLines(cfg, items[..n])
    ensures n < |items| ==> Run(cfg, s, items).done
    decreases |items|
  {
    hide Inv, Step, LineOk, NextState, SeenBy;
    if items == [] || s.done {
      n := 0;
      assert items[..0] == [];
    } else {
      InvIsCurrent(cfg, s);
      var t := Step(cfg, s, items[0]);
      StepEffects(cfg, s, items[0]);
      LineOkState(cfg, s, SeenBy(cfg, items[0]), t);
      StepKeeps(cfg, s, items[0]);
      assert forall i :: 0 <= i < |items[1..]| ==> items[1..][i] == items[i + 1];
      var rest := StateIsWatched(cfg, t, items[1..]);
      n := rest + 1;
      assert items[..n][0] == items[0] && items[..n][1..] == items[1..][..rest];
    }
  }

  // ----- evidence and the reducer -----

  /** The events among `items` that the reducer accepted, with the indices it was given. */
  function Watched(cfg: Config, state: ObservedState, items: seq<StreamItem>): seq<(int, EventBody)>
    decreases |items|
  {
    if items == [] then [] else
    var body := BodyOf(SeenBy(cfg, items[0]));
    (if body.Some? && Reduce(state, state.eventIndex + 1, body.value).Ok?
     then [(state.eventIndex + 1, body.value)] else [])
    + Watched(cfg, NextState(state, SeenBy(cfg, items[0])), items[1..])
  }

  /** Watching is reducing the accepted events, numbered without a gap. */
  lemma {:induction false} WatchIsReduceAll(cfg: Config, state: ObservedState, items: seq<StreamItem>)
    requires StateOk(state)
    ensures ReduceAll(state, Watched(cfg, state, items)) == Ok(Watch(cfg, state, items))
    ensures forall i :: 0 <= i < |Watched(cfg, state, items)| ==>
              Watched(cfg, state, items)[i].0 == state.eventIndex + 1 + i
    decreases |items|
  {
    hide Reduce, StateOk, SeenBy;
    if items != [] {
      var payload := SeenBy(cfg, items[0]);
      var body, next := BodyOf(payload), NextState(state, payload);
      var rest := Watched(cfg, next, items[1..]);
      if body.Some? && Reduce(state, state.eventIndex + 1, body.value).Ok? {
        ReduceKeeps(state, state.eventIndex + 1, body.value);
        WatchIsReduceAll(cfg, next, items[1..]);
        var events := [(state.eventIndex + 1, body.value)] + rest;
        assert events[0] == (state.eventIndex + 1, body.value) && events[1..] == rest;
      } else {
        WatchIsReduceAll(cfg, next, items[1..]);
        assert [] + rest == rest;
      }
    }
  }

  /** The public state of a run is one the reducer reaches, by events numbered without a gap; so it is well formed and
      nothing observed is lost in it. */
  lemma {:induction false} SessionKeepsEvidence(cfg: Config, state: ObservedState, items: seq<StreamItem>)
    returns (events: seq<(int, EventBody)>)
    requires StateOk(state) && Admissible(items)
    ensures ReduceAll(state, events) == Ok(After(cfg, state, items).state)
    ensures forall i :: 0 <= i < |events| ==> events[i].0 == state.eventIndex + 1 + i
    ensures StateOk(After(cfg, state, items).state) && StateGrows(state, After(cfg, state, items).state)
  {
    hide Inv, StateOk, StateGrows, Watched, Watch, Run;
    InitialInv(cfg, state);
    var n := StateIsWatched(cfg, InitialSession(state), items);
    WatchIsReduceAll(cfg, state, items[..n]);
    events := Watched(cfg, state, items[..n]);
    ReachableStates(state, events);
  }
}
