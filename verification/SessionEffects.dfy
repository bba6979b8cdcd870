/** What one line may add to a session's logs, and why each addition was made. */
module SessionEffects {
  import opened Basics
  import opened ObservedStates
  import opened Reducer
  import opened RosterKeys
  import opened Submissions
  import opened Reconciler
  import opened DecisionRecords
  import opened SessionModel

  // ----- why things were logged -----

  /** The policy was asked about this request, accepted in this state, in the call before. */
  ghost predicate Asked(cfg: Config, request: DecisionRequest, state: ObservedState, calls: nat) {
    calls > 0 && !request.kind.Wait? && Reconcile(cfg.roomId, request, state, None).Accept?
  }

  /** What a note says is what the reconciler, the policy or the encoder did. */
  ghost predicate NoteTrue(cfg: Config, note: Note) {
    match note
    case SubmittedTwice => true
    case GateFoundStale => true
    case Rejection(request, state, earlier, reason) => Reconcile(cfg.roomId, request, state, earlier) == Reject(reason)
    case Overdue(request, state, earlier, waitsFor) =>
      Reconcile(cfg.roomId, request, state, earlier) == Pending(waitsFor)
    case NothingChosen(request, state, calls) =>
      Asked(cfg, request, state, calls) && cfg.team.policy(calls - 1, request).NoLegalAction?
    case ChosenOutside(request, state, calls, choice) =>
      && Asked(cfg, request, state, calls) && cfg.team.policy(calls - 1, request) == Chosen(choice)
      && choice !in request.safe.submissions
    case Unencodable(request, state, calls, choice) =>
      && Asked(cfg, request, state, calls) && cfg.team.policy(calls - 1, request) == Chosen(choice)
      && choice in request.safe.submissions && cfg.team.encode(choice).Err?
  }

  function NotedRequest(note: Note): Option<DecisionRequest> {
    match note
    case SubmittedTwice => None
    case GateFoundStale => None
    case _ => Some(note.request)
  }

  /** The note judges the latest request in the current state, and the policy call it speaks of was made since `s`. */
  ghost predicate NotedHere(note: Note, s: Session, t: Session) {
    && (NotedRequest(note).Some? ==> note.state == t.state && t.latest == Some(note.request.identity))
    && (note.NothingChosen? || note.ChosenOutside? || note.Unencodable? ==> s.calls < note.calls <= t.calls)
  }

  ghost predicate Noted(notes: seq<Note>, rqid: int, status: RecordStatus, selected: Option<BattleSubmission>) {
    exists i :: 0 <= i < |notes| && Accounts(notes[i], rqid, status, selected)
  }

  /** The note tells why a request with this rqid ended with this status and selection. */
  predicate Accounts(note: Note, rqid: int, status: RecordStatus, selected: Option<BattleSubmission>) {
    && NotedRequest(note).Some? && note.request.identity.rqid == rqid
    && match status
       case ReconciliationRejected => note.Rejection? || note.Overdue?
       case PolicyRejected => note.NothingChosen?
       case ActionGateRejected => note.ChosenOutside? && selected == Some(note.choice)
       case CommandEncodingFailed => note.Unencodable? && selected == Some(note.choice)
       case _ => false
  }

  ghost predicate SentFor(sent: seq<Dispatch>, rqid: int, selected: Option<BattleSubmission>, delivered: bool) {
    exists i :: 0 <= i < |sent| && SentAs(sent[i], rqid, selected, delivered)
  }

  predicate SentAs(d: Dispatch, rqid: int, selected: Option<BattleSubmission>, delivered: bool) {
    d.request.identity.rqid == rqid && selected == Some(d.submission) && d.delivered == delivered
  }

  /** A record that blames the reconciler, the policy, the gate, the encoder or the connection has its cause in the
      session's own logs: a note about that very request, or a send of that very choice with that outcome. */
  ghost predicate Cause(
    rqid: int, status: RecordStatus, selected: Option<BattleSubmission>, notes: seq<Note>, sent: seq<Dispatch>)
  {
    match status
    case Submitted => SentFor(sent, rqid, selected, true)
    case SendFailed => SentFor(sent, rqid, selected, false)
    case ReconciliationRejected => Noted(notes, rqid, status, selected)
    case PolicyRejected => Noted(notes, rqid, status, selected)
    case ActionGateRejected => Noted(notes, rqid, status, selected)
    case CommandEncodingFailed => Noted(notes, rqid, status, selected)
    case _ => true
  }

  ghost predicate Explained(r: DecisionRecord, notes: seq<Note>, sent: seq<Dispatch>) {
    Cause(r.rqid, r.status, r.selected, notes, sent)
  }

  lemma CauseLater(
    rqid: int, status: RecordStatus, selected: Option<BattleSubmission>, notes: seq<Note>, sent: seq<Dispatch>,
    moreNotes: seq<Note>, moreSent: seq<Dispatch>)
    requires Cause(rqid, status, selected, notes, sent) && notes <= moreNotes && sent <= moreSent
    ensures Cause(rqid, status, selected, moreNotes, moreSent)
  {
    if Noted(notes, rqid, status, selected) {
      var i :| 0 <= i < |notes| && Accounts(notes[i], rqid, status, selected);
      assert moreNotes[i] == notes[i];
    }
    forall delivered | SentFor(sent, rqid, selected, delivered) ensures SentFor(moreSent, rqid, selected, delivered) {
      var i :| 0 <= i < |sent| && SentAs(sent[i], rqid, selected, delivered);
      assert moreSent[i] == sent[i];
    }
  }

  // ----- what may be added -----

  /** The logs only grow, and every new record is explained by them. */
  ghost predicate Grew(s: Session, t: Session) {
    && s.records <= t.records && s.notes <= t.notes && s.sent <= t.sent
    && forall i :: |s.records| <= i < |t.records| ==> Explained(t.records[i], t.notes, t.sent)
  }

  /** At most one command, for the latest request, in the current state, chosen and sent by calls made since `s`. */
  ghost predicate SentAtMostOne(s: Session, t: Session) {
    || t.sent == s.sent
    || (&& |t.sent| == |s.sent| + 1 && s.sent <= t.sent
        && var d := t.sent[|s.sent|];
           t.latest == Some(d.request.identity) && d.state == t.state && s.calls < d.call < t.calls)
  }

  ghost predicate NotedAtMostOne(cfg: Config, s: Session, t: Session) {
    || t.notes == s.notes
    || (&& |t.notes| == |s.notes| + 1 && s.notes <= t.notes
        && NoteTrue(cfg, t.notes[|s.notes|]) && NotedHere(t.notes[|s.notes|], s, t))
  }

  ghost predicate Effects(cfg: Config, s: Session, t: Session) {
    && t.state == s.state && t.controlCount == s.controlCount && s.calls <= t.calls && Grew(s, t)
    && SentAtMostOne(s, t) && NotedAtMostOne(cfg, s, t)
  }

  /** Records may be written, but nothing is sent or noted. */
  ghost predicate Quietly(s: Session, t: Session) {
    && t.state == s.state && t.sent == s.sent && t.notes == s.notes && t.latest == s.latest
    && t.controlCount == s.controlCount && s.calls <= t.calls && Grew(s, t)
  }

  lemma GrewTransitive(s: Session, t: Session, u: Session)
    requires Grew(s, t) && Grew(t, u)
    ensures Grew(s, u)
  {
    hide Cause;
    forall i | |s.records| <= i < |u.records| ensures Explained(u.records[i], u.notes, u.sent) {
      if i < |t.records| {
        var r := t.records[i];
        assert u.records[i] == r && Explained(r, t.notes, t.sent);
        CauseLater(r.rqid, r.status, r.selected, t.notes, t.sent, u.notes, u.sent);
      }
    }
  }

  lemma SameLogs(s: Session, t: Session)
    requires t.records == s.records && t.notes == s.notes && t.sent == s.sent
    ensures Grew(s, t)
  {}

  lemma QuietlyThen(cfg: Config, s: Session, t: Session, u: Session)
    requires t.state == s.state && t.sent == s.sent && t.notes == s.notes && t.controlCount == s.controlCount
    requires s.calls <= t.calls && Grew(s, t) && Effects(cfg, t, u)
    ensures Effects(cfg, s, u)
  {
    GrewTransitive(s, t, u);
    hide Grew, NoteTrue;
  }

  lemma ThenQuietly(cfg: Config, s: Session, t: Session, u: Session)
    requires Effects(cfg, s, t) && Quietly(t, u)
    ensures Effects(cfg, s, u)
  {
    GrewTransitive(s, t, u);
    hide Grew, NoteTrue;
  }

  lemma QuietEffects(cfg: Config, s: Session, t: Session)
    requires t.state == s.state && t.sent == s.sent && t.notes == s.notes && t.records == s.records
    requires t.controlCount == s.controlCount && s.calls <= t.calls
    ensures Effects(cfg, s, t)
  {
    SameLogs(s, t);
    hide Grew;
  }

  lemma EffectsRefl(cfg: Config, s: Session)
    ensures Effects(cfg, s, s)
  {
    QuietEffects(cfg, s, s);
  }

  // ----- finalizing -----

  lemma GrewByOne(s: Session, t: Session, record: DecisionRecord)
    requires t.records == s.records + [record] && t.notes == s.notes && t.sent == s.sent
    requires Explained(record, s.notes, s.sent)
    ensures Grew(s, t)
  {
    hide Cause;
  }

  lemma FirstErrorLogs(s: Session, fault: Fault)
    ensures var t := FirstError(s, fault);
            && t.state == s.state && t.sent == s.sent && t.notes == s.notes && t.latest == s.latest
            && t.controlCount == s.controlCount && t.records == s.records && t.calls == s.calls
            && t.pendingTrace == s.pendingTrace
  {}

  lemma ConcludeQuietly(cfg: Config, s: Session, record: DecisionRecord)
    requires Explained(record, s.notes, s.sent)
    ensures Quietly(s, Concluded(cfg, s, record))
  {
    var t := Concluded(cfg, s, record);
    var refused := s.(pendingTrace := None, traceFailed := true, recordError := true, done := true);
    var lost := s.(pendingTrace := None, emits := s.emits + [s.calls], calls := s.calls + 1, traceFailed := true,
                   traceError := true, done := true);
    FirstErrorLogs(refused, RECORD_FAULT);
    FirstErrorLogs(lost, TRACE_SINK_FAULT);
    hide Explained, RecordChecks, FirstError, Grew;
    if t.records == s.records {
      SameLogs(s, t);
    } else {
      GrewByOne(s, t, record);
    }
  }

  /** The record of the open trace, whatever else it says, is explained by the session's logs. */
  ghost predicate Accounted(s: Session, status: RecordStatus, selected: Option<BattleSubmission>) {
    s.pendingTrace.Some? ==> Cause(s.pendingTrace.value.request.identity.rqid, status, selected, s.notes, s.sent)
  }

  lemma MadeRecord(
    context: RunContext, trace: PendingTrace, status: RecordStatus, code: Option<ErrorCode>,
    selected: Option<BattleSubmission>)
    ensures var r := MakeRecord(context, trace, status, code, selected);
            r.status == status && r.selected == selected && r.rqid == trace.request.identity.rqid
  {}

  lemma FinalizeLogs(
    cfg: Config, s: Session, status: RecordStatus, code: Option<ErrorCode>, selected: Option<BattleSubmission>)
    requires Accounted(s, status, selected)
    ensures Quietly(s, Finalize(cfg, s, status, code, selected))
  {
    hide Cause, Concluded, Grew, RecordChecks, MakeRecord;
    var t := Finalize(cfg, s, status, code, selected);
    if s.pendingTrace.Some? && cfg.context.Some? && !s.traceFailed {
      MadeRecord(cfg.context.value, s.pendingTrace.value, status, code, selected);
      ConcludeQuietly(cfg, s, MakeRecord(cfg.context.value, s.pendingTrace.value, status, code, selected));
    } else {
      SameLogs(s, t);
    }
  }

  lemma FinalizeQuietly(
    cfg: Config, s: Session, fault: Option<Fault>, status: RecordStatus, code: Option<ErrorCode>,
    selected: Option<BattleSubmission>)
    requires Accounted(s, status, selected)
    ensures var from := if fault.Some? then FirstError(s, fault.value) else s;
            Quietly(s, Finalize(cfg, from, status, code, selected))
  {
    hide Cause, Finalize, FirstError, Grew;
    var from := if fault.Some? then FirstError(s, fault.value) else s;
    if fault.Some? { FirstErrorLogs(s, fault.value); }
    FinalizeLogs(cfg, from, status, code, selected);
    GrewFromSame(s, from, Finalize(cfg, from, status, code, selected));
  }

  lemma GrewFromSame(s: Session, from: Session, t: Session)
    requires Grew(from, t) && from.records == s.records && from.notes == s.notes && from.sent == s.sent
    ensures Grew(s, t)
  {
    hide Explained;
  }

  // ----- submitting -----

  /** What a session works on is its latest request. */
  ghost predicate Current(s: Session) {
    && (s.pending.Some? ==> s.latest == Some(s.pending.value.identity))
    && (s.pendingTrace.Some? ==> s.latest == Some(s.pendingTrace.value.request.identity))
  }

  /** The session `b` after the policy was asked about its latest request, and answered with `choice`. */
  ghost predicate Chose(cfg: Config, b: Session, s: Session, request: DecisionRequest, choice: BattleSubmission) {
    && s == b.(calls := b.calls + 1) && Current(s) && s.latest == Some(request.identity)
    && request.identity == request.safe.identity
    && Asked(cfg, request, s.state, s.calls) && cfg.team.policy(b.calls, request) == Chosen(choice)
  }

  lemma LoggedEffects(
    cfg: Config, b: Session, s: Session, request: DecisionRequest, choice: BattleSubmission, text: string)
    requires Chose(cfg, b, s, request, choice)
    ensures var t := Logged(cfg, s, request, choice, text);
            && Effects(cfg, b, t) && t.pendingTrace == s.pendingTrace && t.latest == s.latest
            && Cause(request.identity.rqid, if cfg.team.send(s.calls).Delivered? then Submitted else SendFailed,
                     Some(choice), t.notes, t.sent)
  {
    hide Reconcile;
    var t := Logged(cfg, s, request, choice, text);
    assert SentAs(t.sent[|s.sent|], request.identity.rqid, Some(choice), cfg.team.send(s.calls).Delivered?);
    hide Noted;
  }

  lemma DeliveredEffects(
    cfg: Config, b: Session, s: Session, request: DecisionRequest, choice: BattleSubmission, text: string)
    requires Chose(cfg, b, s, request, choice) && cfg.team.send(s.calls).Delivered?
    ensures Effects(cfg, b, Finalize(cfg, Sent(cfg, s, request, choice, text), Submitted, None, Some(choice)))
  {
    LoggedEffects(cfg, b, s, request, choice, text);
    hide Effects, Quietly, Finalize, Logged, Count, Cause, Asked;
    var logged, sent := Logged(cfg, s, request, choice, text), Sent(cfg, s, request, choice, text);
    CountedEffects(cfg, b, logged, request.identity, choice.provenance);
    CountedLogs(logged, request.identity, choice.provenance);
    FinalizeQuietly(cfg, sent, None, Submitted, None, Some(choice));
    ThenQuietly(cfg, b, sent, Finalize(cfg, sent, Submitted, None, Some(choice)));
  }

  lemma CountedLogs(t: Session, identity: RequestIdentity, provenance: Provenance)
    ensures var u := Count(t, provenance).(submitted := Some(identity), pending := None);
            u.notes == t.notes && u.sent == t.sent && u.pendingTrace == t.pendingTrace
  {}

  lemma FailedSendEffects(
    cfg: Config, b: Session, s: Session, request: DecisionRequest, choice: BattleSubmission, text: string,
    code: ErrorCode, fault: Fault)
    requires Chose(cfg, b, s, request, choice) && !cfg.team.send(s.calls).Delivered?
    ensures Effects(cfg, b, SendFailedWith(cfg, Logged(cfg, s, request, choice, text), choice, code, fault).session)
  {
    LoggedEffects(cfg, b, s, request, choice, text);
    hide Effects, Quietly, Finalize, FirstError, Logged, Cause, Asked;
    var logged := Logged(cfg, s, request, choice, text);
    FinalizeQuietly(cfg, logged, Some(fault), SendFailed, Some(code), Some(choice));
    ThenQuietly(cfg, b, logged, SendFailedWith(cfg, logged, choice, code, fault).session);
  }

  lemma SendEffects(
    cfg: Config, b: Session, s: Session, request: DecisionRequest, choice: BattleSubmission, text: string)
    requires Chose(cfg, b, s, request, choice)
    ensures Effects(cfg, b, SendChoice(cfg, s, request, choice, text).session)
  {
    hide Effects, Finalize, SendFailedWith, Logged, Sent, Chose;
    match cfg.team.send(s.calls)
    case Delivered => DeliveredEffects(cfg, b, s, request, choice, text);
    case RefusedInvalid =>
      FailedSendEffects(cfg, b, s, request, choice, text, ServerInvalidChoice, INVALID_CHOICE_FAULT);
    case RefusedUnavailable =>
      FailedSendEffects(cfg, b, s, request, choice, text, ServerUnavailableChoice, UNAVAILABLE_CHOICE_FAULT);
    case SendRaises(fault) => FailedSendEffects(cfg, b, s, request, choice, text, SendingFailed, fault);
  }

  lemma CountedEffects(cfg: Config, s: Session, t: Session, identity: RequestIdentity, provenance: Provenance)
    requires Effects(cfg, s, t)
    ensures Effects(cfg, s, Count(t, provenance).(submitted := Some(identity), pending := None))
  {
    hide Explained, NoteTrue;
  }

  lemma NoteEffects(cfg: Config, s: Session, t: Session, note: Note)
    requires t.state == s.state && t.sent == s.sent && t.records == s.records && t.notes == s.notes + [note]
    requires t.controlCount == s.controlCount && s.calls <= t.calls
    requires NoteTrue(cfg, note) && NotedHere(note, s, t)
    ensures Effects(cfg, s, t)
  {
    hide NoteTrue, NotedHere, Explained;
  }

  /** A noted failure, and the record that cites it. */
  lemma NotedFailure(
    cfg: Config, b: Session, s: Session, note: Note, fault: Fault, status: RecordStatus, code: ErrorCode,
    selected: Option<BattleSubmission>)
    requires s == b.(calls := s.calls) && b.calls <= s.calls && Current(s)
    requires NoteTrue(cfg, note) && NotedRequest(note).Some? && note.state == s.state
    requires s.latest == Some(note.request.identity)
    requires note.NothingChosen? || note.ChosenOutside? || note.Unencodable? ==> b.calls < note.calls <= s.calls
    requires Accounts(note, note.request.identity.rqid, status, selected)
    ensures var noted := s.(notes := s.notes + [note]);
            Effects(cfg, b, Finalize(cfg, FirstError(noted, fault), status, Some(code), selected))
  {
    var noted := s.(notes := s.notes + [note]);
    hide NoteTrue;
    NoteEffects(cfg, b, noted, note);
    assert Noted(noted.notes, note.request.identity.rqid, status, selected) by {
      assert noted.notes[|s.notes|] == note;
    }
    AccountedByNote(noted, note, status, selected);
    hide Effects, Quietly, Finalize, FirstError, Accounts, Noted, Accounted;
    FinalizeQuietly(cfg, noted, Some(fault), status, Some(code), selected);
    ThenQuietly(cfg, b, noted, Finalize(cfg, FirstError(noted, fault), status, Some(code), selected));
  }

  lemma AccountedByNote(s: Session, note: Note, status: RecordStatus, selected: Option<BattleSubmission>)
    requires NotedRequest(note).Some?
    requires Current(s) && s.latest.Some? && s.latest.value.rqid == note.request.identity.rqid
    requires Accounts(note, note.request.identity.rqid, status, selected)
    requires Noted(s.notes, note.request.identity.rqid, status, selected)
    ensures Accounted(s, status, selected)
  {
    hide Noted;
  }

  lemma {:induction false} ChoiceEffects(
    cfg: Config, b: Session, s: Session, request: DecisionRequest, candidate: BattleSubmission)
    requires Chose(cfg, b, s, request, candidate)
    ensures Effects(cfg, b, SubmitChoice(cfg, s, request, candidate).session)
  {
    hide Asked, Effects, Finalize, FirstError, SendChoice;
    if candidate !in request.safe.submissions {
      NotedFailure(cfg, b, s, ChosenOutside(request, s.state, s.calls, candidate), GATE_FAULT, ActionGateRejected,
                   LocalActionGateRejection, Some(candidate));
    } else {
      match cfg.team.encode(candidate)
      case Err(fault) =>
        NotedFailure(cfg, b, s, Unencodable(request, s.state, s.calls, candidate), fault, CommandEncodingFailed,
                     EncodingFailed, Some(candidate));
      case Ok(text) => SendEffects(cfg, b, s, request, candidate, text);
    }
  }

  lemma WaitEffects(cfg: Config, s: Session, request: DecisionRequest)
    ensures var waited := s.(submitted := Some(request.identity), pending := None);
            Effects(cfg, s, Finalize(cfg, waited, WaitNoop, None, None))
  {
    var waited := s.(submitted := Some(request.identity), pending := None);
    var t := Finalize(cfg, waited, WaitNoop, None, None);
    FinalizeQuietly(cfg, waited, None, WaitNoop, None, None);
    hide Finalize, Quietly, Effects;
    QuietEffects(cfg, s, waited);
    ThenQuietly(cfg, s, waited, t);
  }

  lemma AskedEffects(cfg: Config, s: Session, request: DecisionRequest)
    requires Current(s) && s.latest == Some(request.identity) && request.identity == request.safe.identity
    requires !request.kind.Wait? && Reconcile(cfg.roomId, request, s.state, None).Accept?
    requires s.submitted != Some(request.identity)
    ensures Effects(cfg, s, Submit(cfg, s, request).session)
  {
    hide Reconcile, Effects, Finalize, FirstError, SubmitChoice;
    var asked := s.(calls := s.calls + 1);
    match cfg.team.policy(s.calls, request)
    case NoLegalAction =>
      NotedFailure(cfg, s, asked, NothingChosen(request, s.state, asked.calls), NO_LEGAL_ACTION_FAULT, PolicyRejected,
                   NoLegalActionAvailable, None);
    case PolicyRaises(_) => QuietEffects(cfg, s, asked);
    case Chosen(candidate) => ChoiceEffects(cfg, s, asked, request, candidate);
  }

  lemma {:induction false} SubmitEffects(cfg: Config, s: Session, request: DecisionRequest)
    requires Current(s) && s.latest == Some(request.identity)
    requires Reconcile(cfg.roomId, request, s.state, None).Accept?
    ensures Effects(cfg, s, Submit(cfg, s, request).session)
  {
    AcceptedRequest(cfg.roomId, request, s.state, None);
    hide Reconcile;
    if s.submitted == Some(request.identity) {
      NoteEffects(cfg, s, Submit(cfg, s, request).session, SubmittedTwice);
    } else if request.kind.Wait? {
      WaitEffects(cfg, s, request);
      hide Effects;
    } else {
      hide Submit, Effects;
      AskedEffects(cfg, s, request);
    }
  }

  // ----- retrying -----

  lemma {:induction false} RejectEffects(cfg: Config, s: Session, note: Note)
    requires Current(s) && NoteTrue(cfg, note) && (note.Rejection? || note.Overdue?)
    requires note.state == s.state && s.latest == Some(note.request.identity)
    ensures Effects(cfg, s, RejectPending(cfg, s, note).session)
  {
    hide Effects, Finalize, FirstError, NoteTrue;
    NotedFailure(cfg, s, s, note, MISMATCH_FAULT, ReconciliationRejected, ReconciliationMismatch, None);
  }

  lemma {:induction false} RetryEffects(cfg: Config, s: Session, strict: bool)
    requires Current(s)
    ensures Effects(cfg, s, Retry(cfg, s, strict).session)
  {
    EffectsRefl(cfg, s);
    if s.pending.Some? {
      var request := s.pending.value;
      var verdict := Reconcile(cfg.roomId, request, s.state, SubmittedRqid(s));
      AcceptWithoutRqid(cfg.roomId, request, s.state, SubmittedRqid(s));
      hide Effects, Reconcile, Submit, RejectPending;
      match verdict
      case Reject(reason) => RejectEffects(cfg, s, Rejection(request, s.state, SubmittedRqid(s), reason));
      case Pending(reason) => RejectEffects(cfg, s, Overdue(request, s.state, SubmittedRqid(s), reason));
      case Accept =>
        var refreshed := RefreshTrace(cfg, s);
        QuietEffects(cfg, s, refreshed.session);
        if refreshed.raised.None? {
          SubmitEffects(cfg, refreshed.session, request);
          SameLogs(s, refreshed.session);
          QuietlyThen(cfg, s, refreshed.session, Retry(cfg, s, strict).session);
        }
    }
  }

  // ----- lines -----

  lemma OpenEffects(cfg: Config, s: Session, request: DecisionRequest)
    requires s.pendingTrace.None? && s.latest == Some(request.identity) && s.pending == Some(request)
    ensures var t := OpenTrace(cfg, s, request).session;
            && Current(t) && Grew(s, t) && t.calls == s.calls
            && t.sent == s.sent && t.notes == s.notes && t.records == s.records && t.state == s.state
            && t.controlCount == s.controlCount
  {}

  lemma FinalizeEndsTrace(
    cfg: Config, s: Session, status: RecordStatus, code: Option<ErrorCode>, selected: Option<BattleSubmission>)
    ensures Finalize(cfg, s, status, code, selected).pendingTrace.None?
  {
    hide RecordChecks, MakeRecord;
  }

  lemma {:induction false} RequestEffects(cfg: Config, s: Session, request: DecisionRequest)
    ensures Effects(cfg, s, ProcessRequest(cfg, s, request).session)
  {
    EffectsRefl(cfg, s);
    if CheckFreshness(s, request.identity).Fresh? {
      FinalizeQuietly(cfg, s, None, SupersededBeforeSelection, None, None);
      FinalizeEndsTrace(cfg, s, SupersededBeforeSelection, None, None);
      hide Effects, Finalize, OpenTrace, Retry, CheckFreshness, Grew;
      var finalized := Finalize(cfg, s, SupersededBeforeSelection, None, None);
      var t := finalized.(latest := Some(request.identity), pending := Some(request));
      OpenEffects(cfg, t, request);
      var traced := OpenTrace(cfg, t, request).session;
      RetryEffects(cfg, traced, false);
      QuietEffects(cfg, t, traced);
      QuietlyThen(cfg, t, traced, Retry(cfg, traced, false).session);
      GrewSameLogs(s, finalized, t);
      QuietlyThen(cfg, s, t, ProcessRequest(cfg, s, request).session);
    } else {
      hide Effects;
    }
  }

  lemma GrewSameLogs(s: Session, t: Session, u: Session)
    requires Grew(s, t) && u.records == t.records && u.notes == t.notes && u.sent == t.sent
    ensures Grew(s, u)
  {
    hide Explained;
  }

  lemma {:induction false} EventEffects(cfg: Config, s: Session, body: EventBody)
    requires Current(s)
    ensures Effects(cfg, s, AfterEvent(cfg, s, body).session)
  {
    EffectsRefl(cfg, s);
    FinalizeQuietly(cfg, s, None, TerminallyDiscarded, None, None);
    RetryEffects(cfg, s, true);
    RetryEffects(cfg, s, body.BattleStarted?);
    if body.BattleWon? || body.BattleTied? {
      var finalized := Finalize(cfg, s, TerminallyDiscarded, None, None);
      hide Finalize, Quietly, Effects;
      StopEffects(cfg, s, finalized);
    } else {
      hide Effects, Retry, RetryEvent, Finalize;
    }
  }

  lemma StopEffects(cfg: Config, s: Session, t: Session)
    requires Quietly(s, t)
    ensures Effects(cfg, s, t.(pending := None, done := true))
  {
    GrewSameLogs(s, t, t.(pending := None, done := true));
    hide Grew;
  }

  /** The event a line carries, if its parser yields one. */
  function BodyOf(payload: Payload): Option<EventBody> {
    match payload
    case BattleLine(_, Ok(body)) => Some(body)
    case TimerLine(Ok(body)) => Some(body)
    case _ => None
  }

  /** The public state after a line: its event reduced at the next index, or no change if it has none or is refused. */
  function NextState(state: ObservedState, payload: Payload): ObservedState {
    match BodyOf(payload)
    case None => state
    case Some(body) =>
      match Reduce(state, state.eventIndex + 1, body)
      case Ok(next) => next
      case Err(_) => state
  }

  function ControlSeen(payload: Payload): nat {
    if payload.ControlOrChat? then 1 else 0
  }

  /** What processing `payload` does to a session. */
  ghost predicate LineOk(cfg: Config, s: Session, payload: Payload, t: Session) {
    && t.state == NextState(s.state, payload) && t.controlCount == s.controlCount + ControlSeen(payload)
    && Effects(cfg, s.(state := t.state, controlCount := t.controlCount), t)
  }

  lemma StayEffects(cfg: Config, s: Session, payload: Payload, t: Session)
    requires Effects(cfg, s, t) && NextState(s.state, payload) == s.state && !payload.ControlOrChat?
    ensures LineOk(cfg, s, payload, t)
  {
    EffectsKeepState(cfg, s, t);
    hide Effects, NextState;
  }

  lemma {:induction false} EventLineEffects(cfg: Config, s: Session, wire: WireKind, parsed: Result<EventBody, Fault>)
    requires Current(s)
    ensures LineOk(cfg, s, BattleLine(wire, parsed), ProcessEvent(cfg, s, parsed).session)
  {
    hide Effects, Reduce, AfterEvent, LineOk;
    EffectsRefl(cfg, s);
    if parsed.Ok? && Reduce(s.state, s.state.eventIndex + 1, parsed.value).Ok? {
      var advanced := s.(state := Reduce(s.state, s.state.eventIndex + 1, parsed.value).value);
      EventEffects(cfg, advanced, parsed.value);
      MoveEffects(cfg, s, BattleLine(wire, parsed), advanced.state, AfterEvent(cfg, advanced, parsed.value).session);
    } else {
      StayEffects(cfg, s, BattleLine(wire, parsed), s);
    }
  }

  lemma MoveEffects(cfg: Config, s: Session, payload: Payload, state: ObservedState, t: Session)
    requires state == NextState(s.state, payload) && !payload.ControlOrChat? && Effects(cfg, s.(state := state), t)
    ensures LineOk(cfg, s, payload, t)
  {
    EffectsKeepState(cfg, s.(state := state), t);
    assert s.(state := t.state, controlCount := t.controlCount) == s.(state := state);
    hide Effects, NextState;
  }

  lemma TimerLineEffects(cfg: Config, s: Session, timer: Result<TimerBody, Fault>)
    ensures LineOk(cfg, s, TimerLine(timer), ProcessTimer(s, timer).session)
  {
    hide Effects, Reduce, LineOk;
    EffectsRefl(cfg, s);
    if timer.Ok? && Reduce(s.state, s.state.eventIndex + 1, timer.value).Ok? {
      var state := Reduce(s.state, s.state.eventIndex + 1, timer.value).value;
      EffectsRefl(cfg, s.(state := state));
      MoveEffects(cfg, s, TimerLine(timer), state, s.(state := state));
    } else {
      StayEffects(cfg, s, TimerLine(timer), s);
    }
  }

  lemma {:induction false} LineEffects(cfg: Config, s: Session, payload: Payload)
    requires Current(s)
    ensures LineOk(cfg, s, payload, ProcessLine(cfg, s, payload).session)
  {
    hide LineOk, Effects, ProcessEvent, ProcessTimer, ProcessRequest;
    var t := ProcessLine(cfg, s, payload).session;
    match payload
    case BattleLine(wire, parsed) => EventLineEffects(cfg, s, wire, parsed);
    case RequestLine(read) =>
      EffectsRefl(cfg, s);
      if read.Ok? { RequestEffects(cfg, s, read.value); }
      StayEffects(cfg, s, payload, t);
    case TimerLine(timer) => TimerLineEffects(cfg, s, timer);
    case ControlOrChat =>
      EffectsRefl(cfg, t);
      assert s.(state := t.state, controlCount := t.controlCount) == t;
      ControlLineOk(cfg, s, t);
    case _ =>
      QuietEffects(cfg, s, t);
      StayEffects(cfg, s, payload, t);
  }

  lemma ControlLineOk(cfg: Config, s: Session, t: Session)
    requires t == s.(controlCount := s.controlCount + 1) && Effects(cfg, t, t)
    ensures LineOk(cfg, s, ControlOrChat, t)
  {
    hide Effects;
    assert s.(state := t.state, controlCount := t.controlCount) == t;
  }

  lemma EffectsKeepState(cfg: Config, s: Session, t: Session)
    requires Effects(cfg, s, t)
    ensures t.state == s.state && t.controlCount == s.controlCount
    ensures s.(state := t.state, controlCount := t.controlCount) == s
  {}

  lemma AbortQuietly(cfg: Config, s: Session, fault: Fault)
    ensures Quietly(s, Abort(cfg, s, fault))
  {
    FinalizeQuietly(cfg, s, Some(fault), FreshnessInvalidated, None, None);
    FinalizeQuietly(cfg, s, Some(fault), SessionAborted, AbortRecordCode(fault), None);
    FirstErrorLogs(s, fault);
    SameLogs(s, FirstError(s, fault));
    hide Finalize, ParseCode, Grew, AbortRecordCode, FirstError;
    var code := AbortRecordCode(fault);
    var failed := FirstError(s, fault);
    var ended := if code.None? then failed
                 else if code.value == ReconciliationMismatch || code.value == StaleRqidCode
                 then Finalize(cfg, failed, FreshnessInvalidated, None, None)
                 else Finalize(cfg, failed, SessionAborted, code, None);
    assert Quietly(s, ended);
    GrewSameLogs(s, ended, Abort(cfg, s, fault));
  }

  function PayloadOf(item: StreamItem): Payload {
    match item
    case Line(line) => line.payload
    case StreamFault(_) => UnknownLine
  }

  /** What the session sees of an item: another room's line tells it as little as a fault of the stream. */
  function SeenBy(cfg: Config, item: StreamItem): Payload {
    if item.Line? && item.line.roomId == Some(cfg.roomId) then item.line.payload else UnknownLine
  }

  /** One item advances the state by exactly its own event, sends at most one command for the latest request, and blames
      only collaborators that failed. */
  lemma {:induction false} StepEffects(cfg: Config, s: Session, item: StreamItem)
    requires Current(s)
    ensures LineOk(cfg, s, SeenBy(cfg, item), Step(cfg, s, item))
  {
    EffectsRefl(cfg, s);
    hide Effects, Quietly, ProcessLine, Abort, LineOk;
    StayEffects(cfg, s, UnknownLine, s);
    match item
    case StreamFault(fault) =>
      AbortQuietly(cfg, s, fault);
      ThenQuietly(cfg, s, s, Abort(cfg, s, fault));
      StayEffects(cfg, s, UnknownLine, Abort(cfg, s, fault));
    case Line(line) =>
      if line.roomId == Some(cfg.roomId) {
        LineEffects(cfg, s, line.payload);
        var flow := ProcessLine(cfg, s, line.payload);
        if flow.raised.Some? {
          AbortQuietly(cfg, flow.session, flow.raised.value);
          LineThenQuietly(cfg, s, line.payload, flow.session, Abort(cfg, flow.session, flow.raised.value));
        }
      }
  }

  lemma LineThenQuietly(cfg: Config, s: Session, payload: Payload, t: Session, u: Session)
    requires LineOk(cfg, s, payload, t) && Quietly(t, u)
    ensures LineOk(cfg, s, payload, u)
  {
    hide Effects, NextState;
    ThenQuietly(cfg, s.(state := t.state, controlCount := t.controlCount), t, u);
    hide Grew;
  }
}
