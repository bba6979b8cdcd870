/** The measurement runner, and the end-to-end result: its own validator never rejects what a session produced. */
module MeasurementRunners {
  import opened Basics
  import opened ObservedStates
  import opened Reducer
  import opened ReducerInvariants
  import opened Submissions
  import opened DecisionRecords
  import opened SessionModel
  import opened SessionInvariants
  import opened SessionEffects
  import opened SessionTheorems
  import opened BattleSessions
  import opened MeasurementResults

  // ----- the result built from a session -----

  function BuildResult(
    context: RunContext, records: seq<DecisionRecord>, session: BattleSessionResult, lifecycleFailed: bool)
    : MeasurementRunResult
  {
    var traceError := session.traceError || lifecycleFailed;
    var traceStatus :=
      if traceError then SinkFailed
      else if records != [] then Emitted
      else if session.recordError then NotAttempted
      else NoRecords;
    var winner := WinnerOf(session.state);
    var outcome :=
      if winner.Some? then winner.value else if session.primaryError.Some? then Void else Unfinished;
    var primary :=
      if lifecycleFailed && session.primaryError.None? then Some(TRACE_SINK_FAULT) else session.primaryError;
    var traceOnly :=
      traceError
      && (session.primaryError.None? || StableErrorCode(session.primaryError.value) == TRACE_SINK_CODE);
    var errorClass :=
      if traceOnly then Some(TRACE_SINK_CODE)
      else if primary.Some? then Some(StableErrorCode(primary.value))
      else None;
    var status :=
      if traceOnly then TraceFailed
      else if primary.Some? then Failed
      else if records == [] then NoRequest
      else Completed;
    MeasurementRunResult(
      context.runContextDigest, status, outcome, errorClass, DigestsOf(records), session.explicitRequestSubmissions,
      session.defaultSubmissions, session.roomControlOrChatCount, session.state.ignoredDisplayCount,
      StateDigest(session.state), traceStatus)
  }

  /** Nothing but the sink failed: there is no other error, or it publishes the sink's own code. */
  ghost predicate OnlySinkFailed(session: BattleSessionResult, lifecycleFailed: bool) {
    && (session.traceError || lifecycleFailed)
    && (session.primaryError.Some? ==> StableErrorCode(session.primaryError.value) == "trace_sink_failure")
  }

  /** What a result says of the session it was built from, field by field. */
  ghost predicate Reports(
    r: MeasurementRunResult, context: RunContext, records: seq<DecisionRecord>, session: BattleSessionResult,
    lifecycleFailed: bool)
  {
    var sinkFailed := session.traceError || lifecycleFailed;
    && r.runContextDigest == context.runContextDigest && r.finalStateDigest == StateDigest(session.state)
    && |r.recordDigests| == |records|
    && (forall i :: 0 <= i < |records| ==> r.recordDigests[i] == RecordDigest(records[i]))
    && r.explicitCount == session.explicitRequestSubmissions && r.defaultCount == session.defaultSubmissions
    && r.controlCount == session.roomControlOrChatCount && r.ignoredDisplayCount == session.state.ignoredDisplayCount
    && ShowsWinner(session.state, r.battleOutcome)
    && (r.battleOutcome.Void? ==> session.primaryError.Some?)
    && (r.battleOutcome.Unfinished? ==> session.primaryError.None?)
    && (r.traceStatus.SinkFailed? <==> sinkFailed)
    && (r.traceStatus.Emitted? <==> !sinkFailed && records != [])
    && (r.traceStatus.NotAttempted? <==> !sinkFailed && records == [] && session.recordError)
    && (r.runStatus.TraceFailed? <==> OnlySinkFailed(session, lifecycleFailed))
    && (r.runStatus.Failed? <==> !OnlySinkFailed(session, lifecycleFailed) && session.primaryError.Some?)
    && (r.runStatus.Completed? <==> !sinkFailed && session.primaryError.None? && records != [])
    && (r.runStatus.NoRequest? <==> !sinkFailed && session.primaryError.None? && records == [])
    && r.primaryErrorClass == (if OnlySinkFailed(session, lifecycleFailed) then Some("trace_sink_failure")
                               else if session.primaryError.Some? then Some(StableErrorCode(session.primaryError.value))
                               else None)
  }

  lemma {:induction false} BuiltReports(
    context: RunContext, records: seq<DecisionRecord>, session: BattleSessionResult, lifecycleFailed: bool)
    ensures Reports(BuildResult(context, records, session, lifecycleFailed), context, records, session, lifecycleFailed)
  {
    WinnerRead(session.state);
    hide StableErrorCode, WinnerOf, OurUserWon, OpponentWon;
  }

  datatype RunnerError = LedgerInconsistent | NotCanonical | ConstructorRefused | InvalidResult(errors: seq<string>)

  /** Owns one session and the lifecycle of its sink. */
  class MeasurementRunner {
    const session: BattleSession
    const traceSink: RecordingTraceSink
    const runContext: RunContext

    constructor (session: BattleSession, traceSink: RecordingTraceSink, runContext: RunContext)
      requires session.traceSink == traceSink
      ensures this.session == session && this.traceSink == traceSink && this.runContext == runContext
    {
      this.session, this.traceSink, this.runContext := session, traceSink, runContext;
    }

    method Build(records: seq<DecisionRecord>, sessionResult: BattleSessionResult, lifecycleFailed: bool)
      returns (result: MeasurementRunResult)
      ensures result == BuildResult(runContext, records, sessionResult, lifecycleFailed)
    {
      hide StableErrorCode, WinnerOf;
      var traceError := sessionResult.traceError || lifecycleFailed;
      var traceStatus := NoRecords;
      if traceError {
        traceStatus := SinkFailed;
      } else if records != [] {
        traceStatus := Emitted;
      } else if sessionResult.recordError {
        traceStatus := NotAttempted;
      }
      var winner := WinnerOf(sessionResult.state);
      var battleOutcome := Unfinished;
      if winner.Some? {
        battleOutcome := winner.value;
      } else if sessionResult.primaryError.Some? {
        battleOutcome := Void;
      }
      var primaryError := sessionResult.primaryError;
      if lifecycleFailed && primaryError.None? {
        primaryError := Some(TRACE_SINK_FAULT);
      }
      var primaryErrorClass := None;
      if primaryError.Some? {
        primaryErrorClass := Some(StableErrorCode(primaryError.value));
      }
      var traceOnlyFailure :=
        traceError
        && (sessionResult.primaryError.None?
            || StableErrorCode(sessionResult.primaryError.value) == TRACE_SINK_CODE);
      if traceOnlyFailure {
        primaryErrorClass := Some(TRACE_SINK_CODE);
      }
      var runStatus := Completed;
      if traceOnlyFailure {
        runStatus := TraceFailed;
      } else if primaryError.Some? {
        runStatus := Failed;
      } else if records == [] {
        runStatus := NoRequest;
      }
      result := MeasurementRunResult(
        runContext.runContextDigest, runStatus, battleOutcome, primaryErrorClass, DigestsOf(records),
        sessionResult.explicitRequestSubmissions, sessionResult.defaultSubmissions,
        sessionResult.roomControlOrChatCount, sessionResult.state.ignoredDisplayCount,
        StateDigest(sessionResult.state), traceStatus);
    }

    /** Publish a result only if its constructor and its validator accept it. */
    method Publish(result: MeasurementRunResult, records: seq<DecisionRecord>, sessionResult: BattleSessionResult)
      returns (r: Result<MeasurementRunResult, RunnerError>)
      ensures r.Ok? <==> ConstructorAccepts(result)
                         && ValidResult(result, records, Some(sessionResult), Some(sessionResult.state))
      ensures r.Ok? ==> r.value == result
      ensures r.Err? ==> r.error == ConstructorRefused || (r.error.InvalidResult? && r.error.errors != [])
    {
      hide ConstructorAccepts, ValidResult;
      var accepted := CheckConstruction(result);
      if !accepted {
        return Err(ConstructorRefused);
      }
      var errors := ValidateMeasurementRunResult(result, records, Some(sessionResult), Some(sessionResult.state));
      if errors != [] {
        return Err(InvalidResult(errors));
      }
      return Ok(result);
    }

    /** `run`: drive the session, flush and close the sink, build the result and validate it. A fresh session's result
        is always published, unless its state cannot be canonicalized at all. */
    method Run(items: seq<StreamItem>, flushFails: bool, closeFails: bool)
      returns (r: Result<MeasurementRunResult, RunnerError>)
      requires session.Valid() && session.traceSink == traceSink
      modifies session, session.world, session.traceSink
      ensures session.View() == SessionModel.Run(session.cfg, old(session.View()), items)
      ensures r.Ok? ==> var s := session.View();
                        r.value == BuildResult(runContext, s.records, Snapshot(s), flushFails || closeFails)
                        && Reports(r.value, runContext, s.records, Snapshot(s), flushFails || closeFails)
      ensures MeasuredRun(session.cfg, runContext, old(session.View()), items) ==>
                r.Ok? || (r == Err(NotCanonical) && !session.cfg.team.canonical(session.state))
    {
      hide SessionModel.Run, ConstructorAccepts, ValidResult, BuildResult, Reports;
      ghost var start := session.View();
      var sessionResult := session.RunAll(items);
      var lifecycleFailed := false;
      if flushFails { lifecycleFailed := true; }
      if closeFails { lifecycleFailed := true; }
      var records := traceSink.records;
      var acceptedDigests := DigestsOf(traceSink.records);
      if |traceSink.records| != |acceptedDigests| || acceptedDigests != DigestsOf(records) {
        return Err(LedgerInconsistent);
      }
      if !session.cfg.team.canonical(sessionResult.state) {
        return Err(NotCanonical);
      }
      var result := Build(records, sessionResult, lifecycleFailed);
      BuiltReports(runContext, records, sessionResult, lifecycleFailed);
      r := Publish(result, records, sessionResult);
      if MeasuredRun(session.cfg, runContext, start, items) {
        BuiltResultIsValid(session.cfg, start.state, items, lifecycleFailed);
      }
    }
  }

  /** A fresh session over well-formed input, short enough that no counter leaves the canonical integers. */
  ghost predicate MeasuredRun(cfg: Config, context: RunContext, start: Session, items: seq<StreamItem>) {
    && start == InitialSession(start.state) && StateOk(start.state) && Admissible(items)
    && cfg.context == Some(context)
    && 0 <= start.state.ignoredDisplayCount && start.state.ignoredDisplayCount + |items| <= MAX_SAFE_INTEGER
  }

  // ----- counters -----

  lemma RosterTotals(state: ObservedState, body: EventBody)
    requires TouchesRoster(body)
    ensures SameTotals(state, Apply(state, body))
  {
    hide SwapBoosts, CopyBoosts, EditActive, ChangeHealth, ChangeIdentity, SwitchIn, CureTeam, ClearActiveBoosts;
    match body
    case PokemonSwitched(ref, details, hp) => SwitchTotals(state, ref, details, hp);
    case PokemonDragged(ref, details, hp) => SwitchTotals(state, ref, details, hp);
    case HealthChanged(side, slot, nickname, hp) => HealthTotals(state, side, slot, nickname, hp);
    case TeamStatusCured(side) => CureTotals(state, side);
    case BoostsSwapped(ref, other, stats) => SwapTotals(state, ref, other, stats);
    case BoostsCopied(ref, other, stats) => CopyTotals(state, ref, other, stats);
    case IdentityChanged(ref, details, hp) => IdentityTotals(state, ref, details, hp);
    case Targeted(ref, edit) => EditTotals(state, ref, edit);
    case AllBoostsCleared =>
  }

  lemma OtherTotals(state: ObservedState, body: EventBody)
    requires !TouchesRoster(body) && !body.IgnoredDisplay? && !body.BattleWon? && !body.BattleTied?
    ensures SameTotals(state, Apply(state, body))
  {
    hide ApplyMetadata, ChangeField, ChangeCondition, AddEvidence, EvidenceFor;
    match body
    case FieldConditionChanged(condition, action) => FieldTotals(state, condition, action);
    case SideConditionChanged(side, condition, action) => ConditionTotals(state, side, condition, action);
    case MovePrevented(ref, reason, moveId) =>
      EvidenceTotals(state, EvidenceFor(ref, "move_prevented", reason,
                                          if moveId.Some? then [moveId.value] else [], state.eventIndex));
    case EvidenceSeen(kind, side, slot, nickname, effect, annotations) =>
      EvidenceTotals(state, VisibleEvidence(state.eventIndex, kind, side, slot, nickname, effect, annotations));
    case _ => MetadataTotals(state, body);
  }

  /** An event that is no ignored display and no end of the battle leaves what a result reads. */
  lemma TotalsStay(state: ObservedState, eventIndex: int, body: EventBody)
    requires !body.IgnoredDisplay? && !body.BattleWon? && !body.BattleTied?
    ensures SameTotals(state, Reduce(state, eventIndex, body))
  {
    hide Apply;
    var dated := state.(eventIndex := eventIndex);
    if TouchesRoster(body) { RosterTotals(dated, body); } else { OtherTotals(dated, body); }
  }

  /** The ignored-display counter only ever grows, by one for each ignored display; our user stays who it is; and only
      the end of the battle decides it. */
  lemma {:induction false} TotalsStep(state: ObservedState, eventIndex: int, body: EventBody)
    requires Reduce(state, eventIndex, body).Ok?
    ensures var after := Reduce(state, eventIndex, body).value;
            && after.ignoredDisplayCount == state.ignoredDisplayCount + (if body.IgnoredDisplay? then 1 else 0)
            && after.ourUserId == state.ourUserId
            && after.tied == (state.tied || body.BattleTied?)
            && after.winner == (if body.BattleWon? then Some(body.winner) else state.winner)
  {
    var dated := state.(eventIndex := eventIndex);
    if body.IgnoredDisplay? {
      assert Apply(dated, body) == Ok(dated.(ignoredDisplayCount := dated.ignoredDisplayCount + 1));
    } else if body.BattleWon? {
      assert Apply(dated, body) == Ok(dated.(winner := Some(body.winner)));
    } else if body.BattleTied? {
      assert Apply(dated, body) == Ok(dated.(tied := true));
    } else {
      TotalsStay(state, eventIndex, body);
    }
    hide Apply;
  }

  lemma FieldTotals(state: ObservedState, condition: string, action: Action)
    ensures SameTotals(state, Ok(ChangeField(state, condition, action)))
  {
    hide Without;
  }

  lemma ConditionTotals(state: ObservedState, side: string, condition: string, action: Action)
    ensures SameTotals(state, ChangeCondition(state, side, condition, action))
  {
    hide UpdateSideCondition;
  }

  lemma EvidenceTotals(state: ObservedState, evidence: VisibleEvidence)
    ensures SameTotals(state, Ok(AddEvidence(state, evidence)))
  {}

  /** What a result reads of the state, besides its digest and the players: as it was. */
  ghost predicate SameTotals(before: ObservedState, after: Reduced<ObservedState>) {
    after.Ok? ==>
      && after.value.ignoredDisplayCount == before.ignoredDisplayCount && after.value.ourUserId == before.ourUserId
      && after.value.tied == before.tied && after.value.winner == before.winner
  }

  lemma SwitchTotals(state: ObservedState, ref: PokemonRef, details: string, token: HpToken)
    ensures SameTotals(state, SwitchIn(state, ref, details, token))
  {
    hide ActivatePokemon, TokenToObservation;
  }

  lemma HealthTotals(state: ObservedState, side: string, slot: Option<int>, nickname: string, token: HpToken)
    ensures SameTotals(state, ChangeHealth(state, side, slot, nickname, token))
  {
    hide RequireHealthTarget, TokenToObservation, ReplaceAt;
  }

  lemma CureTotals(state: ObservedState, side: string)
    ensures SameTotals(state, CureTeam(state, side))
  {}

  lemma SwapTotals(state: ObservedState, source: PokemonRef, target: PokemonRef, stats: seq<string>)
    ensures SameTotals(state, SwapBoosts(state, source, target, stats))
  {
    hide SwapStats, RequireActive, ReplaceAt;
  }

  lemma CopyTotals(state: ObservedState, target: PokemonRef, source: PokemonRef, stats: seq<string>)
    ensures SameTotals(state, CopyBoosts(state, target, source, stats))
  {
    hide CopyStats, RequireActive, ReplaceAt;
  }

  lemma IdentityTotals(state: ObservedState, ref: PokemonRef, details: string, token: HpToken)
    ensures SameTotals(state, ChangeIdentity(state, ref, details, token))
  {
    hide TokenToObservation, OpenInterval, ReplaceAt;
  }

  lemma EditTotals(state: ObservedState, ref: PokemonRef, edit: Edit)
    ensures SameTotals(state, EditActive(state, ref, edit))
  {
    hide EditPokemon, EditEvidence, RequireActive, ReplaceAt;
  }

  lemma MetadataTotals(state: ObservedState, body: EventBody)
    requires !body.BattleWon? && !body.BattleTied?
    ensures SameTotals(state, ApplyMetadata(state, body))
  {
    hide DeclarePlayer, DeclarePreview, DeclareTeamSize, ApplyProgress;
    match body
    case PlayerDeclared(side, userId, displayName) => DeclareTotals(state, side, userId, displayName);
    case TeamSizeDeclared(side, size) => SizeTotals(state, side, size);
    case PreviewPokemonDeclared(side, details, hasItem) =>
      PreviewTotals(state, side, PreviewPokemon(details, hasItem));
    case _ => ProgressTotals(state, body);
  }

  lemma ProgressTotals(state: ObservedState, body: EventBody)
    requires !body.BattleWon? && !body.BattleTied?
    ensures SameTotals(state, ApplyProgress(state, body))
  {}

  lemma DeclareTotals(state: ObservedState, side: string, userId: string, displayName: string)
    ensures SameTotals(state, DeclarePlayer(state, side, userId, displayName))
  {}

  lemma SizeTotals(state: ObservedState, side: string, size: int)
    ensures SameTotals(state, DeclareTeamSize(state, side, size))
  {}

  lemma PreviewTotals(state: ObservedState, side: string, entry: PreviewPokemon)
    ensures SameTotals(state, DeclarePreview(state, side, entry))
  {}

  /** Each counter of `t` is at most `n` above that of `s`. */
  ghost predicate CountedWithin(s: Session, t: Session, n: nat) {
    && |t.sent| <= |s.sent| + n && t.controlCount <= s.controlCount + n
    && s.state.ignoredDisplayCount <= t.state.ignoredDisplayCount <= s.state.ignoredDisplayCount + n
  }

  lemma StepCounts(cfg: Config, s: Session, item: StreamItem)
    requires Inv(cfg, s)
    ensures CountedWithin(s, Step(cfg, s, item), 1)
  {
    hide Inv, Step, StateOk, NextState, Grew, NotedAtMostOne;
    InvIsCurrent(cfg, s);
    StepEffects(cfg, s, item);
    NextDisplays(s.state, SeenBy(cfg, item));
  }

  lemma NextDisplays(state: ObservedState, payload: Payload)
    ensures state.ignoredDisplayCount <= NextState(state, payload).ignoredDisplayCount <= state.ignoredDisplayCount + 1
  {
    hide Reduce;
    if BodyOf(payload).Some? && Reduce(state, state.eventIndex + 1, BodyOf(payload).value).Ok? {
      TotalsStep(state, state.eventIndex + 1, BodyOf(payload).value);
    }
  }

  lemma {:induction false} RunCounts(cfg: Config, s: Session, items: seq<StreamItem>)
    requires Inv(cfg, s) && Admissible(items)
    ensures CountedWithin(s, Run(cfg, s, items), |items|)
    decreases |items|
  {
    hide Inv, Step;
    if items != [] && !s.done {
      StepCounts(cfg, s, items[0]);
      StepKeeps(cfg, s, items[0]);
      assert forall i :: 0 <= i < |items[1..]| ==> items[1..][i] == items[i + 1];
      RunCounts(cfg, Step(cfg, s, items[0]), items[1..]);
    }
  }

  lemma {:induction false} DeliveredAreSent(sent: seq<Dispatch>)
    ensures |DeliveredDecisions(sent)| <= |sent|
  {
    if sent != [] {
      DeliveredAreSent(sent[..|sent| - 1]);
    }
  }

  lemma {:induction false} CountIsPart(pairs: seq<Decision>, provenance: Provenance)
    ensures CountDecisions(pairs, provenance) <= |pairs|
  {
    if pairs != [] {
      CountIsPart(pairs[..|pairs| - 1], provenance);
    }
  }

  /** What the validator counts in the records is what the session counted as delivered. */
  lemma {:induction false} TallyIsCount(records: seq<DecisionRecord>, provenance: Provenance)
    requires forall i :: 0 <= i < |records| ==> RecordChecks(records[i])
    ensures SubmittedWith(records, provenance) == CountDecisions(RecordedDecisions(records), provenance)
  {
    if records != [] {
      var last := records[|records| - 1];
      var earlier := records[..|records| - 1];
      TallyIsCount(earlier, provenance);
      assert RecordChecks(last);
      if last.status.Submitted? {
        assert last.selected.Some? && last.provenance == Some(last.selected.value.provenance);
        CountAppend(RecordedDecisions(earlier), RecordedDecision(last), provenance);
      } else {
        assert RecordedDecisions(earlier) + [] == RecordedDecisions(earlier);
      }
    }
  }

  // ----- end to end -----

  /** What the validator relies on, read off the session invariant. */
  ghost predicate Delivered(s: Session) {
    var recorded, delivered := RecordedDecisions(s.records), DeliveredDecisions(s.sent);
    && s.explicitCount == CountDecisions(delivered, ExplicitRequest)
    && s.defaultCount == CountDecisions(delivered, ServerDefault)
    && (|| recorded == delivered
        || (s.traceError && s.primary == Some(TRACE_SINK_FAULT)
            && delivered != [] && recorded == delivered[..|delivered| - 1]))
  }

  lemma SessionDelivers(cfg: Config, s: Session)
    requires Inv(cfg, s) && cfg.context.Some?
    ensures Delivered(s) && RecordsOk(cfg, s.records) && !s.recordError && (s.traceError ==> s.primary.Some?)
  {
    hide StateOk, RecordsOk, RecordedDecisions, DeliveredDecisions, CountDecisions, SentInv, FreshInv;
  }

  lemma SinkCodeIsStable()
    ensures StableErrorCode(TRACE_SINK_FAULT) == TRACE_SINK_CODE && AllowedCode(TRACE_SINK_CODE)
  {
    hide FindCode, SnakeName;
  }

  lemma ErrorClassAllowed(context: RunContext, s: Session, lifecycleFailed: bool)
    ensures var code := BuildResult(context, s.records, Snapshot(s), lifecycleFailed).primaryErrorClass;
            code.Some? ==> AllowedCode(code.value)
  {
    if s.primary.Some? { StableCodesAreAllowed(s.primary.value); }
    SinkCodeIsStable();
    hide StableErrorCode, AllowedCode, WinnerOf;
  }

  lemma CountersInRange(s: Session, items: nat)
    requires Delivered(s) && |s.sent| <= items <= MAX_SAFE_INTEGER
    ensures SafeInteger(s.explicitCount) && SafeInteger(s.defaultCount)
  {
    DeliveredAreSent(s.sent);
    CountIsPart(DeliveredDecisions(s.sent), ExplicitRequest);
    CountIsPart(DeliveredDecisions(s.sent), ServerDefault);
  }

  lemma {:induction false} BuiltIsConstructible(
    cfg: Config, s: Session, items: nat, ignored: int, lifecycleFailed: bool)
    requires Delivered(s) && RecordsOk(cfg, s.records) && cfg.context.Some?
    requires |s.sent| <= items && s.controlCount <= items && 0 <= s.state.ignoredDisplayCount <= ignored + items
    requires 0 <= ignored && ignored + items <= MAX_SAFE_INTEGER
    ensures ConstructorAccepts(BuildResult(cfg.context.value, s.records, Snapshot(s), lifecycleFailed))
  {
    ErrorClassAllowed(cfg.context.value, s, lifecycleFailed);
    CountersInRange(s, items);
    RecordDigestsDiffer(cfg, s.records);
    hide Delivered, RecordsOk, StableErrorCode, AllowedCode, WinnerOf, Distinct;
  }

  /** Records with different indices have different digests. */
  lemma RecordDigestsDiffer(cfg: Config, records: seq<DecisionRecord>)
    requires RecordsOk(cfg, records)
    ensures Distinct(DigestsOf(records)) && InDecisionOrder(records)
  {
    hide RecordChecks;
  }

  lemma Tallies(cfg: Config, records: seq<DecisionRecord>, provenance: Provenance)
    requires RecordsOk(cfg, records)
    ensures SubmittedWith(records, provenance) == CountDecisions(RecordedDecisions(records), provenance)
  {
    hide RecordChecks;
    forall i | 0 <= i < |records| ensures RecordChecks(records[i]) {
      assert RecordFits(cfg, records[i], i);
    }
    TallyIsCount(records, provenance);
  }

  /** A delivery whose record the sink lost: the run ends with the sink's own error. */
  lemma LostRecord(cfg: Config, s: Session, lifecycleFailed: bool)
    requires cfg.context.Some? && s.traceError && s.primary == Some(TRACE_SINK_FAULT)
    ensures PartialTrace(BuildResult(cfg.context.value, s.records, Snapshot(s), lifecycleFailed), s.records)
  {
    SinkCodeIsStable();
    hide StableErrorCode, WinnerOf;
  }

  lemma BuiltCounts(cfg: Config, s: Session, lifecycleFailed: bool)
    requires cfg.context.Some?
    ensures var r := BuildResult(cfg.context.value, s.records, Snapshot(s), lifecycleFailed);
            r.explicitCount == s.explicitCount && r.defaultCount == s.defaultCount
  {
    hide StableErrorCode, WinnerOf;
  }

  lemma {:induction false} BuiltFitsCounters(cfg: Config, s: Session, lifecycleFailed: bool)
    requires Delivered(s) && RecordsOk(cfg, s.records) && cfg.context.Some?
    ensures CountersFit(BuildResult(cfg.context.value, s.records, Snapshot(s), lifecycleFailed), s.records)
  {
    Tallies(cfg, s.records, ExplicitRequest);
    Tallies(cfg, s.records, ServerDefault);
    BuiltCounts(cfg, s, lifecycleFailed);
    hide RecordsOk, BuildResult, CountDecisions, SubmittedWith, RecordedDecisions, DeliveredDecisions, PartialTrace;
    var delivered := DeliveredDecisions(s.sent);
    if RecordedDecisions(s.records) != delivered {
      LostRecord(cfg, s, lifecycleFailed);
      var last := delivered[|delivered| - 1];
      assert delivered == RecordedDecisions(s.records) + [last];
      CountAppend(RecordedDecisions(s.records), last, ExplicitRequest);
      CountAppend(RecordedDecisions(s.records), last, ServerDefault);
    }
  }

  lemma {:induction false} BuiltFitsMatrix(cfg: Config, s: Session, lifecycleFailed: bool)
    requires Delivered(s) && cfg.context.Some? && !s.recordError && (s.traceError ==> s.primary.Some?)
    ensures StatusMatrix(BuildResult(cfg.context.value, s.records, Snapshot(s), lifecycleFailed))
  {
    hide StableErrorCode, WinnerOf;
    if s.records == [] && s.primary.None? {
      assert DeliveredDecisions(s.sent) == [];
    }
  }

  lemma {:induction false} BuiltFitsSession(cfg: Config, s: Session, lifecycleFailed: bool)
    requires cfg.context.Some? && !s.recordError
    ensures FitsSession(BuildResult(cfg.context.value, s.records, Snapshot(s), lifecycleFailed), Snapshot(s))
  {
    hide StableErrorCode, WinnerOf;
  }

  lemma BuiltFitsState(cfg: Config, s: Session, lifecycleFailed: bool)
    requires cfg.context.Some?
    ensures FitsState(BuildResult(cfg.context.value, s.records, Snapshot(s), lifecycleFailed), s.state)
  {
    BuiltReports(cfg.context.value, s.records, Snapshot(s), lifecycleFailed);
    hide BuildResult, ShowsWinner, OnlySinkFailed;
  }

  lemma {:induction false} BuiltFitsRecords(cfg: Config, s: Session, lifecycleFailed: bool)
    requires Delivered(s) && RecordsOk(cfg, s.records) && cfg.context.Some?
    ensures FitsRecords(BuildResult(cfg.context.value, s.records, Snapshot(s), lifecycleFailed), s.records)
  {
    BuiltFitsCounters(cfg, s, lifecycleFailed);
    RecordDigestsDiffer(cfg, s.records);
    hide CountersFit, InDecisionOrder, RecordChecks, StableErrorCode, WinnerOf;
  }

  /** End to end: whatever the stream delivers, whichever policy, encoder, send or sink call fails, and whether flush or
      close fail, the result built from the session passes its constructor and every check of its own validator. */
  lemma {:induction false} BuiltResultIsValid(
    cfg: Config, state: ObservedState, items: seq<StreamItem>, lifecycleFailed: bool)
    requires StateOk(state) && Admissible(items) && cfg.context.Some?
    requires 0 <= state.ignoredDisplayCount && state.ignoredDisplayCount + |items| <= MAX_SAFE_INTEGER
    ensures var s := Run(cfg, InitialSession(state), items);
            var built := BuildResult(cfg.context.value, s.records, Snapshot(s), lifecycleFailed);
            && ConstructorAccepts(built)
            && ValidResult(built, s.records, Some(Snapshot(s)), Some(s.state))
  {
    hide StateOk, Inv, Run, BuildResult, ConstructorAccepts, FitsRecords, StatusMatrix, FitsSession, FitsState,
         Delivered, RecordsOk;
    InitialInv(cfg, state);
    RunKeeps(cfg, InitialSession(state), items);
    RunCounts(cfg, InitialSession(state), items);
    var s := Run(cfg, InitialSession(state), items);
    SessionDelivers(cfg, s);
    BuiltIsConstructible(cfg, s, |items|, state.ignoredDisplayCount, lifecycleFailed);
    BuiltFitsRecords(cfg, s, lifecycleFailed);
    BuiltFitsMatrix(cfg, s, lifecycleFailed);
    BuiltFitsSession(cfg, s, lifecycleFailed);
    BuiltFitsState(cfg, s, lifecycleFailed);
  }

  /** A result published as completed accounts for the whole battle: every delivered command has its record, in order,
      under the record digests of the result. */
  lemma {:induction false} CompletedRunsAreComplete(
    cfg: Config, state: ObservedState, items: seq<StreamItem>, lifecycleFailed: bool)
    requires StateOk(state) && Admissible(items) && cfg.context.Some?
    ensures var s := Run(cfg, InitialSession(state), items);
            var built := BuildResult(cfg.context.value, s.records, Snapshot(s), lifecycleFailed);
            && (built.runStatus.Completed? <==> !lifecycleFailed && s.primary.None? && s.records != [])
            && (built.runStatus.NoRequest? <==> !lifecycleFailed && s.primary.None? && s.records == [])
            && (built.runStatus.Completed? || built.runStatus.NoRequest? ==>
                  && RecordedDecisions(s.records) == DeliveredDecisions(s.sent)
                  && built.recordDigests == DigestsOf(s.records)
                  && built.explicitCount + built.defaultCount == |DeliveredDecisions(s.sent)|)
  {
    hide StateOk, Inv, Run, Delivered, RecordsOk;
    InitialInv(cfg, state);
    RunKeeps(cfg, InitialSession(state), items);
    var s := Run(cfg, InitialSession(state), items);
    SessionDelivers(cfg, s);
    BuiltStatus(cfg.context.value, s, lifecycleFailed);
    hide BuildResult;
    CountsCoverAll(DeliveredDecisions(s.sent));
    DeliveredFacts(s);
  }

  lemma DeliveredFacts(s: Session)
    requires Delivered(s)
    ensures s.explicitCount == CountDecisions(DeliveredDecisions(s.sent), ExplicitRequest)
    ensures s.defaultCount == CountDecisions(DeliveredDecisions(s.sent), ServerDefault)
    ensures !s.traceError ==> RecordedDecisions(s.records) == DeliveredDecisions(s.sent)
  {}

  lemma BuiltStatus(context: RunContext, s: Session, lifecycleFailed: bool)
    requires s.traceError ==> s.primary.Some?
    ensures var built := BuildResult(context, s.records, Snapshot(s), lifecycleFailed);
            && (built.runStatus.Completed? <==> !lifecycleFailed && s.primary.None? && s.records != [])
            && (built.runStatus.NoRequest? <==> !lifecycleFailed && s.primary.None? && s.records == [])
            && (s.traceError ==> !built.runStatus.Completed? && !built.runStatus.NoRequest?)
            && built.recordDigests == DigestsOf(s.records)
            && built.explicitCount == s.explicitCount && built.defaultCount == s.defaultCount
  {
    hide StableErrorCode, WinnerOf;
  }

  lemma {:induction false} CountsCoverAll(decisions: seq<Decision>)
    ensures CountDecisions(decisions, ExplicitRequest) + CountDecisions(decisions, ServerDefault) == |decisions|
  {
    if decisions != [] {
      CountsCoverAll(decisions[..|decisions| - 1]);
    }
  }
}
