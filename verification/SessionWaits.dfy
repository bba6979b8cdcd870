/** What a running session waits for: only its last fresh request, and exactly while that lacks a public fact. */
module SessionWaits {
  import opened Basics
  import opened ObservedStates
  import opened Reducer
  import opened ReducerInvariants
  import opened RosterKeys
  import opened Submissions
  import opened Reconciler
  import opened DecisionRecords
  import opened SessionModel
  import opened SessionInvariants
  import opened SessionEffects
  import opened SessionTheorems

  /** The request an item brings, if it passes the freshness check. */
  function FreshRequest(cfg: Config, s: Session, item: StreamItem): Option<DecisionRequest> {
    match SeenBy(cfg, item)
    case RequestLine(Ok(request)) => if Newer(s.latest, request.identity) then Some(request) else None
    case _ => None
  }

  /** The last request of the stream that passed the freshness check, `before` if none did. */
  function LastFresh(cfg: Config, s: Session, items: seq<StreamItem>, before: Option<DecisionRequest>)
    : Option<DecisionRequest>
    decreases |items|
  {
    if items == [] || s.done then before else
    var here := FreshRequest(cfg, s, items[0]);
    LastFresh(cfg, Step(cfg, s, items[0]), items[1..], if here.Some? then here else before)
  }

  // ----- facts are never lost -----

  predicate FieldsStay(before: ObservedState, after: ObservedState) {
    && (before.ourSide.Some? ==> after.ourSide == before.ourSide)
    && (before.generation.Some? ==> after.generation.Some?)
    && (before.gameType.Some? ==> after.gameType.Some?)
    && (before.tier.Some? ==> after.tier.Some?)
  }

  ghost predicate FactsStay(before: ObservedState, after: ObservedState) {
    && FieldsStay(before, after)
    && (HasActive(before.p1.pokemon) ==> HasActive(after.p1.pokemon))
    && (HasActive(before.p2.pokemon) ==> HasActive(after.p2.pokemon))
  }

  lemma KnownStaysKnown(before: ObservedState, after: ObservedState, request: DecisionRequest)
    requires FactsStay(before, after) && !MissingFact(before, request)
    ensures !MissingFact(after, request)
  {
    hide HasActive;
  }

  lemma PlayerKeepsFields(state: ObservedState, side: string, userId: string, displayName: string)
    ensures var after := DeclarePlayer(state, side, userId, displayName);
            after.Ok? ==> FieldsStay(state, after.value)
  {
    hide ParseSide;
  }

  lemma DeclarationsKeepFields(state: ObservedState, body: EventBody)
    requires RetryEvent(body) && !SwitchEvent(body) && ApplyMetadata(state, body).Ok?
    ensures FieldsStay(state, ApplyMetadata(state, body).value)
  {
    hide DeclarePlayer;
    match body
    case PlayerDeclared(side, userId, displayName) => PlayerKeepsFields(state, side, userId, displayName);
    case _ =>
  }

  lemma RetryEventsKeepFields(state: ObservedState, body: EventBody)
    requires RetryEvent(body) && Apply(state, body).Ok?
    ensures FieldsStay(state, Apply(state, body).value)
  {
    hide SwitchIn, ApplyMetadata, FieldsStay;
    match body
    case PokemonSwitched(ref, details, hp) => SwitchKeepsFields(state, ref, details, hp);
    case PokemonDragged(ref, details, hp) => SwitchKeepsFields(state, ref, details, hp);
    case _ => DeclarationsKeepFields(state, body);
  }

  lemma SwitchKeepsFields(state: ObservedState, ref: PokemonRef, details: string, hp: HpToken)
    requires SwitchIn(state, ref, details, hp).Ok?
    ensures FieldsStay(state, SwitchIn(state, ref, details, hp).value)
  {
    hide ActivatePokemon;
  }

  /** No accepted event takes a fact back that a request may wait for. */
  lemma {:induction false} FactsAreNeverLost(state: ObservedState, eventIndex: int, body: EventBody)
    requires StateOk(state) && Reduce(state, eventIndex, body).Ok?
    ensures FactsStay(state, Reduce(state, eventIndex, body).value)
  {
    hide StateOk, Apply, HasActive, RetryEvent;
    ReduceKeeps(state, eventIndex, body);
    GrownSides(state, Reduce(state, eventIndex, body).value);
    if RetryEvent(body) {
      RetryEventsKeepFields(state.(eventIndex := eventIndex), body);
    } else {
      FactsAppearOnRetryEvents(state, eventIndex, body);
    }
  }

  lemma GrownSides(before: ObservedState, after: ObservedState)
    requires StateGrows(before, after)
    ensures HasActive(before.p1.pokemon) ==> HasActive(after.p1.pokemon)
    ensures HasActive(before.p2.pokemon) ==> HasActive(after.p2.pokemon)
  {
    hide HasActive, MemberGrows;
  }

  lemma NextKeepsFacts(state: ObservedState, payload: Payload)
    requires StateOk(state)
    ensures FactsStay(state, NextState(state, payload))
  {
    hide StateOk, Reduce, HasActive;
    if BodyOf(payload).Some? && Reduce(state, state.eventIndex + 1, BodyOf(payload).value).Ok? {
      FactsAreNeverLost(state, state.eventIndex + 1, BodyOf(payload).value);
    }
  }

  // ----- one item -----

  /** The session holds the last fresh request back, or has answered it with all its facts known. */
  ghost predicate Tracks(s: Session, last: Option<DecisionRequest>) {
    && (s.pending.Some? ==> last == s.pending)
    && (s.pending.None? && last.Some? ==>
          !MissingFact(s.state, last.value) && s.submitted == Some(last.value.identity))
  }

  /** A call that returned either left the pending request alone, or answered it in a state in which it was accepted. */
  ghost predicate LeftOrAnswered(cfg: Config, s: Session, request: DecisionRequest, t: Session) {
    || (t.pending == Some(request) && t.submitted == s.submitted)
    || (&& t.pending.None? && t.submitted == Some(request.identity)
        && Reconcile(cfg.roomId, request, s.state, SubmittedRqid(s)).Accept?)
  }

  lemma FinalizeKeepsSubmitted(
    cfg: Config, s: Session, status: RecordStatus, code: Option<ErrorCode>, selected: Option<BattleSubmission>)
    ensures var t := Finalize(cfg, s, status, code, selected); t.submitted == s.submitted && t.pending == s.pending
  {}

  lemma SendAnswers(cfg: Config, s: Session, request: DecisionRequest, choice: BattleSubmission, text: string)
    ensures var f := SendChoice(cfg, s, request, choice, text);
            f.raised.None? ==> f.session.pending.None? && f.session.submitted == Some(request.identity)
  {
    hide Finalize, FirstError, Count;
    FinalizeKeepsSubmitted(cfg, Sent(cfg, s, request, choice, text), Submitted, None, Some(choice));
  }

  lemma ChoiceAnswers(cfg: Config, s: Session, request: DecisionRequest, candidate: BattleSubmission)
    ensures var f := SubmitChoice(cfg, s, request, candidate);
            f.raised.None? ==> f.session.pending.None? && f.session.submitted == Some(request.identity)
  {
    hide Finalize, FirstError, SendChoice;
    if cfg.team.encode(candidate).Ok? {
      SendAnswers(cfg, s, request, candidate, cfg.team.encode(candidate).value);
    }
  }

  lemma {:induction false} SubmitAnswers(cfg: Config, s: Session, request: DecisionRequest)
    ensures var f := Submit(cfg, s, request);
            f.raised.None? ==> f.session.pending.None? && f.session.submitted == Some(request.identity)
  {
    hide Finalize, FirstError, SubmitChoice;
    FinalizeKeepsSubmitted(cfg, s.(submitted := Some(request.identity), pending := None), WaitNoop, None, None);
    if cfg.team.policy(s.calls, request).Chosen? {
      ChoiceAnswers(cfg, s.(calls := s.calls + 1), request, cfg.team.policy(s.calls, request).submission);
    }
  }

  lemma {:induction false} RetryAnswers(cfg: Config, s: Session, strict: bool)
    requires s.pending.Some? && Retry(cfg, s, strict).raised.None?
    ensures LeftOrAnswered(cfg, s, s.pending.value, Retry(cfg, s, strict).session)
  {
    hide Submit, Reconcile, Finalize, FirstError;
    SubmitAnswers(cfg, RefreshTrace(cfg, s).session, s.pending.value);
  }

  lemma AnsweredTracks(cfg: Config, s: Session, request: DecisionRequest, t: Session)
    requires LeftOrAnswered(cfg, s, request, t) && t.state == s.state
    ensures Tracks(t, Some(request))
  {
    hide Reconcile, MissingFact;
    PendingMeansMissing(cfg.roomId, request, s.state, SubmittedRqid(s));
  }

  /** Nothing was decided in this pass. */
  lemma QuietTracks(s: Session, t: Session, last: Option<DecisionRequest>)
    requires Tracks(s, last) && t.pending == s.pending && t.submitted == s.submitted && FactsStay(s.state, t.state)
    ensures Tracks(t, last)
  {
    hide MissingFact, FactsStay;
    if last.Some? && s.pending.None? {
      KnownStaysKnown(s.state, t.state, last.value);
    }
  }

  lemma {:induction false} EventTracks(cfg: Config, s: Session, body: EventBody, last: Option<DecisionRequest>)
    requires Tracks(s, last) && Reduce(s.state, s.state.eventIndex + 1, body).Ok?
    requires FactsStay(s.state, Reduce(s.state, s.state.eventIndex + 1, body).value)
    ensures var advanced := s.(state := Reduce(s.state, s.state.eventIndex + 1, body).value);
            var f := AfterEvent(cfg, advanced, body);
            f.raised.None? && !f.session.done && f.session.state == advanced.state ==> Tracks(f.session, last)
  {
    hide Reduce, Retry, Finalize, RetryEvent, MissingFact, FactsStay, LeftOrAnswered;
    var advanced := s.(state := Reduce(s.state, s.state.eventIndex + 1, body).value);
    var f := AfterEvent(cfg, advanced, body);
    QuietTracks(s, advanced, last);
    if f.raised.None? && !f.session.done && f.session.state == advanced.state && s.pending.Some? {
      if body.TurnStarted? {
        RetryAnswers(cfg, advanced, true);
        AnsweredTracks(cfg, advanced, s.pending.value, f.session);
      } else if RetryEvent(body) {
        RetryAnswers(cfg, advanced, body.BattleStarted?);
        AnsweredTracks(cfg, advanced, s.pending.value, f.session);
      }
    }
  }

  lemma {:induction false} RequestTracks(cfg: Config, s: Session, request: DecisionRequest)
    requires CheckFreshness(s, request.identity).Fresh?
    ensures var f := ProcessRequest(cfg, s, request);
            f.raised.None? && !f.session.done && f.session.state == s.state ==> Tracks(f.session, Some(request))
  {
    hide Retry, Finalize, CheckFreshness, MissingFact, LeftOrAnswered;
    FinalizeKeepsState(cfg, s, SupersededBeforeSelection, None, None);
    var t := Finalize(cfg, s, SupersededBeforeSelection, None, None)
             .(latest := Some(request.identity), pending := Some(request));
    var traced, f := OpenTrace(cfg, t, request), ProcessRequest(cfg, s, request);
    if f.raised.None? && !f.session.done && f.session.state == s.state {
      RetryAnswers(cfg, traced.session, false);
      AnsweredTracks(cfg, traced.session, request, f.session);
    }
  }

  lemma {:induction false} LineTracks(cfg: Config, s: Session, payload: Payload, last: Option<DecisionRequest>)
    requires Tracks(s, last) && FactsStay(s.state, NextState(s.state, payload))
    requires !(payload.RequestLine? && payload.read.Ok? && CheckFreshness(s, payload.read.value.identity).Fresh?)
    ensures var f := ProcessLine(cfg, s, payload);
            f.raised.None? && !f.session.done && f.session.state == NextState(s.state, payload) ==>
              Tracks(f.session, last)
  {
    hide Reduce, AfterEvent, Tracks, FactsStay, CheckFreshness;
    var f := ProcessLine(cfg, s, payload);
    match payload
    case BattleLine(_, Ok(body)) =>
      if Reduce(s.state, s.state.eventIndex + 1, body).Ok? { EventTracks(cfg, s, body, last); }
    case TimerLine(Ok(body)) => if f.raised.None? { QuietTracks(s, f.session, last); }
    case RequestLine(Ok(request)) =>
    case ControlOrChat => QuietTracks(s, f.session, last);
    case _ =>
  }

  lemma RaisedEnds(cfg: Config, s: Session, item: StreamItem)
    requires !Step(cfg, s, item).done && item.Line? && item.line.roomId == Some(cfg.roomId)
    ensures ProcessLine(cfg, s, item.line.payload).raised.None?
    ensures Step(cfg, s, item) == ProcessLine(cfg, s, item.line.payload).session
  {
    hide ProcessLine, Abort;
    AbortEnds(cfg, ProcessLine(cfg, s, item.line.payload));
  }

  lemma OtherItemStays(cfg: Config, s: Session, item: StreamItem)
    requires !Step(cfg, s, item).done && !(item.Line? && item.line.roomId == Some(cfg.roomId))
    ensures Step(cfg, s, item) == s
  {
    hide Abort;
    if item.StreamFault? {
      AbortEnds(cfg, Raises(s, item.fault));
    }
  }

  lemma RequestLineState(cfg: Config, s: Session, request: DecisionRequest)
    ensures NextState(s.state, RequestLine(Ok(request))) == s.state
    ensures ProcessLine(cfg, s, RequestLine(Ok(request))) == ProcessRequest(cfg, s, request)
  {}

  lemma {:induction false} StepTracks(cfg: Config, s: Session, item: StreamItem, last: Option<DecisionRequest>)
    requires Inv(cfg, s) && Tracks(s, last) && !Step(cfg, s, item).done
    ensures var here := FreshRequest(cfg, s, item);
            Tracks(Step(cfg, s, item), if here.Some? then here else last)
  {
    hide Inv, Step, LineOk, StateOk, Tracks, FactsStay, NextState, ProcessLine, ProcessRequest, CheckFreshness;
    InvIsCurrent(cfg, s);
    var t, payload := Step(cfg, s, item), SeenBy(cfg, item);
    if item.Line? && item.line.roomId == Some(cfg.roomId) {
      StepEffects(cfg, s, item);
      LineOkState(cfg, s, payload, t);
      RaisedEnds(cfg, s, item);
      NextKeepsFacts(s.state, payload);
      if FreshRequest(cfg, s, item).Some? {
        RequestLineState(cfg, s, payload.read.value);
        RequestTracks(cfg, s, payload.read.value);
      } else {
        LineTracks(cfg, s, payload, last);
      }
    } else {
      OtherItemStays(cfg, s, item);
    }
  }

  // ----- which events reconsider a request -----

  /** A request that waits is reconsidered on a battle or turn start, where it must be answered, and on a declaration of
      a player, game type, generation or tier and an entry, where it may go on waiting; any other event but the end of
      the battle leaves the session as it is. */
  lemma {:induction false} EventsThatReconsider(cfg: Config, s: Session, body: EventBody)
    requires !body.BattleWon? && !body.BattleTied?
    ensures AfterEvent(cfg, s, body)
         == if s.pending.None? then Returns(s)
            else if body.BattleStarted? || body.TurnStarted? then Retry(cfg, s, true)
            else if || body.PlayerDeclared? || body.GameTypeDeclared? || body.GenerationDeclared? || body.TierDeclared?
                    || body.PokemonSwitched? || body.PokemonDragged?
            then Retry(cfg, s, false)
            else Returns(s)
  {
    hide Retry;
  }

  // ----- whole runs -----

  lemma {:induction false} RunTracks(
    cfg: Config, s: Session, items: seq<StreamItem>, last: Option<DecisionRequest>)
    requires Inv(cfg, s) && Admissible(items) && Tracks(s, last) && !Run(cfg, s, items).done
    ensures Tracks(Run(cfg, s, items), LastFresh(cfg, s, items, last))
    decreases |items|
  {
    hide Inv, Step, Tracks, FreshRequest;
    if items != [] {
      var t, here := Step(cfg, s, items[0]), FreshRequest(cfg, s, items[0]);
      assert Run(cfg, s, items) == Run(cfg, t, items[1..]);
      RunsCompose(cfg, t, [], items[1..]);
      StepTracks(cfg, s, items[0], last);
      StepKeeps(cfg, s, items[0]);
      assert forall i :: 0 <= i < |items[1..]| ==> items[1..][i] == items[i + 1];
      RunTracks(cfg, t, items[1..], if here.Some? then here else last);
    }
  }

  /** The last fresh request of the stream lacks a public fact after all the room's events. */
  predicate LacksFact(cfg: Config, state: ObservedState, items: seq<StreamItem>) {
    var last := LastFresh(cfg, InitialSession(state), items, None);
    last.Some? && MissingFact(Watch(cfg, state, items), last.value)
  }

  /** A session that outlasts its stream still waits exactly if the last fresh request lacks a public fact then; it
      waits for that request alone, and otherwise has answered it. */
  lemma {:induction false} WaitsIffFactMissing(cfg: Config, state: ObservedState, items: seq<StreamItem>)
    requires StateOk(state) && Admissible(items) && !After(cfg, state, items).done
    ensures var s, last := After(cfg, state, items), LastFresh(cfg, InitialSession(state), items, None);
            && (s.pending.Some? <==> LacksFact(cfg, state, items))
            && (s.pending.Some? ==> s.pending == last)
            && (s.pending.None? && last.Some? ==> s.submitted == Some(last.value.identity))
  {
    hide Inv, StateOk, Run, LastFresh, Watch, MissingFact;
    InitialInv(cfg, state);
    RunTracks(cfg, InitialSession(state), items, None);
    Reached(cfg, state, items);
    var s := After(cfg, state, items);
    WaitingFacts(cfg, s);
    var n := StateIsWatched(cfg, InitialSession(state), items);
    assert items[..|items|] == items;
  }
}
