/** What a published result says of the stream its session read: the winner the battle ended with, and the counts. */
module RunOutcomes {
  import opened Basics
  import opened ObservedStates
  import opened Reducer
  import opened ReducerInvariants
  import opened Submissions
  import opened DecisionRecords
  import opened SessionModel
  import opened SessionInvariants
  import opened SessionEffects
  import opened SessionTheorems
  import opened BattleSessions
  import opened MeasurementResults
  import opened MeasurementRunners

  // ----- how a battle ends -----

  /** Our user stays who it is, and only a tie ties. */
  lemma {:induction false} NextKeepsEnd(state: ObservedState, payload: Payload)
    ensures var next := NextState(state, payload);
            && next.ourUserId == state.ourUserId
            && (BodyOf(payload) != Some(BattleTied) ==> next.tied == state.tied)
  {
    hide Reduce;
    var body := BodyOf(payload);
    if body.Some? && Reduce(state, state.eventIndex + 1, body.value).Ok? {
      TotalsStep(state, state.eventIndex + 1, body.value);
    }
  }

  lemma TieEnds(cfg: Config, s: Session, item: StreamItem)
    requires BodyOf(SeenBy(cfg, item)) == Some(BattleTied)
    ensures Step(cfg, s, item).done
  {
    hide Finalize, Retry, Reduce, Abort;
    assert item.line.payload.BattleLine?;
    AbortEnds(cfg, ProcessEvent(cfg, s, Ok(BattleTied)));
  }

  lemma {:induction false} StepKeepsEnd(cfg: Config, s: Session, item: StreamItem)
    requires Inv(cfg, s)
    ensures var t := Step(cfg, s, item);
            t.state.ourUserId == s.state.ourUserId && (!t.done ==> t.state.tied == s.state.tied)
  {
    hide Inv, Step, StateOk, LineOk, NextState, BodyOf, SeenBy;
    InvIsCurrent(cfg, s);
    StepEffects(cfg, s, item);
    LineOkState(cfg, s, SeenBy(cfg, item), Step(cfg, s, item));
    NextKeepsEnd(s.state, SeenBy(cfg, item));
    if BodyOf(SeenBy(cfg, item)) == Some(BattleTied) { TieEnds(cfg, s, item); }
  }

  lemma {:induction false} RunKeepsEnd(cfg: Config, s: Session, items: seq<StreamItem>)
    requires Inv(cfg, s) && Admissible(items)
    ensures var t := Run(cfg, s, items);
            t.state.ourUserId == s.state.ourUserId && (!t.done ==> t.state.tied == s.state.tied)
    decreases |items|
  {
    hide Inv, Step;
    if items != [] && !s.done {
      var t := Step(cfg, s, items[0]);
      StepKeepsEnd(cfg, s, items[0]);
      StepKeeps(cfg, s, items[0]);
      assert forall i :: 0 <= i < |items[1..]| ==> items[1..][i] == items[i + 1];
      RunKeepsEnd(cfg, t, items[1..]);
      RunsCompose(cfg, t, [], items[1..]);
    }
  }

  function WinLine(cfg: Config, wire: WireKind, name: string): StreamItem {
    Line(RoomLine(Some(cfg.roomId), BattleLine(wire, Ok(BattleWon(name)))))
  }

  lemma WinStep(cfg: Config, s: Session, wire: WireKind, name: string)
    requires Inv(cfg, s)
    ensures var t := Step(cfg, s, WinLine(cfg, wire, name));
            t.done && t.state == s.state.(eventIndex := s.state.eventIndex + 1, winner := Some(name))
  {
    hide StateOk, Mid, Retry, Finalize, Abort;
    var state := s.state.(eventIndex := s.state.eventIndex + 1, winner := Some(name));
    assert Reduce(s.state, s.state.eventIndex + 1, BattleWon(name)) == Ok(state);
    FinalizeKeepsState(cfg, s.(state := state), TerminallyDiscarded, None, None);
  }

  /** A battle that ends with a winner: a running session stops there, shows that winner, and has seen no tie. */
  lemma {:induction false} BattleEndsWon(
    cfg: Config, ours: string, items: seq<StreamItem>, wire: WireKind, name: string)
    requires Admissible(items) && !After(cfg, InitialState(ours), items).done
    ensures var s := After(cfg, InitialState(ours), items + [WinLine(cfg, wire, name)]);
            s.done && s.state.winner == Some(name) && !s.state.tied && s.state.ourUserId == ours
  {
    hide Inv, StateOk, Run, Step;
    InitialStateOk(ours);
    InitialInv(cfg, InitialState(ours));
    Reached(cfg, InitialState(ours), items);
    RunKeepsEnd(cfg, InitialSession(InitialState(ours)), items);
    var t := After(cfg, InitialState(ours), items);
    RunsCompose(cfg, InitialSession(InitialState(ours)), items, [WinLine(cfg, wire, name)]);
    OneStep(cfg, t, WinLine(cfg, wire, name));
    WinStep(cfg, t, wire, name);
  }

  /** A run whose battle our user wins publishes our win, however the name is spelled; one that another declared player
      wins publishes the opponent's; and one whose winner is nobody known publishes neither. */
  lemma {:induction false} WonRunsPublishTheWinner(
    cfg: Config, context: RunContext, ours: string, items: seq<StreamItem>, wire: WireKind, name: string,
    lifecycleFailed: bool)
    requires Admissible(items) && !After(cfg, InitialState(ours), items).done
    ensures var s := After(cfg, InitialState(ours), items + [WinLine(cfg, wire, name)]);
            var outcome := BuildResult(context, s.records, Snapshot(s), lifecycleFailed).battleOutcome;
            && (ToId(name) == ToId(ours) ==> outcome.OurWin?)
            && (ToId(name) != ToId(ours) ==>
                  var asP1, asP2 := Declared(s.state.p1, ToId(name)), Declared(s.state.p2, ToId(name));
                  && (s.state.ourSide == Some(P1) && asP2 && !asP1 ==> outcome.OpponentWin?)
                  && (s.state.ourSide == Some(P2) && asP1 ==> outcome.OpponentWin?)
                  && (!asP1 && !asP2 ==> outcome == if s.primary.Some? then Void else Unfinished))
  {
    BattleEndsWon(cfg, ours, items, wire, name);
    var s := After(cfg, InitialState(ours), items + [WinLine(cfg, wire, name)]);
    BuiltReports(context, s.records, Snapshot(s), lifecycleFailed);
    hide BuildResult, Run, ToId, OnlySinkFailed, Declared;
  }

  /** A published result counts the control lines the session read and the commands it delivered, and its state is the
      reducer's after the room's events up to where the session stopped. */
  lemma {:induction false} ResultsTellTheStream(
    cfg: Config, context: RunContext, state: ObservedState, items: seq<StreamItem>, lifecycleFailed: bool)
    returns (n: nat)
    requires StateOk(state) && Admissible(items)
    ensures var s := After(cfg, state, items);
            var r := BuildResult(context, s.records, Snapshot(s), lifecycleFailed);
            && n <= |items| && (n < |items| ==> s.done) && s == After(cfg, state, items[..n])
            && r.controlCount == ControlLines(cfg, items[..n])
            && r.explicitCount == CountDecisions(DeliveredDecisions(s.sent), ExplicitRequest)
            && r.defaultCount == CountDecisions(DeliveredDecisions(s.sent), ServerDefault)
            && r.finalStateDigest == StateDigest(Watch(cfg, state, items[..n]))
            && r.ignoredDisplayCount == Watch(cfg, state, items[..n]).ignoredDisplayCount
  {
    hide Inv, StateOk, Run, Watch, ControlLines;
    InitialInv(cfg, state);
    n := StateIsWatched(cfg, InitialSession(state), items);
    var s := After(cfg, state, items);
    Reached(cfg, state, items);
    InvIsMid(cfg, s);
    MidIsCounted(cfg, s);
    BuiltReports(context, s.records, Snapshot(s), lifecycleFailed);
    hide BuildResult, ShowsWinner, OnlySinkFailed, CountDecisions, DeliveredDecisions;
  }

  lemma MidIsCounted(cfg: Config, s: Session)
    requires Mid(cfg, s)
    ensures Counted(s)
  {}
}
