/** The challenge coordinator: the discovery loop, the session connection and the run. */
module Coordinators {
  import opened Basics
  import opened ObservedStates
  import opened DecisionRecords
  import opened SessionModel
  import opened BattleSessions
  import opened Discovery
  import opened ChallengeSearches
  import opened DiscoveryTheorems
  import opened SessionTheorems

  const DISCONNECT_FAULT := Coded("Disconnect", Disconnect)

  datatype CoordinatorOutcome =
    | Returned(result: BattleSessionResult)
    | SetupFailed(error: SetupError)
    | CloseRaised(fault: Fault)

  /** `_SessionConnection`: the candidate's buffered lines, then its room's part of the shared source, validated. */
  class SessionConnection {
    const candidate: RoomCandidate
    const pair: Players

    constructor (candidate: RoomCandidate, pair: Players)
      ensures this.candidate == candidate && this.pair == pair
    {
      this.candidate, this.pair := candidate, pair;
    }

    method Lines(rest: seq<WireItem>) returns (stream: seq<StreamItem>)
      modifies candidate
      ensures stream == SessionStream(old(candidate.View()), pair, rest)
    {
      hide Receive;
      stream := AsLines(candidate.roomId, candidate.lines);
      var k := 0;
      while k < |rest|
        invariant 0 <= k <= |rest|
        invariant stream + HandOff(candidate.View(), pair, rest[k..])
               == SessionStream(old(candidate.View()), pair, rest)
      {
        assert rest[k..][0] == rest[k] && rest[k..][1..] == rest[k + 1..];
        match rest[k] {
          case WireFault(fault) =>
            return stream + [StreamFault(fault)];
          case Room(roomId, payload) =>
            if roomId == candidate.roomId {
              ghost var before := candidate.View();
              var raised := candidate.AddLine(payload, pair);
              if raised.Some? {
                return stream + [StreamFault(raised.value)];
              }
              stream := stream + [Line(RoomLine(Some(roomId), payload))];
            }
          case _ =>
        }
        k := k + 1;
      }
      assert stream + [] == stream;
    }
  }

  class BattleCoordinator {
    const pair: Players
    const sends: Sends
    var commands: seq<GlobalCommand>

    constructor (pair: Players, sends: Sends)
      ensures this.pair == pair && this.sends == sends && commands == []
    {
      this.pair, this.sends := pair, sends;
      commands := [];
    }

    /** `_discover`: the candidate room, or why setup ended. */
    method Discover(wire: seq<WireItem>)
      returns (candidate: RoomCandidate?, error: Option<SetupError>, consumed: nat)
      modifies this
      ensures candidate != null ==> fresh(candidate)
      ensures sends.userDetails.Some? ==>
                candidate == null && error == Some(SetupRaised(sends.userDetails.value)) && commands == [AskUserDetails]
      ensures sends.userDetails.None? ==>
                match LookOn(InitialSearch(), pair, sends, wire)
                case Found(found, last) =>
                  && candidate != null && candidate.View() == found && error.None? && commands == last.commands
                  && consumed == Consumed(InitialSearch(), pair, sends, wire)
                case SetupEnds(reason, last) => candidate == null && error == Some(reason) && commands == last.commands
                case Looking(last) =>
                  candidate == null && error == Some(TimedOut(last).error) && commands == last.commands
    {
      hide ReadRoomLine, Look;
      candidate, error, consumed := null, None, 0;
      commands := [AskUserDetails];
      if sends.userDetails.Some? {
        error := Some(SetupRaised(sends.userDetails.value));
        return;
      }
      var search := new ChallengeSearch(pair, sends);
      var k := 0;
      while k < |wire|
        invariant 0 <= k <= |wire| && candidate == null && error.None?
        invariant fresh(search) && search.pair == pair && search.sends == sends && search.Valid()
        invariant forall r :: r in search.candidates ==> fresh(search.candidates[r])
        invariant LookOn(search.View(), pair, sends, wire[k..]) == LookOn(InitialSearch(), pair, sends, wire)
        invariant k + Consumed(search.View(), pair, sends, wire[k..]) == Consumed(InitialSearch(), pair, sends, wire)
      {
        assert wire[k..][0] == wire[k] && wire[k..][1..] == wire[k + 1..];
        if wire[k].Room? {
          RoomIsRead(search.View(), pair, sends, wire[k]);
          candidate, error := search.TakeRoomLine(wire[k].roomId, wire[k].payload);
        } else {
          GlobalLook(search.View(), pair, sends, wire[k]);
          error := search.Take(wire[k]);
        }
        k := k + 1;
        if candidate != null || error.Some? {
          commands, consumed := search.commands, k;
          return;
        }
      }
      commands := search.commands;
      error := Some(SetupTimeout(search.everPending && search.latestStatus == Some(ChallengeNotPending)));
    }

    /** `run`: discover the room, hand its stream to a session, and close the connection in every case. */
    method Run(wire: seq<WireItem>, team: Collaborators, closing: Option<Fault>) returns (outcome: CoordinatorOutcome)
      modifies this
      ensures sends.userDetails.None? && LookOn(InitialSearch(), pair, sends, wire).Found? ==>
                var found, n := LookOn(InitialSearch(), pair, sends, wire).candidate,
                                Consumed(InitialSearch(), pair, sends, wire);
                var cfg := Config(found.roomId, None, team);
                var s := After(cfg, InitialState(pair.ours), SessionStream(found, pair, wire[n..]));
                outcome == if s.primary.None? && s.state.winner.None? && !s.state.tied
                           then Returned(Snapshot(s).(primaryError := Some(DISCONNECT_FAULT)))
                           else if s.primary.None? && closing.Some? then CloseRaised(closing.value)
                           else Returned(Snapshot(s))
      ensures sends.userDetails.Some? ==> outcome == SetupFailed(SetupRaised(sends.userDetails.value))
      ensures sends.userDetails.None? ==>
                match LookOn(InitialSearch(), pair, sends, wire)
                case Found(_, _) => !outcome.SetupFailed?
                case SetupEnds(reason, _) => outcome == SetupFailed(reason)
                case Looking(last) => outcome == SetupFailed(TimedOut(last).error)
      ensures outcome.Returned? && outcome.result.primaryError.None? ==>
                outcome.result.state.winner.Some? || outcome.result.state.tied
    {
      hide LookOn, Consumed, SessionStream, SessionModel.Run;
      var candidate, error, consumed := Discover(wire);
      if candidate == null {
        return SetupFailed(error.value);
      }
      var cfg := Config(candidate.roomId, None, team);
      var connection := new SessionConnection(candidate, pair);
      ghost var found := candidate.View();
      var stream := connection.Lines(wire[consumed..]);
      var world := new Surroundings(team);
      var sink := new RecordingTraceSink(world);
      var session := new BattleSession(cfg, world, sink, InitialState(pair.ours));
      assert session.View() == InitialSession(InitialState(pair.ours));
      var result := session.RunAll(stream);
      if result.primaryError.None? && result.state.winner.None? && !result.state.tied {
        result := result.(primaryError := Some(DISCONNECT_FAULT));
      }
      if closing.Some? && result.primaryError.None? {
        return CloseRaised(closing.value);
      }
      return Returned(result);
    }
  }
}
