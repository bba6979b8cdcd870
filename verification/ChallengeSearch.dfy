/** Candidate rooms and the discovery loop's variables, updated line by line. */
module ChallengeSearches {
  import opened Basics
  import opened ObservedStates
  import opened DecisionRecords
  import opened SessionModel
  import opened Discovery

  class RoomCandidate {
    const roomId: string
    var lines: seq<Payload>
    var battleInitialized: bool
    var players: map<string, string>
    var gameType: Option<string>
    var generation: Option<int>
    var tier: Option<string>
    var metadataError: Option<Fault>

    ghost function View(): Candidate
      reads this
    {
      Candidate(roomId, lines, battleInitialized, players, gameType, generation, tier, metadataError)
    }

    constructor (roomId: string)
      ensures View() == NewCandidate(roomId) && this.roomId == roomId
    {
      this.roomId := roomId;
      lines, battleInitialized, players := [], false, map[];
      gameType, generation, tier, metadataError := None, None, None, None;
    }

    method KeepFirstError(fault: Fault)
      modifies `metadataError
      ensures View() == Flag(old(View()), fault)
    {
      if metadataError.None? {
        metadataError := Some(fault);
      }
    }

    method NotePlayer(side: string, displayName: string)
      modifies this
      ensures View() == ReadPlayer(old(View()), side, displayName)
    {
      hide ToId;
      var id := ToId(displayName);
      if (side != "p1" && side != "p2") || id == "" {
        KeepFirstError(MALFORMED_FAULT);
      } else if side !in players {
        players := players[side := id];
      } else if players[side] != id {
        KeepFirstError(MALFORMED_FAULT);
      }
    }

    method NoteDeclaration(body: EventBody)
      modifies this
      ensures View() == ReadDeclaration(old(View()), body)
    {
      match body
      case PlayerDeclared(side, _, displayName) => NotePlayer(side, displayName);
      case GameTypeDeclared(declared) =>
        if gameType.None? {
          gameType := Some(declared);
        } else if gameType.value != declared {
          KeepFirstError(MALFORMED_FAULT);
        }
      case GenerationDeclared(declared) =>
        if generation.None? {
          generation := Some(declared);
        } else if generation.value != declared {
          KeepFirstError(MALFORMED_FAULT);
        }
      case TierDeclared(declared) =>
        if tier.None? {
          tier := Some(declared);
        } else if tier.value != declared {
          KeepFirstError(MALFORMED_FAULT);
        }
      case _ =>
    }

    /** `_read_candidate_metadata`. */
    method NoteMetadata(payload: Payload) returns (raised: Option<Fault>)
      modifies this
      ensures match ReadMetadata(old(View()), payload)
              case Err(fault) => raised == Some(fault)
              case Ok(next) => raised.None? && View() == next
    {
      hide ReadDeclaration;
      if !payload.BattleLine? {
        return None;
      }
      if payload.wire.InitBattle? {
        if payload.parsed.Err? {
          return Some(payload.parsed.error);
        }
        battleInitialized := true;
        return None;
      }
      if !battleInitialized {
        if payload.wire.Metadata? {
          KeepFirstError(MALFORMED_FAULT);
        }
        return None;
      }
      if !payload.wire.Metadata? {
        return None;
      }
      if payload.parsed.Err? {
        if payload.parsed.error != MALFORMED_FAULT {
          return Some(payload.parsed.error);
        }
        KeepFirstError(payload.parsed.error);
        return None;
      }
      NoteDeclaration(payload.parsed.value);
      return None;
    }

    /** Append a line, read its metadata and check the candidate; also what `_validate_handoff_line` does. */
    method AddLine(payload: Payload, pair: Players) returns (raised: Option<Fault>)
      modifies this
      ensures match Receive(old(View()), pair, payload)
              case Err(fault) => raised == Some(fault)
              case Ok(next) => raised.None? && View() == next
    {
      hide ReadMetadata;
      lines := lines + [payload];
      raised := NoteMetadata(payload);
      if raised.Some? {
        return;
      }
      raised := FindFailure(pair);
    }

    method FindFailure(pair: Players) returns (failure: Option<Fault>)
      ensures failure == CandidateFailure(View(), pair)
    {
      if !(players.Keys == {"p1", "p2"} && players.Values == {pair.ours, pair.theirs}) {
        return None;
      }
      if metadataError.Some? {
        return metadataError;
      }
      if gameType.Some? && gameType.value != GAME_TYPE {
        return Some(UNKNOWN_EVENT_FAULT);
      }
      if generation.Some? && generation.value != GENERATION {
        return Some(UNKNOWN_EVENT_FAULT);
      }
      if tier.Some? && tier.value != TIER {
        return Some(UNKNOWN_EVENT_FAULT);
      }
      return None;
    }

    method IsMatching(pair: Players) returns (matching: bool)
      ensures matching == Matches(View(), pair)
    {
      matching := battleInitialized && players.Keys == {"p1", "p2"} && players.Values == {pair.ours, pair.theirs}
                  && gameType == Some(GAME_TYPE) && generation == Some(GENERATION) && tier == Some(TIER);
    }
  }

  /** The variables of the discovery loop. */
  class ChallengeSearch {
    const pair: Players
    const sends: Sends
    var candidates: map<string, RoomCandidate>
    var excluded: set<string>
    var bootstrapped: bool
    var snapshot: Option<SearchSnapshot>
    var everPending: bool
    var latestStatus: Option<ChallengeStatus>
    var commands: seq<GlobalCommand>

    ghost predicate Valid()
      reads this, candidates.Values
    {
      forall r :: r in candidates ==> candidates[r].roomId == r
    }

    ghost function View(): Search
      reads this, candidates.Values
    {
      Search(map r | r in candidates :: candidates[r].View(), excluded, bootstrapped, snapshot, everPending,
             latestStatus, commands)
    }

    /** The search stands where `p` left it, or ended with its error. */
    ghost predicate Reports(p: Progress, error: Option<SetupError>)
      reads this, candidates.Values
    {
      match p
      case Looking(d) => error.None? && View() == d
      case SetupEnds(reason, last) => error == Some(reason) && commands == last.commands
      case Found(_, _) => false
    }

    constructor (pair: Players, sends: Sends)
      ensures this.pair == pair && this.sends == sends && Valid() && candidates == map[]
      ensures View() == InitialSearch()
    {
      this.pair, this.sends := pair, sends;
      candidates, excluded, bootstrapped := map[], {}, false;
      snapshot, everPending, latestStatus := None, false, None;
      commands := [AskUserDetails];
      new;
      assert View().candidates == map[];
    }

    method TakeSnapshot(read: Result<SearchSnapshot, Fault>) returns (error: Option<SetupError>)
      modifies this
      ensures candidates == old(candidates) && Reports(ReadSnapshot(old(View()), read), error)
    {
      if read.Err? {
        return Some(SetupRaised(read.error));
      }
      if !bootstrapped {
        excluded := excluded + read.value.rooms;
        snapshot := Some(read.value);
      } else if read.value.searching {
        return Some(SetupRaised(UNKNOWN_EVENT_FAULT));
      }
      return None;
    }

    method TakeBarrier(rooms: Result<set<string>, Fault>) returns (error: Option<SetupError>)
      modifies this
      ensures candidates == old(candidates) && Reports(ReadBarrier(old(View()), sends, rooms), error)
    {
      if rooms.Err? {
        return Some(SetupRaised(rooms.error));
      }
      excluded := excluded + rooms.value;
      if snapshot.None? {
        return Some(SetupRaised(MALFORMED_FAULT));
      }
      if snapshot.value.searching {
        return Some(SetupRaised(UNKNOWN_EVENT_FAULT));
      }
      bootstrapped := true;
      commands := commands + [UseTeam];
      if sends.team.Some? {
        return Some(SetupRaised(sends.team.value));
      }
      commands := commands + [SendChallenge];
      if sends.challenge.Some? {
        return Some(SetupRaised(sends.challenge.value));
      }
      return None;
    }

    method TakeOther(observation: Result<Option<ChallengeStatus>, Fault>, refusal: Option<Fault>)
      returns (error: Option<SetupError>)
      modifies this
      ensures candidates == old(candidates) && Reports(ReadOtherGlobal(old(View()), observation, refusal), error)
    {
      if observation.Err? {
        return Some(SetupRaised(observation.error));
      }
      if observation.value.Some? {
        if bootstrapped {
          latestStatus := observation.value;
          everPending := everPending || observation.value.value.ChallengePending?;
        }
        return None;
      }
      if refusal.Some? {
        return Some(SetupRaised(refusal.value));
      }
      return None;
    }

    /** A line outside every room, a fault of the stream, or the timeout. */
    method Take(item: WireItem) returns (error: Option<SetupError>)
      requires !item.Room?
      modifies this
      ensures candidates == old(candidates) && Reports(Look(old(View()), pair, sends, item), error)
    {
      hide ReadSnapshot, ReadBarrier, ReadOtherGlobal;
      match item
      case WireFault(fault) => return Some(SetupRaised(fault));
      case Expired => return Some(SetupTimeout(everPending && latestStatus == Some(ChallengeNotPending)));
      case Global(kind, observation, refusal) =>
        if kind.UpdateSearch? {
          error := TakeSnapshot(kind.snapshot);
        } else if kind.UserDetails? && !bootstrapped {
          error := TakeBarrier(kind.rooms);
        } else {
          error := TakeOther(observation, refusal);
        }
    }

    /** `candidates.setdefault(room_id, ...)` for a room that has no candidate yet. */
    method AddCandidate(roomId: string)
      requires Valid() && roomId !in candidates
      modifies `candidates
      ensures Valid() && roomId in candidates && fresh(candidates[roomId])
      ensures candidates == old(candidates)[roomId := candidates[roomId]]
      ensures candidates[roomId].View() == NewCandidate(roomId)
      ensures View() == old(View()).(candidates := old(View()).candidates[roomId := NewCandidate(roomId)])
    {
      ghost var known := View().candidates;
      var added := new RoomCandidate(roomId);
      candidates := candidates[roomId := added];
      assert View().candidates == known[roomId := NewCandidate(roomId)];
    }

    /** A line for one of the candidates. */
    method FeedCandidate(roomId: string, payload: Payload) returns (matching: bool, error: Option<SetupError>)
      requires Valid() && roomId in candidates
      modifies candidates[roomId]
      ensures Valid()
      ensures match Receive(old(candidates[roomId].View()), pair, payload)
              case Err(fault) => error == Some(SetupRaised(fault)) && !matching
              case Ok(next) =>
                && error.None? && matching == Matches(next, pair) && candidates[roomId].View() == next
                && View() == old(View()).(candidates := old(View()).candidates[roomId := next])
    {
      hide Receive, Matches;
      ghost var known := View().candidates;
      var current := candidates[roomId];
      assert forall r :: r in candidates && r != roomId ==> candidates[r] != current;
      var raised := current.AddLine(payload, pair);
      if raised.Some? {
        return false, Some(SetupRaised(raised.value));
      }
      assert View().candidates == known[roomId := current.View()];
      matching := current.IsMatching(pair);
      error := None;
    }

    /** A line of a room that is neither excluded nor older than the barrier. */
    method FeedRoom(roomId: string, payload: Payload) returns (found: RoomCandidate?, error: Option<SetupError>)
      requires Valid()
      modifies `candidates, candidates.Values
      ensures Valid()
      ensures forall r :: r in candidates ==>
                (r in old(candidates) && candidates[r] == old(candidates)[r]) || fresh(candidates[r])
      ensures found != null ==> found in candidates.Values
      ensures var d := old(View());
              var candidate := if roomId in d.candidates then d.candidates[roomId] else NewCandidate(roomId);
              match Receive(candidate, pair, payload)
              case Err(fault) => found == null && error == Some(SetupRaised(fault))
              case Ok(next) =>
                && error.None? && (found != null <==> Matches(next, pair)) && (found != null ==> found.View() == next)
                && View() == d.(candidates := d.candidates[roomId := next])
    {
      hide Receive, Matches, NewCandidate;
      ghost var d := View();
      if roomId !in candidates {
        AddCandidate(roomId);
      }
      ghost var known := View().candidates;
      SamePut(d.candidates, known, roomId);
      assert View() == d.(candidates := known);
      var current := candidates[roomId];
      var matching;
      matching, error := FeedCandidate(roomId, payload);
      found := if matching then current else null;
    }

    method TakeRoomLine(roomId: string, payload: Payload) returns (found: RoomCandidate?, error: Option<SetupError>)
      requires Valid()
      modifies this, candidates.Values
      ensures Valid()
      ensures forall r :: r in candidates ==>
                (r in old(candidates) && candidates[r] == old(candidates)[r]) || fresh(candidates[r])
      ensures found != null ==> found in candidates.Values
      ensures match ReadRoomLine(old(View()), pair, roomId, payload)
              case Found(c, last) => found != null && found.View() == c && error.None? && commands == last.commands
              case p => found == null && Reports(p, error)
    {
      hide Receive, Matches, NewCandidate;
      found, error := null, None;
      if !bootstrapped {
        excluded := excluded + {roomId};
        return;
      }
      if roomId in excluded {
        return;
      }
      found, error := FeedRoom(roomId, payload);
    }
  }

  /** Maps that differ at one key only become equal once that key is set. */
  lemma SamePut(m: map<string, Candidate>, n: map<string, Candidate>, key: string)
    requires forall r: string :: r != key ==> (r in m <==> r in n) && (r in m ==> m[r] == n[r])
    ensures forall c: Candidate {:trigger n[key := c]} :: m[key := c] == n[key := c]
  {}
}
