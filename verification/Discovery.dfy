/** Finding the challenged battle on a stream that multiplexes rooms, as a fold over the wire. */
module Discovery {
  import opened Basics
  import opened ObservedStates
  import opened DecisionRecords
  import opened SessionModel

  const GAME_TYPE: string := "singles"
  const GENERATION: int := 9
  const TIER: string := "[Gen 9] OU"

  datatype SearchSnapshot = SearchSnapshot(searching: bool, rooms: set<string>)

  datatype ChallengeStatus = ChallengePending | ChallengeNotPending

  datatype GlobalKind =
    | UpdateSearch(snapshot: Result<SearchSnapshot, Fault>)
    | UserDetails(rooms: Result<set<string>, Fault>)
    | OtherGlobal

  /** What the connection yields while a challenge is set up. A global line carries what the challenge reader makes of
      it and whether the setup reader refuses it; `Expired` is the setup timeout firing. */
  datatype WireItem =
    | Global(kind: GlobalKind, observation: Result<Option<ChallengeStatus>, Fault>, refusal: Option<Fault>)
    | Room(roomId: string, payload: Payload)
    | WireFault(fault: Fault)
    | Expired

  datatype SetupError = SetupTimeout(notPending: bool) | SetupRaised(fault: Fault)

  // ----- candidates -----

  datatype Candidate = Candidate(
    roomId: string,
    lines: seq<Payload>,
    initialized: bool,
    players: map<string, string>,
    gameType: Option<string>,
    generation: Option<int>,
    tier: Option<string>,
    metadataError: Option<Fault>)

  function NewCandidate(roomId: string): Candidate {
    Candidate(roomId, [], false, map[], None, None, None, None)
  }

  datatype Players = Players(ours: string, theirs: string)

  function Flag(c: Candidate, fault: Fault): Candidate {
    if c.metadataError.None? then c.(metadataError := Some(fault)) else c
  }

  function ReadPlayer(c: Candidate, side: string, displayName: string): Candidate {
    var id := ToId(displayName);
    if side !in {"p1", "p2"} || id == "" then Flag(c, MALFORMED_FAULT)
    else if side !in c.players then c.(players := c.players[side := id])
    else if c.players[side] != id then Flag(c, MALFORMED_FAULT)
    else c
  }

  function ReadDeclaration(c: Candidate, body: EventBody): Candidate {
    match body
    case PlayerDeclared(side, _, displayName) => ReadPlayer(c, side, displayName)
    case GameTypeDeclared(gameType) =>
      if c.gameType.None? then c.(gameType := Some(gameType))
      else if c.gameType.value != gameType then Flag(c, MALFORMED_FAULT)
      else c
    case GenerationDeclared(generation) =>
      if c.generation.None? then c.(generation := Some(generation))
      else if c.generation.value != generation then Flag(c, MALFORMED_FAULT)
      else c
    case TierDeclared(tier) =>
      if c.tier.None? then c.(tier := Some(tier))
      else if c.tier.value != tier then Flag(c, MALFORMED_FAULT)
      else c
    case _ => c
  }

  /** `_read_candidate_metadata`, after the line was appended. */
  function ReadMetadata(c: Candidate, payload: Payload): Result<Candidate, Fault> {
    if !payload.BattleLine? then Ok(c) else
    match payload.wire
    case InitBattle => if payload.parsed.Err? then Err(payload.parsed.error) else Ok(c.(initialized := true))
    case Metadata =>
      if !c.initialized then Ok(Flag(c, MALFORMED_FAULT))
      else (match payload.parsed
            case Err(fault) => if fault == MALFORMED_FAULT then Ok(Flag(c, fault)) else Err(fault)
            case Ok(body) => Ok(ReadDeclaration(c, body)))
    case OtherWire => Ok(c)
  }

  predicate ExactPlayers(c: Candidate, players: Players) {
    c.players.Keys == {"p1", "p2"} && c.players.Values == {players.ours, players.theirs}
  }

  /** `_raise_for_exact_candidate_failure`. */
  function CandidateFailure(c: Candidate, players: Players): Option<Fault> {
    if !ExactPlayers(c, players) then None
    else if c.metadataError.Some? then c.metadataError
    else if c.gameType.Some? && c.gameType.value != GAME_TYPE then Some(UNKNOWN_EVENT_FAULT)
    else if c.generation.Some? && c.generation.value != GENERATION then Some(UNKNOWN_EVENT_FAULT)
    else if c.tier.Some? && c.tier.value != TIER then Some(UNKNOWN_EVENT_FAULT)
    else None
  }

  predicate Matches(c: Candidate, players: Players) {
    && c.initialized && ExactPlayers(c, players)
    && c.gameType == Some(GAME_TYPE) && c.generation == Some(GENERATION) && c.tier == Some(TIER)
  }

  /** A candidate that received one more line, or the fault the line ends everything with. */
  function Receive(c: Candidate, players: Players, payload: Payload): Result<Candidate, Fault> {
    match ReadMetadata(c.(lines := c.lines + [payload]), payload)
    case Err(fault) => Err(fault)
    case Ok(next) =>
      var failure := CandidateFailure(next, players);
      if failure.Some? then Err(failure.value) else Ok(next)
  }

  // ----- discovery -----

  datatype GlobalCommand = AskUserDetails | UseTeam | SendChallenge

  datatype Sends = Sends(userDetails: Option<Fault>, team: Option<Fault>, challenge: Option<Fault>)

  datatype Search = Search(
    candidates: map<string, Candidate>,
    excluded: set<string>,
    bootstrapped: bool,
    snapshot: Option<SearchSnapshot>,
    everPending: bool,
    latestStatus: Option<ChallengeStatus>,
    commands: seq<GlobalCommand>)

  function InitialSearch(): Search {
    Search(map[], {}, false, None, false, None, [AskUserDetails])
  }

  datatype Progress =
    | Looking(search: Search)
    | Found(candidate: Candidate, last: Search)
    | SetupEnds(error: SetupError, last: Search)

  function Refuse(d: Search, fault: Fault): Progress {
    SetupEnds(SetupRaised(fault), d)
  }

  function ReadSnapshot(d: Search, snapshot: Result<SearchSnapshot, Fault>): Progress {
    match snapshot
    case Err(fault) => Refuse(d, fault)
    case Ok(found) =>
      if !d.bootstrapped then Looking(d.(excluded := d.excluded + found.rooms, snapshot := Some(found)))
      else if found.searching then Refuse(d, UNKNOWN_EVENT_FAULT)
      else Looking(d)
  }

  /** The answer to our own command: everything on the wire before it predates the challenge. */
  function ReadBarrier(d: Search, sends: Sends, rooms: Result<set<string>, Fault>): Progress {
    match rooms
    case Err(fault) => Refuse(d, fault)
    case Ok(joined) =>
      var excluding := d.(excluded := d.excluded + joined);
      if d.snapshot.None? then Refuse(excluding, MALFORMED_FAULT)
      else if d.snapshot.value.searching then Refuse(excluding, UNKNOWN_EVENT_FAULT)
      else
        var team := excluding.(bootstrapped := true, commands := d.commands + [UseTeam]);
        if sends.team.Some? then Refuse(team, sends.team.value) else
        var challenged := team.(commands := team.commands + [SendChallenge]);
        if sends.challenge.Some? then Refuse(challenged, sends.challenge.value) else Looking(challenged)
  }

  function ReadOtherGlobal(d: Search, observation: Result<Option<ChallengeStatus>, Fault>, refusal: Option<Fault>)
    : Progress
  {
    match observation
    case Err(fault) => Refuse(d, fault)
    case Ok(Some(status)) =>
      Looking(if d.bootstrapped
              then d.(latestStatus := Some(status), everPending := d.everPending || status.ChallengePending?)
              else d)
    case Ok(None) => if refusal.Some? then Refuse(d, refusal.value) else Looking(d)
  }

  function ReadRoomLine(d: Search, players: Players, roomId: string, payload: Payload): Progress {
    if !d.bootstrapped then Looking(d.(excluded := d.excluded + {roomId}))
    else if roomId in d.excluded then Looking(d)
    else
      var candidate := if roomId in d.candidates then d.candidates[roomId] else NewCandidate(roomId);
      match Receive(candidate, players, payload)
      case Err(fault) => Refuse(d, fault)
      case Ok(next) =>
        var stored := d.(candidates := d.candidates[roomId := next]);
        if Matches(next, players) then Found(next, stored) else Looking(stored)
  }

  function TimedOut(d: Search): Progress {
    SetupEnds(SetupTimeout(d.everPending && d.latestStatus == Some(ChallengeNotPending)), d)
  }

  /** One pass of the loop in `_discover`. */
  function Look(d: Search, players: Players, sends: Sends, item: WireItem): Progress {
    match item
    case Global(kind, observation, refusal) =>
      if kind.UpdateSearch? then ReadSnapshot(d, kind.snapshot)
      else if kind.UserDetails? && !d.bootstrapped then ReadBarrier(d, sends, kind.rooms)
      else ReadOtherGlobal(d, observation, refusal)
    case Room(roomId, payload) => ReadRoomLine(d, players, roomId, payload)
    case WireFault(fault) => Refuse(d, fault)
    case Expired => TimedOut(d)
  }

  /** The loop over the wire; a wire that falls silent runs into the timeout. */
  function LookOn(d: Search, players: Players, sends: Sends, wire: seq<WireItem>): Progress
    decreases |wire|
  {
    if wire == [] then Looking(d)
    else
      var p := Look(d, players, sends, wire[0]);
      if p.Looking? then LookOn(p.search, players, sends, wire[1..]) else p
  }

  /** How many wire items the loop takes before it ends. */
  function Consumed(d: Search, players: Players, sends: Sends, wire: seq<WireItem>): (n: nat)
    ensures n <= |wire|
    decreases |wire|
  {
    if wire == [] then 0
    else
      var p := Look(d, players, sends, wire[0]);
      if p.Looking? then 1 + Consumed(p.search, players, sends, wire[1..]) else 1
  }

  // ----- hand-off -----

  /** The lines the session reads after the buffered ones: those of its room, until one ends the stream. */
  function HandOff(c: Candidate, players: Players, rest: seq<WireItem>): seq<StreamItem>
    decreases |rest|
  {
    if rest == [] then []
    else match rest[0]
      case WireFault(fault) => [StreamFault(fault)]
      case Room(roomId, payload) =>
        if roomId != c.roomId then HandOff(c, players, rest[1..]) else
        (match Receive(c, players, payload)
         case Err(fault) => [StreamFault(fault)]
         case Ok(next) => [Line(RoomLine(Some(roomId), payload))] + HandOff(next, players, rest[1..]))
      case _ => HandOff(c, players, rest[1..])
  }

  function AsLines(roomId: string, payloads: seq<Payload>): (r: seq<StreamItem>)
    ensures |r| == |payloads|
    ensures forall i :: 0 <= i < |r| ==> r[i] == Line(RoomLine(Some(roomId), payloads[i]))
  {
    seq(|payloads|, i requires 0 <= i < |payloads| => Line(RoomLine(Some(roomId), payloads[i])))
  }

  /** Everything the session is given: the candidate's buffered lines, then the rest of its room. */
  function SessionStream(c: Candidate, players: Players, rest: seq<WireItem>): seq<StreamItem> {
    AsLines(c.roomId, c.lines) + HandOff(c, players, rest)
  }
}
