/** Which room discovery takes, told by what the room's lines say, and for what cause a setup ends without one. */
module DiscoveryMeanings {
  import opened Basics
  import opened ObservedStates
  import opened DecisionRecords
  import opened SessionModel
  import opened Discovery
  import opened DiscoveryTheorems

  // ----- what lines say -----

  predicate Inits(p: Payload) { p.BattleLine? && p.wire.InitBattle? && p.parsed.Ok? }

  predicate IsMetadata(p: Payload) { p.BattleLine? && p.wire.Metadata? }

  predicate SaysPlayer(p: Payload, side: string, id: string) {
    IsMetadata(p) && p.parsed.Ok?
    && match p.parsed.value
       case PlayerDeclared(said, _, displayName) => said == side && ToId(displayName) == id
       case _ => false
  }

  predicate SaysGameType(p: Payload, gameType: string) {
    IsMetadata(p) && p.parsed == Ok(GameTypeDeclared(gameType))
  }

  predicate SaysGeneration(p: Payload, generation: int) {
    IsMetadata(p) && p.parsed == Ok(GenerationDeclared(generation))
  }

  predicate SaysTier(p: Payload, tier: string) {
    IsMetadata(p) && p.parsed == Ok(TierDeclared(tier))
  }

  ghost predicate HeardInit(lines: seq<Payload>) { exists i :: 0 <= i < |lines| && Inits(lines[i]) }

  ghost predicate HeardPlayer(lines: seq<Payload>, side: string, id: string) {
    exists i :: 0 <= i < |lines| && SaysPlayer(lines[i], side, id)
  }

  ghost predicate HeardGameType(lines: seq<Payload>, gameType: string) {
    exists i :: 0 <= i < |lines| && SaysGameType(lines[i], gameType)
  }

  ghost predicate HeardGeneration(lines: seq<Payload>, generation: int) {
    exists i :: 0 <= i < |lines| && SaysGeneration(lines[i], generation)
  }

  ghost predicate HeardTier(lines: seq<Payload>, tier: string) {
    exists i :: 0 <= i < |lines| && SaysTier(lines[i], tier)
  }

  /** Both sides are declared, one for each of us. */
  ghost predicate BothPlay(lines: seq<Payload>, players: Players) {
    exists first, second ::
      HeardPlayer(lines, "p1", first) && HeardPlayer(lines, "p2", second)
      && {first, second} == {players.ours, players.theirs}
  }

  /** The lines show the challenged battle. */
  ghost predicate ShownBattle(lines: seq<Payload>, players: Players) {
    && HeardInit(lines) && BothPlay(lines, players)
    && HeardGameType(lines, "singles") && HeardGeneration(lines, 9) && HeardTier(lines, "[Gen 9] OU")
  }

  /** A metadata line comes after the initialization, can be read, names a player if it declares one, and contradicts no
      earlier line. */
  ghost predicate OrderlyLine(before: seq<Payload>, p: Payload) {
    IsMetadata(p) ==>
      && HeardInit(before) && p.parsed.Ok?
      && match p.parsed.value
         case PlayerDeclared(side, _, displayName) =>
           && (side == "p1" || side == "p2") && ToId(displayName) != ""
           && forall id :: HeardPlayer(before, side, id) ==> id == ToId(displayName)
         case GameTypeDeclared(gameType) => forall other :: HeardGameType(before, other) ==> other == gameType
         case GenerationDeclared(generation) => forall other :: HeardGeneration(before, other) ==> other == generation
         case TierDeclared(tier) => forall other :: HeardTier(before, other) ==> other == tier
         case _ => true
  }

  ghost predicate Orderly(lines: seq<Payload>) {
    forall i :: 0 <= i < |lines| ==> OrderlyLine(lines[..i], lines[i])
  }

  // ----- a candidate and its lines -----

  /** What a candidate knows is what its lines said. */
  ghost predicate KnowsLines(c: Candidate, lines: seq<Payload>) {
    && (c.initialized <==> HeardInit(lines))
    && (forall side :: side in c.players ==>
          (side == "p1" || side == "p2") && HeardPlayer(lines, side, c.players[side]))
    && (c.gameType.Some? ==> HeardGameType(lines, c.gameType.value))
    && (c.generation.Some? ==> HeardGeneration(lines, c.generation.value))
    && (c.tier.Some? ==> HeardTier(lines, c.tier.value))
    && (c.metadataError.Some? ==> c.metadataError == Some(MALFORMED_FAULT))
    && (c.metadataError.None? <==> Orderly(lines))
    && (c.metadataError.None? ==>
          && (forall side, id :: HeardPlayer(lines, side, id) ==> side in c.players && c.players[side] == id)
          && (forall g :: HeardGameType(lines, g) ==> c.gameType == Some(g))
          && (forall g :: HeardGeneration(lines, g) ==> c.generation == Some(g))
          && (forall t :: HeardTier(lines, t) ==> c.tier == Some(t)))
  }

  lemma HeardMore(lines: seq<Payload>, p: Payload)
    ensures HeardInit(lines + [p]) <==> HeardInit(lines) || Inits(p)
    ensures forall side, id ::
              HeardPlayer(lines + [p], side, id) <==> HeardPlayer(lines, side, id) || SaysPlayer(p, side, id)
    ensures forall g :: HeardGameType(lines + [p], g) <==> HeardGameType(lines, g) || SaysGameType(p, g)
    ensures forall g :: HeardGeneration(lines + [p], g) <==> HeardGeneration(lines, g) || SaysGeneration(p, g)
    ensures forall t :: HeardTier(lines + [p], t) <==> HeardTier(lines, t) || SaysTier(p, t)
  {
    hide Inits, SaysPlayer, SaysGameType, SaysGeneration, SaysTier;
    var all := lines + [p];
    assert all[|lines|] == p && forall i :: 0 <= i < |lines| ==> all[i] == lines[i];
    assert forall i :: 0 <= i < |all| ==> i < |lines| || all[i] == p;
  }

  lemma OrderlyMore(lines: seq<Payload>, p: Payload)
    ensures Orderly(lines + [p]) <==> Orderly(lines) && OrderlyLine(lines, p)
  {
    hide OrderlyLine;
    var all := lines + [p];
    assert all[..|lines|] == lines && all[|lines|] == p;
    forall i | 0 <= i < |lines| ensures OrderlyLine(all[..i], all[i]) <==> OrderlyLine(lines[..i], lines[i]) {
      assert all[..i] == lines[..i] && all[i] == lines[i];
    }
    if Orderly(lines + [p]) {
      assert OrderlyLine(all[..|lines|], all[|lines|]);
      forall i | 0 <= i < |lines| ensures OrderlyLine(lines[..i], lines[i]) { assert OrderlyLine(all[..i], all[i]); }
    }
  }

  lemma PlayerKnown(c: Candidate, lines: seq<Payload>, p: Payload)
    requires KnowsLines(c, lines) && c.initialized && IsMetadata(p) && p.parsed.Ok? && p.parsed.value.PlayerDeclared?
    ensures KnowsLines(ReadDeclaration(c, p.parsed.value), lines + [p])
  {
    HeardMore(lines, p);
    OrderlyMore(lines, p);
    hide HeardInit, HeardPlayer, HeardGameType, HeardGeneration, HeardTier, Orderly, ToId;
  }

  lemma FormatKnown(c: Candidate, lines: seq<Payload>, p: Payload)
    requires KnowsLines(c, lines) && c.initialized && IsMetadata(p) && p.parsed.Ok? && !p.parsed.value.PlayerDeclared?
    ensures KnowsLines(ReadDeclaration(c, p.parsed.value), lines + [p])
  {
    HeardMore(lines, p);
    OrderlyMore(lines, p);
    hide HeardInit, HeardPlayer, HeardGameType, HeardGeneration, HeardTier, Orderly, ReadPlayer;
  }

  /** Reading one declaration of an initialized candidate. */
  lemma DeclarationKnown(c: Candidate, lines: seq<Payload>, p: Payload)
    requires KnowsLines(c, lines) && c.initialized && IsMetadata(p) && p.parsed.Ok?
    ensures KnowsLines(ReadDeclaration(c, p.parsed.value), lines + [p])
  {
    hide KnowsLines, ReadDeclaration;
    if p.parsed.value.PlayerDeclared? { PlayerKnown(c, lines, p); } else { FormatKnown(c, lines, p); }
  }

  lemma ReadKnown(c: Candidate, lines: seq<Payload>, p: Payload)
    requires KnowsLines(c, lines) && ReadMetadata(c, p).Ok?
    ensures KnowsLines(ReadMetadata(c, p).value, lines + [p])
  {
    if IsMetadata(p) && c.initialized && p.parsed.Ok? {
      DeclarationKnown(c, lines, p);
    } else {
      HeardMore(lines, p);
      OrderlyMore(lines, p);
    }
    hide HeardInit, HeardPlayer, HeardGameType, HeardGeneration, HeardTier, Orderly, ReadDeclaration;
  }

  lemma NothingKnown(roomId: string)
    ensures KnowsLines(NewCandidate(roomId), [])
  {}

  lemma LinesDoNotMatter(c: Candidate, lines: seq<Payload>, more: seq<Payload>)
    requires KnowsLines(c, lines)
    ensures KnowsLines(c.(lines := more), lines)
  {
    hide HeardInit, HeardPlayer, HeardGameType, HeardGeneration, HeardTier, Orderly;
  }

  lemma {:induction false} ReplayKnows(roomId: string, players: Players, payloads: seq<Payload>)
    requires Replay(roomId, players, payloads).Ok?
    ensures KnowsLines(Replay(roomId, players, payloads).value, payloads)
    ensures CandidateFailure(Replay(roomId, players, payloads).value, players).None?
  {
    hide KnowsLines, ReadMetadata;
    if payloads == [] {
      NothingKnown(roomId);
    } else {
      var last := |payloads| - 1;
      var c := Replay(roomId, players, payloads[..last]).value;
      ReplayKnows(roomId, players, payloads[..last]);
      LinesDoNotMatter(c, payloads[..last], c.lines + [payloads[last]]);
      ReadKnown(c.(lines := c.lines + [payloads[last]]), payloads[..last], payloads[last]);
      assert payloads == payloads[..last] + [payloads[last]];
    }
  }

  lemma ExactIsBoth(c: Candidate, lines: seq<Payload>, players: Players)
    requires KnowsLines(c, lines)
    ensures ExactPlayers(c, players) ==> BothPlay(lines, players)
    ensures c.metadataError.None? && BothPlay(lines, players) ==> ExactPlayers(c, players)
  {
    hide HeardPlayer, HeardInit, HeardGameType, HeardGeneration, HeardTier, Orderly;
    if ExactPlayers(c, players) {
      assert "p1" in c.players && "p2" in c.players;
      assert c.players.Values == {c.players["p1"], c.players["p2"]};
    }
    if c.metadataError.None? && BothPlay(lines, players) {
      var first, second :| HeardPlayer(lines, "p1", first) && HeardPlayer(lines, "p2", second)
                           && {first, second} == {players.ours, players.theirs};
      assert c.players["p1"] == first && c.players["p2"] == second;
      assert c.players.Keys == {"p1", "p2"};
      assert c.players.Values == {first, second};
    }
  }

  /** A candidate matches exactly if its lines are orderly and show the challenged battle. */
  lemma {:induction false} MatchIffShown(roomId: string, players: Players, payloads: seq<Payload>)
    requires Replay(roomId, players, payloads).Ok?
    ensures Matches(Replay(roomId, players, payloads).value, players) <==>
              Orderly(payloads) && ShownBattle(payloads, players)
  {
    var c := Replay(roomId, players, payloads).value;
    ReplayKnows(roomId, players, payloads);
    ExactIsBoth(c, payloads, players);
    hide Replay, ExactPlayers, BothPlay, HeardInit, HeardPlayer, HeardGameType, HeardGeneration, HeardTier, Orderly;
  }

  /** Why a room's line ends the setup: it cannot be read, or the room is ours and its lines contradict each other, or
      declare another game. */
  ghost predicate Spoils(lines: seq<Payload>, p: Payload, players: Players, fault: Fault) {
    var all := lines + [p];
    || (p.BattleLine? && (p.wire.InitBattle? || (p.wire.Metadata? && HeardInit(lines))) && p.parsed == Err(fault))
    || (BothPlay(all, players) && !Orderly(all) && fault == MALFORMED_FAULT)
    || (BothPlay(all, players) && Orderly(all) && fault == UNKNOWN_EVENT_FAULT && OtherGame(all))
  }

  ghost predicate OtherGame(lines: seq<Payload>) {
    || (exists g :: HeardGameType(lines, g) && g != "singles")
    || (exists g :: HeardGeneration(lines, g) && g != 9)
    || (exists t :: HeardTier(lines, t) && t != "[Gen 9] OU")
  }

  lemma {:induction false} RefusedLineSpoils(roomId: string, players: Players, payloads: seq<Payload>, p: Payload)
    requires Replay(roomId, players, payloads).Ok?
    requires Receive(Replay(roomId, players, payloads).value, players, p).Err?
    ensures Spoils(payloads, p, players, Receive(Replay(roomId, players, payloads).value, players, p).error)
  {
    var c := Replay(roomId, players, payloads).value;
    ReplayKnows(roomId, players, payloads);
    var read := c.(lines := c.lines + [p]);
    LinesDoNotMatter(c, payloads, c.lines + [p]);
    if ReadMetadata(read, p).Ok? {
      var next := ReadMetadata(read, p).value;
      ReadKnown(read, payloads, p);
      ExactIsBoth(next, payloads + [p], players);
      hide Replay, ReadMetadata, ExactPlayers, BothPlay, HeardInit, HeardPlayer, HeardGameType, HeardGeneration,
           HeardTier, Orderly;
    } else {
      hide Replay, HeardPlayer, HeardGameType, HeardGeneration, HeardTier, Orderly, HeardInit, ReadDeclaration;
    }
  }

  // ----- the setup, told by the wire -----

  /** The last search update the server sent that can be read. */
  function LastSnapshot(wire: seq<WireItem>): Option<SearchSnapshot> {
    if wire == [] then None else
    var last := wire[|wire| - 1];
    if last.Global? && last.kind.UpdateSearch? && last.kind.snapshot.Ok? then Some(last.kind.snapshot.value)
    else LastSnapshot(wire[..|wire| - 1])
  }

  /** What the server says of our challenge after the barrier, in order. */
  ghost function Statuses(wire: seq<WireItem>): seq<ChallengeStatus> {
    if wire == [] then [] else
    var last, before := wire[|wire| - 1], wire[..|wire| - 1];
    Statuses(before)
    + (if last.Global? && !last.kind.UpdateSearch? && !NoBarrier(before) && last.observation.Ok?
          && last.observation.value.Some? then [last.observation.value.value] else [])
  }

  /** A search that still looks knows the wire it has seen: whether the barrier was there, what the server said, and
      which rooms are candidates, none of which matches. */
  ghost predicate Sees(d: Search, players: Players, seen: seq<WireItem>) {
    && SearchOk(d, players, seen)
    && (d.bootstrapped <==> !NoBarrier(seen))
    && (!d.bootstrapped ==> d.snapshot == LastSnapshot(seen))
    && (d.everPending <==> ChallengePending in Statuses(seen))
    && d.latestStatus == (if Statuses(seen) == [] then None else Some(Statuses(seen)[|Statuses(seen)| - 1]))
    && forall r :: r in d.candidates ==> !Matches(d.candidates[r], players)
  }

  lemma NothingSeen(players: Players)
    ensures Sees(InitialSearch(), players, [])
  {
    InitialSearchOk(players);
    hide SearchOk;
  }

  lemma BarrierMore(seen: seq<WireItem>, item: WireItem)
    ensures NoBarrier(seen + [item]) <==> NoBarrier(seen) && !IsBarrier(item)
  {
    var all := seen + [item];
    assert all[|seen|] == item && forall i :: 0 <= i < |seen| ==> all[i] == seen[i];
    hide IsBarrier;
  }

  lemma SnapshotMore(seen: seq<WireItem>, item: WireItem)
    ensures LastSnapshot(seen + [item])
         == if item.Global? && item.kind.UpdateSearch? && item.kind.snapshot.Ok? then Some(item.kind.snapshot.value)
            else LastSnapshot(seen)
  {
    assert (seen + [item])[..|seen|] == seen;
  }

  lemma StatusMore(seen: seq<WireItem>, item: WireItem)
    ensures Statuses(seen + [item])
         == Statuses(seen)
            + (if item.Global? && !item.kind.UpdateSearch? && !NoBarrier(seen) && item.observation.Ok?
                  && item.observation.value.Some? then [item.observation.value.value] else [])
  {
    assert (seen + [item])[..|seen|] == seen;
    hide NoBarrier;
  }

  lemma {:induction false} GlobalSees(d: Search, players: Players, sends: Sends, seen: seq<WireItem>, item: WireItem)
    requires Sees(d, players, seen) && !item.Room? && Look(d, players, sends, item).Looking?
    ensures Sees(Look(d, players, sends, item).search, players, seen + [item])
  {
    GlobalLook(d, players, sends, item);
    GlobalKeeps(d, Look(d, players, sends, item).search, players, seen, item);
    BarrierMore(seen, item);
    SnapshotMore(seen, item);
    StatusMore(seen, item);
    hide SearchOk, NoBarrier, LastSnapshot, Statuses, Matches, GlobalOnly;
  }

  lemma {:induction false} RoomSees(
    d: Search, players: Players, sends: Sends, seen: seq<WireItem>, roomId: string, payload: Payload)
    requires Sees(d, players, seen) && ReadRoomLine(d, players, roomId, payload).Looking?
    ensures Sees(ReadRoomLine(d, players, roomId, payload).search, players, seen + [Room(roomId, payload)])
  {
    RoomLook(d, players, sends, seen, roomId, payload);
    BarrierMore(seen, Room(roomId, payload));
    SnapshotMore(seen, Room(roomId, payload));
    StatusMore(seen, Room(roomId, payload));
    assert Statuses(seen) + [] == Statuses(seen);
    hide SearchOk, NoBarrier, LastSnapshot, Statuses, Matches, Receive;
  }

  /** The room was heard after the barrier and is not one the server had us in, or that spoke, before. */
  ghost predicate Fresh(wire: seq<WireItem>, roomId: string) {
    exists b :: 0 <= b < |wire| && IsBarrier(wire[b]) && NoBarrier(wire[..b])
                && !Mentions(wire[..b], roomId) && !Listed(wire[..b + 1], roomId)
  }

  /** The item on which a setup ended, after `seen`, accounts for the error. */
  ghost predicate Causes(players: Players, sends: Sends, seen: seq<WireItem>, item: WireItem, error: SetupError) {
    match item
    case WireFault(fault) => error == SetupRaised(fault)
    case Expired => error == TimeoutAfter(seen)
    case Room(roomId, payload) =>
      && error.SetupRaised? && Fresh(seen, roomId)
      && Spoils(RoomLines(seen, roomId), payload, players, error.fault)
    case Global(kind, observation, refusal) =>
      && error.SetupRaised?
      && if kind.UpdateSearch? then
           kind.snapshot == Err(error.fault)
           || (kind.snapshot.Ok? && !NoBarrier(seen) && kind.snapshot.value.searching
               && error.fault == UNKNOWN_EVENT_FAULT)
         else if kind.UserDetails? && NoBarrier(seen) then BarrierFails(sends, seen, kind.rooms, error.fault)
         else observation == Err(error.fault) || (observation == Ok(None) && refusal == Some(error.fault))
  }

  /** A room's line the setup does not survive: one that cannot be read, or that contradicts or completes the lines of
      our battle to another game. */
  ghost predicate Breaks(lines: seq<Payload>, p: Payload, players: Players) {
    var all := lines + [p];
    || (p.BattleLine? && (p.wire.InitBattle? || (p.wire.Metadata? && HeardInit(lines)))
        && p.parsed.Err? && (p.wire.InitBattle? || p.parsed.error != MALFORMED_FAULT))
    || (BothPlay(lines, players) && Orderly(lines) && !OrderlyLine(lines, p))
    || (BothPlay(all, players) && Orderly(all) && OtherGame(all))
  }

  lemma ErrorIsDisorder(c: Candidate, lines: seq<Payload>)
    requires KnowsLines(c, lines)
    ensures c.metadataError.None? <==> Orderly(lines)
  {
    hide HeardInit, HeardPlayer, HeardGameType, HeardGeneration, HeardTier, Orderly;
  }

  /** Our room fails if its lines are disorderly or declare another game. */
  lemma OurRoomFails(c: Candidate, lines: seq<Payload>, players: Players)
    requires KnowsLines(c, lines) && ExactPlayers(c, players) && (!Orderly(lines) || OtherGame(lines))
    ensures CandidateFailure(c, players).Some?
  {
    hide HeardInit, HeardPlayer, HeardGameType, HeardGeneration, HeardTier, Orderly, ExactPlayers;
  }

  lemma {:induction false} BreakingLineIsRefused(roomId: string, players: Players, payloads: seq<Payload>, p: Payload)
    requires Replay(roomId, players, payloads).Ok? && Breaks(payloads, p, players)
    ensures Receive(Replay(roomId, players, payloads).value, players, p).Err?
  {
    hide Replay, ReadMetadata, ExactPlayers, BothPlay, Orderly, OrderlyLine, KnowsLines, HeardInit, OtherGame,
         CandidateFailure;
    var c := Replay(roomId, players, payloads).value;
    ReplayKnows(roomId, players, payloads);
    var read := c.(lines := c.lines + [p]);
    LinesDoNotMatter(c, payloads, c.lines + [p]);
    if ReadMetadata(read, p).Ok? {
      var next := ReadMetadata(read, p).value;
      UnreadIsRefused(read, payloads, p);
      ReadKnown(read, payloads, p);
      OrderlyMore(payloads, p);
      ErrorIsDisorder(read, payloads);
      ErrorIsDisorder(next, payloads + [p]);
      ExactIsBoth(read, payloads, players);
      ExactIsBoth(next, payloads + [p], players);
      if ExactPlayers(read, players) { ExactStays(read, players, p); }
      OurRoomFails(next, payloads + [p], players);
    }
  }

  lemma UnreadIsRefused(c: Candidate, lines: seq<Payload>, p: Payload)
    requires KnowsLines(c, lines) && ReadMetadata(c, p).Ok?
    ensures p.BattleLine? && (p.wire.InitBattle? || (p.wire.Metadata? && HeardInit(lines))) && p.parsed.Err? ==>
              !p.wire.InitBattle? && p.parsed.error == MALFORMED_FAULT
  {
    hide HeardInit, HeardPlayer, HeardGameType, HeardGeneration, HeardTier, Orderly;
  }

  lemma ExactStays(c: Candidate, players: Players, p: Payload)
    requires ExactPlayers(c, players) && ReadMetadata(c, p).Ok?
    ensures ExactPlayers(ReadMetadata(c, p).value, players)
  {
    hide ToId;
  }

  /** The item ends a setup that has seen `seen`, whatever comes after it. */
  ghost predicate MustEnd(players: Players, sends: Sends, seen: seq<WireItem>, item: WireItem) {
    match item
    case Room(roomId, payload) => Fresh(seen, roomId) && Breaks(RoomLines(seen, roomId), payload, players)
    case _ => exists error :: Causes(players, sends, seen, item, error)
  }

  /** No item before position `n` had to end the setup. */
  ghost predicate WentOn(players: Players, sends: Sends, wire: seq<WireItem>, n: nat) {
    forall i :: 0 <= i < n && i < |wire| ==> !MustEnd(players, sends, wire[..i], wire[i])
  }

  /** The timeout tells whether the challenge was pending once and is not any more. */
  ghost function TimeoutAfter(seen: seq<WireItem>): SetupError {
    var said := Statuses(seen);
    SetupTimeout(ChallengePending in said && said[|said| - 1] == ChallengeNotPending)
  }

  /** The barrier cannot be read, or comes without or during a search, or one of the two commands after it fails. */
  ghost predicate BarrierFails(
    sends: Sends, seen: seq<WireItem>, rooms: Result<set<string>, Fault>, fault: Fault)
  {
    var snapshot := LastSnapshot(seen);
    if rooms.Err? then fault == rooms.error
    else if snapshot.None? then fault == MALFORMED_FAULT
    else if snapshot.value.searching then fault == UNKNOWN_EVENT_FAULT
    else Some(fault) == if sends.team.Some? then sends.team else sends.challenge
  }

  lemma GlobalCauses(d: Search, players: Players, sends: Sends, seen: seq<WireItem>, item: WireItem)
    requires Sees(d, players, seen) && !item.Room? && Look(d, players, sends, item).SetupEnds?
    ensures Causes(players, sends, seen, item, Look(d, players, sends, item).error)
  {
    hide SearchOk, NoBarrier, LastSnapshot, Statuses, Matches;
  }

  /** A room that is not excluded after the barrier is fresh, and its candidate holds all its lines. */
  lemma {:induction false} OpenRoom(d: Search, players: Players, seen: seq<WireItem>, roomId: string)
    requires SearchOk(d, players, seen) && d.bootstrapped && roomId !in d.excluded
    ensures Fresh(seen, roomId)
    ensures Replay(roomId, players, RoomLines(seen, roomId))
         == Ok(if roomId in d.candidates then d.candidates[roomId] else NewCandidate(roomId))
  {
    OneRoomOk(d, players, seen, roomId);
    BeforeBarrier(d, players, seen);
    ReplayOfNothing(players, roomId);
    hide SearchOk, Mentions, Listed, NoBarrier, Replay, RoomLines;
    var b: nat :| BarrierAt(d, seen, b);
    if roomId !in d.candidates { SilentRoom(seen, roomId); }
  }

  lemma {:induction false} RoomCauses(
    d: Search, players: Players, seen: seq<WireItem>, roomId: string, payload: Payload, sends: Sends)
    requires Sees(d, players, seen) && ReadRoomLine(d, players, roomId, payload).SetupEnds?
    ensures Causes(players, sends, seen, Room(roomId, payload), ReadRoomLine(d, players, roomId, payload).error)
  {
    hide Receive, Matches, SearchOk, Replay, RoomLines, Spoils, Fresh;
    OpenRoom(d, players, seen, roomId);
    RefusedLineSpoils(roomId, players, RoomLines(seen, roomId), payload);
  }

  lemma GlobalEnds(d: Search, players: Players, sends: Sends, seen: seq<WireItem>, item: WireItem)
    requires Sees(d, players, seen) && !item.Room? && MustEnd(players, sends, seen, item)
    ensures !Look(d, players, sends, item).Looking?
  {
    hide SearchOk, NoBarrier, LastSnapshot, Statuses, Matches;
  }

  lemma {:induction false} RoomEnds(
    d: Search, players: Players, sends: Sends, seen: seq<WireItem>, roomId: string, payload: Payload)
    requires Sees(d, players, seen) && MustEnd(players, sends, seen, Room(roomId, payload))
    ensures !ReadRoomLine(d, players, roomId, payload).Looking?
  {
    hide Receive, Matches, SearchOk, Replay, RoomLines, Breaks, Fresh;
    FreshIsOpen(d, players, seen, roomId);
    OpenRoom(d, players, seen, roomId);
    BreakingLineIsRefused(roomId, players, RoomLines(seen, roomId), payload);
  }

  /** What a setup that took `n` items of the wire decided. */
  ghost predicate Decides(players: Players, sends: Sends, wire: seq<WireItem>, p: Progress, n: nat) {
    match p
    case Found(c, _) =>
      && 0 < n <= |wire| && WentOn(players, sends, wire, n - 1)
      && wire[n - 1].Room? && wire[n - 1].roomId == c.roomId && Fresh(wire[..n], c.roomId)
      && Orderly(RoomLines(wire[..n], c.roomId)) && ShownBattle(RoomLines(wire[..n], c.roomId), players)
    case Looking(last) =>
      && n == |wire| && WentOn(players, sends, wire, n) && TimedOut(last).error == TimeoutAfter(wire)
      && forall r :: Fresh(wire, r) && Orderly(RoomLines(wire, r)) ==> !ShownBattle(RoomLines(wire, r), players)
    case SetupEnds(error, _) =>
      && 0 < n <= |wire| && WentOn(players, sends, wire, n - 1)
      && Causes(players, sends, wire[..n - 1], wire[n - 1], error)
  }

  lemma {:induction false} FoundDecides(
    d: Search, players: Players, sends: Sends, seen: seq<WireItem>, roomId: string, payload: Payload)
    requires Sees(d, players, seen) && ReadRoomLine(d, players, roomId, payload).Found?
    ensures var c, now := ReadRoomLine(d, players, roomId, payload).candidate, seen + [Room(roomId, payload)];
            && c.roomId == roomId && Fresh(now, roomId)
            && Orderly(RoomLines(now, roomId)) && ShownBattle(RoomLines(now, roomId), players)
  {
    RoomLook(d, players, sends, seen, roomId, payload);
    hide Receive, Matches, Replay, RoomLines, Fresh, ShownBattle, Orderly, SearchOk;
    var p, now := ReadRoomLine(d, players, roomId, payload), seen + [Room(roomId, payload)];
    CandidateIsReplay(p.last, players, now, roomId);
    OpenRoom(p.last, players, now, roomId);
    MatchIffShown(roomId, players, RoomLines(now, roomId));
  }

  /** A search that still looks has missed no room. */
  lemma {:induction false} NoneMissed(d: Search, players: Players, seen: seq<WireItem>, roomId: string)
    requires Sees(d, players, seen) && Fresh(seen, roomId) && Orderly(RoomLines(seen, roomId))
    ensures !ShownBattle(RoomLines(seen, roomId), players)
  {
    hide SearchOk, Replay, RoomLines, Matches, ShownBattle, Orderly, Statuses, LastSnapshot;
    FreshIsOpen(d, players, seen, roomId);
    OpenRoom(d, players, seen, roomId);
    MatchIffShown(roomId, players, RoomLines(seen, roomId));
    NewIsNoMatch(roomId, players);
  }

  lemma NewIsNoMatch(roomId: string, players: Players)
    ensures !Matches(NewCandidate(roomId), players)
  {}

  lemma NoneBefore(seen: seq<WireItem>, b: nat)
    requires b <= |seen| && NoBarrier(seen[..b])
    ensures forall i :: 0 <= i < b ==> !IsBarrier(seen[i])
  {
    forall i | 0 <= i < b ensures !IsBarrier(seen[i]) { assert seen[..b][i] == seen[i]; }
  }

  lemma {:induction false} FreshIsOpen(d: Search, players: Players, seen: seq<WireItem>, roomId: string)
    requires SearchOk(d, players, seen) && (d.bootstrapped <==> !NoBarrier(seen)) && Fresh(seen, roomId)
    ensures d.bootstrapped && roomId !in d.excluded
  {
    BeforeBarrier(d, players, seen);
    hide SearchOk, Mentions, Listed;
    var b :| 0 <= b < |seen| && IsBarrier(seen[b]) && NoBarrier(seen[..b])
             && !Mentions(seen[..b], roomId) && !Listed(seen[..b + 1], roomId);
    assert !NoBarrier(seen);
    var a: nat :| BarrierAt(d, seen, a);
    NoneBefore(seen, a);
    NoneBefore(seen, b);
    hide IsBarrier, NoBarrier;
    assert a == b;
  }

  lemma SilenceTimesOut(d: Search, players: Players, seen: seq<WireItem>)
    requires Sees(d, players, seen)
    ensures TimedOut(d).error == TimeoutAfter(seen)
  {
    hide SearchOk, NoBarrier, LastSnapshot, Statuses, Matches;
  }

  lemma EndsAreEnds(d: Search, players: Players, sends: Sends, seen: seq<WireItem>, item: WireItem)
    requires Sees(d, players, seen)
    ensures MustEnd(players, sends, seen, item) ==> !Look(d, players, sends, item).Looking?
  {
    hide Sees, Look, MustEnd, ReadRoomLine;
    if MustEnd(players, sends, seen, item) {
      if item.Room? {
        RoomIsRead(d, players, sends, item);
        RoomEnds(d, players, sends, seen, item.roomId, item.payload);
      } else {
        GlobalEnds(d, players, sends, seen, item);
      }
    }
  }

  lemma WentFurther(players: Players, sends: Sends, seen: seq<WireItem>, item: WireItem)
    requires WentOn(players, sends, seen, |seen|) && !MustEnd(players, sends, seen, item)
    ensures WentOn(players, sends, seen + [item], |seen| + 1)
  {
    hide MustEnd;
    var all := seen + [item];
    forall i | 0 <= i < |all| ensures !MustEnd(players, sends, all[..i], all[i]) {
      assert i < |seen| ==> all[..i] == seen[..i] && all[i] == seen[i];
      assert i == |seen| ==> all[..i] == seen && all[i] == item;
    }
  }

  lemma WentOnBefore(players: Players, sends: Sends, seen: seq<WireItem>, rest: seq<WireItem>)
    requires WentOn(players, sends, seen, |seen|)
    ensures WentOn(players, sends, seen + rest, |seen|)
  {
    hide MustEnd;
    var all := seen + rest;
    forall i | 0 <= i < |seen| ensures !MustEnd(players, sends, all[..i], all[i]) {
      assert all[..i] == seen[..i] && all[i] == seen[i];
    }
  }

  /** What the rest of the wire decides once `seen` was read. */
  lemma {:induction false} RestDecides(
    d: Search, players: Players, sends: Sends, seen: seq<WireItem>, wire: seq<WireItem>)
    requires Sees(d, players, seen) && WentOn(players, sends, seen, |seen|)
    ensures Decides(players, sends, seen + wire, LookOn(d, players, sends, wire),
                    |seen| + Consumed(d, players, sends, wire))
    decreases |wire|
  {
    hide Sees, Look, Causes, Fresh, Orderly, ShownBattle, RoomLines, WentOn, MustEnd;
    WentOnBefore(players, sends, seen, wire);
    if wire == [] {
      assert seen + wire == seen;
      SilenceTimesOut(d, players, seen);
      forall r | Fresh(seen, r) && Orderly(RoomLines(seen, r)) ensures !ShownBattle(RoomLines(seen, r), players) {
        NoneMissed(d, players, seen, r);
      }
    } else {
      var p, item, now := Look(d, players, sends, wire[0]), wire[0], seen + [wire[0]];
      var all := seen + wire;
      assert all[..|seen|] == seen && all[|seen|] == item && all[..|seen| + 1] == now && all == now + wire[1..];
      if item.Room? {
        RoomIsRead(d, players, sends, item);
        if p.Found? { FoundDecides(d, players, sends, seen, item.roomId, item.payload); }
        if p.SetupEnds? { RoomCauses(d, players, seen, item.roomId, item.payload, sends); }
        if p.Looking? { RoomSees(d, players, sends, seen, item.roomId, item.payload); }
      } else {
        GlobalLook(d, players, sends, item);
        if p.SetupEnds? { GlobalCauses(d, players, sends, seen, item); }
        if p.Looking? { GlobalSees(d, players, sends, seen, item); }
      }
      if p.Looking? {
        assert !MustEnd(players, sends, seen, item) by { EndsAreEnds(d, players, sends, seen, item); }
        WentFurther(players, sends, seen, item);
        RestDecides(p.search, players, sends, now, wire[1..]);
      }
    }
  }

  /** Discovery, told by the wire alone. A room is found exactly when one the server had not named, and that had not
      spoken, before the barrier first shows the challenged battle in orderly lines; if the wire falls silent no such
      room was missed; a setup that ends otherwise ends for the item it ended on; and no item it went past had to end
      it. */
  lemma {:induction false} DiscoveryDecides(players: Players, sends: Sends, wire: seq<WireItem>)
    ensures Decides(players, sends, wire, LookOn(InitialSearch(), players, sends, wire),
                    Consumed(InitialSearch(), players, sends, wire))
  {
    hide LookOn, Consumed, Decides, Sees;
    NothingSeen(players);
    assert WentOn(players, sends, [], 0);
    RestDecides(InitialSearch(), players, sends, [], wire);
    assert [] + wire == wire;
  }
}
