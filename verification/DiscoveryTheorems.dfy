/** What discovery hands to the session, and what its metadata checks mean for the reconciler. */
module DiscoveryTheorems {
  import opened Basics
  import opened ObservedStates
  import opened Reducer
  import opened ReducerInvariants
  import opened RosterKeys
  import opened Submissions
  import opened Reconciler
  import opened DecisionRecords
  import opened SessionModel
  import opened SessionInvariants
  import opened SessionEffects
  import opened SessionTheorems
  import opened Discovery

  // ----- what arrived for a room -----

  /** The payloads of one room, in wire order. */
  function RoomLines(wire: seq<WireItem>, roomId: string): seq<Payload> {
    if wire == [] then []
    else
      var last := wire[|wire| - 1];
      RoomLines(wire[..|wire| - 1], roomId)
      + (if last.Room? && last.roomId == roomId then [last.payload] else [])
  }

  ghost predicate Mentions(wire: seq<WireItem>, roomId: string) {
    exists i :: 0 <= i < |wire| && wire[i].Room? && wire[i].roomId == roomId
  }

  predicate IsBarrier(item: WireItem) {
    item.Global? && item.kind.UserDetails?
  }

  /** A fresh candidate for the room after receiving `payloads`, or the first fault among them. */
  function Replay(roomId: string, players: Players, payloads: seq<Payload>): Result<Candidate, Fault> {
    if payloads == [] then Ok(NewCandidate(roomId))
    else
      var last := |payloads| - 1;
      match Replay(roomId, players, payloads[..last])
      case Err(fault) => Err(fault)
      case Ok(c) => Receive(c, players, payloads[last])
  }

  lemma ReplayAppend(roomId: string, players: Players, payloads: seq<Payload>, payload: Payload)
    ensures Replay(roomId, players, payloads + [payload])
         == match Replay(roomId, players, payloads)
            case Err(fault) => Err(fault)
            case Ok(c) => Receive(c, players, payload)
  {
    assert (payloads + [payload])[..|payloads|] == payloads;
    hide Receive;
  }

  lemma ReplayOfNothing(players: Players, roomId: string)
    ensures Replay(roomId, players, []) == Ok(NewCandidate(roomId))
  {}

  lemma ReceiveKeeps(c: Candidate, players: Players, payload: Payload)
    ensures Receive(c, players, payload).Ok? ==>
              Receive(c, players, payload).value.roomId == c.roomId
              && Receive(c, players, payload).value.lines == c.lines + [payload]
  {
    hide CandidateFailure, ToId;
  }

  lemma {:induction false} ReplayLines(roomId: string, players: Players, payloads: seq<Payload>)
    ensures Replay(roomId, players, payloads).Ok? ==>
              Replay(roomId, players, payloads).value.roomId == roomId
              && Replay(roomId, players, payloads).value.lines == payloads
  {
    hide Receive;
    if payloads != [] {
      var last := |payloads| - 1;
      ReplayLines(roomId, players, payloads[..last]);
      if Replay(roomId, players, payloads[..last]).Ok? {
        ReceiveKeeps(Replay(roomId, players, payloads[..last]).value, players, payloads[last]);
        assert payloads == payloads[..last] + [payloads[last]];
      }
    }
  }

  lemma RoomLinesAppend(wire: seq<WireItem>, item: WireItem, roomId: string)
    ensures RoomLines(wire + [item], roomId)
         == if item.Room? && item.roomId == roomId then RoomLines(wire, roomId) + [item.payload]
            else RoomLines(wire, roomId)
  {
    assert (wire + [item])[..|wire|] == wire;
  }

  lemma {:induction false} SilentRoom(wire: seq<WireItem>, roomId: string)
    requires !Mentions(wire, roomId)
    ensures RoomLines(wire, roomId) == []
  {
    if wire != [] {
      var last := |wire| - 1;
      assert !(wire[last].Room? && wire[last].roomId == roomId);
      forall i | 0 <= i < last ensures !(wire[..last][i].Room? && wire[..last][i].roomId == roomId) {
        assert wire[..last][i] == wire[i];
      }
      SilentRoom(wire[..last], roomId);
    }
  }

  // ----- discovery -----

  /** Every room heard of so far is accounted for: excluded, or a candidate holding all of its lines. */
  ghost predicate RoomOk(d: Search, players: Players, seen: seq<WireItem>, roomId: string) {
    && (Mentions(seen, roomId) ==> roomId in d.excluded || roomId in d.candidates)
    && (roomId in d.candidates ==>
          && roomId !in d.excluded && d.bootstrapped
          && Replay(roomId, players, RoomLines(seen, roomId)) == Ok(d.candidates[roomId]))
  }

  /** The server names the room among those it says we are in: in a search update, or in the user details. */
  predicate Lists(item: WireItem, roomId: string) {
    item.Global?
    && match item.kind
       case UpdateSearch(snapshot) => snapshot.Ok? && roomId in snapshot.value.rooms
       case UserDetails(rooms) => rooms.Ok? && roomId in rooms.value
       case OtherGlobal => false
  }

  ghost predicate Listed(wire: seq<WireItem>, roomId: string) {
    exists i :: 0 <= i < |wire| && Lists(wire[i], roomId)
  }

  ghost predicate NoBarrier(wire: seq<WireItem>) {
    forall i :: 0 <= i < |wire| ==> !IsBarrier(wire[i])
  }

  /** Position `b` is the barrier; excluded are the rooms that spoke before it, and those listed up to it. */
  ghost predicate BarrierAt(d: Search, seen: seq<WireItem>, b: nat) {
    && b < |seen| && IsBarrier(seen[b]) && NoBarrier(seen[..b])
    && forall r :: Mentions(seen[..b], r) || Listed(seen[..b + 1], r) <==> r in d.excluded
  }

  /** Before the barrier every room that spoke or was listed is excluded, and no other. */
  ghost predicate NoBarrierYet(d: Search, seen: seq<WireItem>) {
    NoBarrier(seen) && forall r :: Mentions(seen, r) || Listed(seen, r) <==> r in d.excluded
  }

  ghost predicate SearchOk(d: Search, players: Players, seen: seq<WireItem>) {
    && (forall r :: RoomOk(d, players, seen, r))
    && (if d.bootstrapped then exists b: nat :: BarrierAt(d, seen, b) else NoBarrierYet(d, seen))
  }

  lemma ListedAppend(seen: seq<WireItem>, item: WireItem, roomId: string)
    ensures Listed(seen + [item], roomId) <==> Listed(seen, roomId) || Lists(item, roomId)
  {
    var all := seen + [item];
    assert forall i :: 0 <= i < |seen| ==> all[i] == seen[i];
    if Lists(item, roomId) { assert all[|seen|] == item; }
  }

  lemma MentionsAppend(seen: seq<WireItem>, item: WireItem, roomId: string)
    ensures Mentions(seen + [item], roomId) <==> Mentions(seen, roomId) || (item.Room? && item.roomId == roomId)
  {
    var all := seen + [item];
    assert forall i :: 0 <= i < |seen| ==> all[i] == seen[i];
    if item.Room? && item.roomId == roomId { assert all[|seen|] == item; }
  }

  lemma BarrierStays(d: Search, t: Search, seen: seq<WireItem>, item: WireItem)
    requires (exists b: nat :: BarrierAt(d, seen, b)) && d.excluded == t.excluded
    ensures exists b: nat :: BarrierAt(t, seen + [item], b)
  {
    hide Mentions, Listed, NoBarrier;
    var b: nat :| BarrierAt(d, seen, b);
    var all := seen + [item];
    assert all[b] == seen[b] && all[..b] == seen[..b] && all[..b + 1] == seen[..b + 1];
    assert BarrierAt(t, all, b);
  }

  /** Looking at a line that is not a room's keeps the candidates; rooms may be excluded before the barrier only. */
  ghost predicate GlobalOnly(d: Search, t: Search, item: WireItem) {
    && t.candidates == d.candidates && d.excluded <= t.excluded
    && (d.bootstrapped ==> t.bootstrapped && t.excluded == d.excluded)
    && (!d.bootstrapped ==>
          && (t.bootstrapped <==> IsBarrier(item))
          && forall r :: r in t.excluded <==> r in d.excluded || Lists(item, r))
  }

  lemma GlobalLook(d: Search, players: Players, sends: Sends, item: WireItem)
    requires !item.Room?
    ensures !Look(d, players, sends, item).Found?
    ensures Look(d, players, sends, item).Looking? ==> GlobalOnly(d, Look(d, players, sends, item).search, item)
  {}

  lemma {:induction false} GlobalKeeps(d: Search, t: Search, players: Players, seen: seq<WireItem>, item: WireItem)
    requires SearchOk(d, players, seen) && GlobalOnly(d, t, item) && !item.Room?
    ensures SearchOk(t, players, seen + [item])
  {
    hide Mentions, Replay, RoomLines, Listed, Lists, IsBarrier, BarrierAt;
    forall r ensures RoomOk(t, players, seen + [item], r) {
      assert RoomOk(d, players, seen, r);
      MentionsAppend(seen, item, r);
      RoomLinesAppend(seen, item, r);
    }
    if d.bootstrapped {
      BarrierStays(d, t, seen, item);
    } else {
      BeforeBarrier(d, players, seen);
      forall r ensures Mentions(seen, r) || Listed(seen + [item], r) <==> r in t.excluded {
        ListedAppend(seen, item, r);
      }
      if t.bootstrapped {
        BarrierHere(t, seen, item);
      } else {
        NotYet(t, seen, item);
      }
    }
  }

  lemma BarrierHere(t: Search, seen: seq<WireItem>, item: WireItem)
    requires IsBarrier(item) && NoBarrier(seen)
    requires forall r :: Mentions(seen, r) || Listed(seen + [item], r) <==> r in t.excluded
    ensures BarrierAt(t, seen + [item], |seen|)
  {
    hide Mentions, Listed, NoBarrier;
    var all := seen + [item];
    assert all[|seen|] == item && all[..|seen|] == seen && all[..|seen| + 1] == all;
  }

  lemma NotYet(t: Search, seen: seq<WireItem>, item: WireItem)
    requires !IsBarrier(item) && NoBarrier(seen) && !item.Room?
    requires forall r :: Mentions(seen, r) || Listed(seen + [item], r) <==> r in t.excluded
    ensures NoBarrierYet(t, seen + [item])
  {
    forall r ensures Mentions(seen + [item], r) <==> Mentions(seen, r) { MentionsAppend(seen, item, r); }
    NoBarrierMore(seen, item);
    hide Mentions, Listed, NoBarrier;
  }

  /** The search after a room line that was not refused. */
  lemma {:induction false} RoomLook(
    d: Search, players: Players, sends: Sends, seen: seq<WireItem>, roomId: string, payload: Payload)
    requires SearchOk(d, players, seen)
    ensures var p, now := ReadRoomLine(d, players, roomId, payload), seen + [Room(roomId, payload)];
            && (p.Looking? ==> SearchOk(p.search, players, now))
            && (p.Found? ==> && SearchOk(p.last, players, now) && p.last.bootstrapped
                             && p.candidate.roomId == roomId && roomId in p.last.candidates
                             && p.last.candidates[roomId] == p.candidate && Matches(p.candidate, players))
  {
    hide Mentions, Receive, Matches, SearchOk, Replay, RoomLines, Listed, NoBarrier, BarrierAt;
    BeforeBarrier(d, players, seen);
    NoBarrierMore(seen, Room(roomId, payload));
    ReplayOfNothing(players, roomId);
    assert RoomOk(d, players, seen, roomId) by { OneRoomOk(d, players, seen, roomId); }
    var p, now := ReadRoomLine(d, players, roomId, payload), seen + [Room(roomId, payload)];
    var item := Room(roomId, payload);
    if p.Looking? || p.Found? {
      var t := if p.Looking? then p.search else p.last;
      forall r ensures RoomOk(t, players, now, r) {
        OneRoomOk(d, players, seen, r);
        MentionsAppend(seen, item, r);
        RoomLinesAppend(seen, item, r);
        if r == roomId && d.bootstrapped && roomId !in d.excluded {
          if roomId !in d.candidates { SilentRoom(seen, roomId); }
          ReplayAppend(roomId, players, RoomLines(seen, roomId), payload);
        }
      }
      if d.bootstrapped {
        BarrierStays(d, t, seen, item);
      } else {
        forall r ensures Mentions(now, r) || Listed(now, r) <==> r in t.excluded {
          ListedAppend(seen, item, r);
          MentionsAppend(seen, item, r);
        }
      }
      SearchOkFrom(t, players, now);
      if p.Found? {
        assert RoomOk(t, players, now, roomId);
        ReplayLines(roomId, players, RoomLines(now, roomId));
      }
    }
  }

  lemma OneRoomOk(d: Search, players: Players, seen: seq<WireItem>, roomId: string)
    requires SearchOk(d, players, seen)
    ensures RoomOk(d, players, seen, roomId)
  {
    hide RoomOk;
  }

  lemma SearchOkFrom(d: Search, players: Players, seen: seq<WireItem>)
    requires forall r :: RoomOk(d, players, seen, r)
    requires if d.bootstrapped then exists b: nat :: BarrierAt(d, seen, b) else NoBarrierYet(d, seen)
    ensures SearchOk(d, players, seen)
  {
    hide RoomOk, BarrierAt, NoBarrierYet;
  }

  lemma BeforeBarrier(d: Search, players: Players, seen: seq<WireItem>)
    requires SearchOk(d, players, seen)
    ensures if d.bootstrapped then exists b: nat :: BarrierAt(d, seen, b) else NoBarrierYet(d, seen)
  {
    hide RoomOk, BarrierAt, NoBarrierYet;
  }

  lemma NoBarrierMore(seen: seq<WireItem>, item: WireItem)
    requires !IsBarrier(item)
    ensures NoBarrier(seen) ==> NoBarrier(seen + [item])
  {}

  lemma {:induction false} SearchKeeps(
    d: Search, players: Players, sends: Sends, seen: seq<WireItem>, wire: seq<WireItem>)
    requires SearchOk(d, players, seen)
    ensures var p, n := LookOn(d, players, sends, wire), Consumed(d, players, sends, wire);
            p.Found? ==>
              && SearchOk(p.last, players, seen + wire[..n]) && p.last.bootstrapped
              && p.candidate.roomId in p.last.candidates
              && p.last.candidates[p.candidate.roomId] == p.candidate && Matches(p.candidate, players)
    decreases |wire|
  {
    hide SearchOk, Look, Matches;
    if wire != [] {
      var p := Look(d, players, sends, wire[0]);
      if wire[0].Room? {
        assert p == ReadRoomLine(d, players, wire[0].roomId, wire[0].payload) by {
          RoomIsRead(d, players, sends, wire[0]);
        }
        RoomLook(d, players, sends, seen, wire[0].roomId, wire[0].payload);
      } else {
        GlobalLook(d, players, sends, wire[0]);
        if p.Looking? { GlobalKeeps(d, p.search, players, seen, wire[0]); }
      }
      assert wire[..1] == [wire[0]];
      if p.Looking? {
        SearchKeeps(p.search, players, sends, seen + [wire[0]], wire[1..]);
        var n := Consumed(p.search, players, sends, wire[1..]);
        assert seen + [wire[0]] + wire[1..][..n] == seen + wire[..n + 1];
      }
    }
  }

  lemma RoomIsRead(d: Search, players: Players, sends: Sends, item: WireItem)
    requires item.Room?
    ensures Look(d, players, sends, item) == ReadRoomLine(d, players, item.roomId, item.payload)
  {
    hide ReadRoomLine;
  }

  lemma InitialSearchOk(players: Players)
    ensures SearchOk(InitialSearch(), players, [])
  {}

  /** What was sent to the server: nothing but the user-details query before the barrier, the whole challenge after. */
  ghost predicate CommandsOk(d: Search) {
    d.commands == if d.bootstrapped then [AskUserDetails, UseTeam, SendChallenge] else [AskUserDetails]
  }

  /** The commands of a setup that ended: a prefix of the three, and before the barrier nothing but the query. */
  ghost predicate CommandsSoFar(last: Search) {
    && last.commands <= [AskUserDetails, UseTeam, SendChallenge]
    && if last.bootstrapped then |last.commands| >= 2 else last.commands == [AskUserDetails]
  }

  lemma LookKeepsCommands(d: Search, players: Players, sends: Sends, item: WireItem)
    requires CommandsOk(d)
    ensures match Look(d, players, sends, item)
            case Looking(t) => CommandsOk(t)
            case Found(_, last) => CommandsOk(last) && last.bootstrapped
            case SetupEnds(_, last) => CommandsSoFar(last)
  {
    hide Receive, Matches;
  }

  /** The challenge is sent at most once, after the barrier, and was sent whenever a room is found. */
  lemma {:induction false} ChallengeIsSentOnce(d: Search, players: Players, sends: Sends, wire: seq<WireItem>)
    requires CommandsOk(d)
    ensures match LookOn(d, players, sends, wire)
            case Looking(t) => CommandsOk(t)
            case Found(_, last) => last.commands == [AskUserDetails, UseTeam, SendChallenge]
            case SetupEnds(_, last) => CommandsSoFar(last)
    decreases |wire|
  {
    hide Look;
    if wire != [] {
      LookKeepsCommands(d, players, sends, wire[0]);
      var p := Look(d, players, sends, wire[0]);
      if p.Looking? { ChallengeIsSentOnce(p.search, players, sends, wire[1..]); }
    }
  }

  // ----- hand-off -----

  /** The stream given to the session is a room's lines up to position `m` of the wire, then the fault met there. */
  ghost predicate StreamUpTo(
    players: Players, wire: seq<WireItem>, roomId: string, stream: seq<StreamItem>, m: nat)
  {
    && m <= |wire|
    && Replay(roomId, players, RoomLines(wire[..m], roomId)).Ok?
    && var lines := AsLines(roomId, RoomLines(wire[..m], roomId));
       if m == |wire| then stream == lines
       else if wire[m].WireFault? then stream == lines + [StreamFault(wire[m].fault)]
       else
         && wire[m].Room? && wire[m].roomId == roomId
         && Replay(roomId, players, RoomLines(wire[..m + 1], roomId)).Err?
         && stream == lines + [StreamFault(Replay(roomId, players, RoomLines(wire[..m + 1], roomId)).error)]
  }

  lemma {:induction false} HandOffFollowsRoom(
    c: Candidate, players: Players, before: seq<WireItem>, rest: seq<WireItem>) returns (m: nat)
    requires Replay(c.roomId, players, RoomLines(before, c.roomId)) == Ok(c)
    ensures StreamUpTo(players, before + rest, c.roomId, SessionStream(c, players, rest), m)
    ensures |before| <= m <= |before + rest|
    decreases |rest|
  {
    hide Replay, Receive, RoomLines;
    var wire := before + rest;
    m := |before|;
    assert wire[..m] == before;
    ReplayLines(c.roomId, players, RoomLines(before, c.roomId));
    if rest == [] {
      assert SessionStream(c, players, rest) == AsLines(c.roomId, c.lines);
    } else {
      var item := rest[0];
      assert wire[m] == item && wire[..m + 1] == before + [item] && before + [item] + rest[1..] == wire;
      RoomLinesAppend(before, item, c.roomId);
      if item.Room? && item.roomId == c.roomId {
        ReplayAppend(c.roomId, players, RoomLines(before, c.roomId), item.payload);
        if Receive(c, players, item.payload).Ok? {
          var next := Receive(c, players, item.payload).value;
          ReceiveKeeps(c, players, item.payload);
          m := HandOffFollowsRoom(next, players, before + [item], rest[1..]);
          LinesThenRest(c, next, players, item.payload, rest[1..]);
        }
      } else if !item.WireFault? {
        assert RoomLines(before + [item], c.roomId) == RoomLines(before, c.roomId);
        m := HandOffFollowsRoom(c, players, before + [item], rest[1..]);
      }
    }
  }

  lemma LinesThenRest(c: Candidate, next: Candidate, players: Players, payload: Payload, rest: seq<WireItem>)
    requires next.roomId == c.roomId && next.lines == c.lines + [payload]
    ensures AsLines(c.roomId, c.lines) + ([Line(RoomLine(Some(c.roomId), payload))] + HandOff(next, players, rest))
         == SessionStream(next, players, rest)
  {
    assert AsLines(c.roomId, next.lines) == AsLines(c.roomId, c.lines) + [Line(RoomLine(Some(c.roomId), payload))];
  }

  /** Hand-off stream equality: the session of a discovered room gets exactly that room's part of the whole wire, in
      order and from its first line on, none of it older than the bootstrap barrier, the server never having listed the
      room up to there, until the wire ends or faults or a
      line of the room is the first to conflict with its metadata. */
  lemma {:induction false} SessionGetsItsRoom(players: Players, sends: Sends, wire: seq<WireItem>)
    returns (b: nat, m: nat)
    requires LookOn(InitialSearch(), players, sends, wire).Found?
    ensures var p, n := LookOn(InitialSearch(), players, sends, wire), Consumed(InitialSearch(), players, sends, wire);
            && b < n <= m <= |wire| && IsBarrier(wire[b]) && NoBarrier(wire[..b])
            && !Mentions(wire[..b], p.candidate.roomId) && !Listed(wire[..b + 1], p.candidate.roomId)
            && p.candidate.lines == RoomLines(wire[..n], p.candidate.roomId)
            && StreamUpTo(players, wire, p.candidate.roomId, SessionStream(p.candidate, players, wire[n..]), m)
  {
    hide LookOn, Look, Replay, RoomLines, Matches, SessionStream, StreamUpTo, Mentions, Listed, NoBarrier, SearchOk,
         Consumed;
    InitialSearchOk(players);
    var p, n := LookOn(InitialSearch(), players, sends, wire), Consumed(InitialSearch(), players, sends, wire);
    SearchKeeps(InitialSearch(), players, sends, [], wire);
    var c := p.candidate;
    var seen := wire[..n];
    assert [] + seen == seen;
    CandidateIsReplay(p.last, players, seen, c.roomId);
    ReplayLines(c.roomId, players, RoomLines(seen, c.roomId));
    b := BarrierBefore(p.last, players, seen, c.roomId);
    assert seen[..b] == wire[..b] && seen[..b + 1] == wire[..b + 1] && seen + wire[n..] == wire;
    m := HandOffFollowsRoom(c, players, seen, wire[n..]);
  }

  lemma BarrierBefore(d: Search, players: Players, seen: seq<WireItem>, roomId: string) returns (b: nat)
    requires SearchOk(d, players, seen) && d.bootstrapped && roomId in d.candidates
    ensures b < |seen| && IsBarrier(seen[b]) && NoBarrier(seen[..b])
    ensures !Mentions(seen[..b], roomId) && !Listed(seen[..b + 1], roomId)
  {
    hide Mentions, Replay, RoomLines, Listed, NoBarrier;
    assert RoomOk(d, players, seen, roomId);
    hide RoomOk;
    b :| BarrierAt(d, seen, b);
  }

  lemma CandidateIsReplay(d: Search, players: Players, seen: seq<WireItem>, roomId: string)
    requires SearchOk(d, players, seen) && roomId in d.candidates
    ensures Replay(roomId, players, RoomLines(seen, roomId)) == Ok(d.candidates[roomId]) && roomId !in d.excluded
  {
    hide Replay, RoomLines, Mentions;
    assert RoomOk(d, players, seen, roomId);
  }

  // ----- metadata -----

  /** The wire tells metadata lines by their prefix; the parser yields a declaration for no other line. */
  predicate PrefixConsistent(payload: Payload) {
    payload.BattleLine? && payload.parsed.Ok?
    && (var body := payload.parsed.value;
        body.PlayerDeclared? || body.GameTypeDeclared? || body.GenerationDeclared? || body.TierDeclared?)
    ==> payload.wire.Metadata?
  }

  /** What a declaration says agrees with the candidate. */
  predicate Agrees(c: Candidate, body: EventBody) {
    match body
    case PlayerDeclared(side, _, displayName) => side in c.players && c.players[side] == ToId(displayName)
    case GameTypeDeclared(gameType) => c.gameType == Some(gameType)
    case GenerationDeclared(generation) => c.generation == Some(generation)
    case TierDeclared(tier) => c.tier == Some(tier)
    case _ => true
  }

  predicate Declares(c: Candidate, payload: Payload) {
    payload.BattleLine? && payload.wire.Metadata? && payload.parsed.Ok? ==> Agrees(c, payload.parsed.value)
  }

  /** What a candidate already knows stays. */
  ghost predicate Remembers(c: Candidate, next: Candidate) {
    && (forall side :: side in c.players ==> side in next.players && next.players[side] == c.players[side])
    && (c.gameType.Some? ==> next.gameType == c.gameType)
    && (c.generation.Some? ==> next.generation == c.generation)
    && (c.tier.Some? ==> next.tier == c.tier)
    && (c.metadataError.Some? ==> next.metadataError == c.metadataError)
    && (c.initialized ==> next.initialized)
  }

  lemma ReceiveRemembers(c: Candidate, players: Players, payload: Payload)
    requires Receive(c, players, payload).Ok?
    ensures var next := Receive(c, players, payload).value;
            && Remembers(c, next) && CandidateFailure(next, players).None?
            && (next.metadataError.None? ==> Declares(next, payload))
  {
    hide CandidateFailure, ToId;
  }

  lemma RemembersDeclared(c: Candidate, next: Candidate, payload: Payload)
    requires Remembers(c, next) && Declares(c, payload)
    ensures Declares(next, payload)
  {
    hide ToId;
  }

  /** A candidate without a metadata error agrees with every declaration among its lines. */
  lemma {:induction false} ReplayAgrees(roomId: string, players: Players, payloads: seq<Payload>)
    requires Replay(roomId, players, payloads).Ok?
    requires Replay(roomId, players, payloads).value.metadataError.None?
    ensures forall i :: 0 <= i < |payloads| ==> Declares(Replay(roomId, players, payloads).value, payloads[i])
  {
    hide Receive, Declares;
    if payloads != [] {
      var last := |payloads| - 1;
      var c := Replay(roomId, players, payloads[..last]).value;
      var next := Replay(roomId, players, payloads).value;
      ReceiveRemembers(c, players, payloads[last]);
      ReplayAgrees(roomId, players, payloads[..last]);
      forall i | 0 <= i < |payloads| ensures Declares(next, payloads[i]) {
        if i < last {
          assert payloads[..last][i] == payloads[i];
          RemembersDeclared(c, next, payloads[i]);
        }
      }
    }
  }

  /** Once a candidate matches, every line it accepts leaves it matching, with the same two players. */
  lemma {:induction false} MatchIsStable(c: Candidate, players: Players, payload: Payload)
    requires Matches(c, players) && Receive(c, players, payload).Ok?
    ensures var next := Receive(c, players, payload).value;
            Matches(next, players) && next.players == c.players && next.metadataError.None?
  {
    ReceiveRemembers(c, players, payload);
    PlayersStay(c, players, payload);
    hide Receive;
  }

  lemma PlayersStay(c: Candidate, players: Players, payload: Payload)
    requires c.players.Keys == {"p1", "p2"} && Receive(c, players, payload).Ok?
    ensures Receive(c, players, payload).value.players == c.players
  {
    hide CandidateFailure, ToId;
  }

  lemma {:induction false} ReplayMatches(
    roomId: string, players: Players, first: seq<Payload>, rest: seq<Payload>)
    requires Replay(roomId, players, first).Ok? && Matches(Replay(roomId, players, first).value, players)
    requires CandidateFailure(Replay(roomId, players, first).value, players).None?
    requires Replay(roomId, players, first + rest).Ok?
    ensures Matches(Replay(roomId, players, first + rest).value, players)
    ensures Replay(roomId, players, first + rest).value.metadataError.None?
    decreases |rest|
  {
    hide Receive;
    if rest == [] {
      assert first + rest == first;
    } else {
      var last := |rest| - 1;
      assert first + rest == (first + rest[..last]) + [rest[last]];
      ReplayAppend(roomId, players, first + rest[..last], rest[last]);
      ReplayMatches(roomId, players, first, rest[..last]);
      MatchIsStable(Replay(roomId, players, first + rest[..last]).value, players, rest[last]);
    }
  }

  // ----- what the session then knows -----

  /** The declarations a matched room can still deliver. */
  predicate NinthGenSingles(body: EventBody) {
    && (body.GameTypeDeclared? ==> body.gameType == GAME_TYPE)
    && (body.GenerationDeclared? ==> body.generation == GENERATION)
    && (body.TierDeclared? ==> body.tier == TIER)
  }

  ghost predicate Supported(item: StreamItem) {
    BodyOf(PayloadOf(item)).Some? ==> NinthGenSingles(BodyOf(PayloadOf(item)).value)
  }

  predicate KnownMetadata(state: ObservedState) {
    && (state.generation.Some? ==> state.generation.value == GENERATION)
    && (state.gameType.Some? ==> state.gameType.value == GAME_TYPE)
    && (state.tier.Some? ==> state.tier.value == TIER)
  }

  lemma {:induction false} ReduceKeepsMetadata(state: ObservedState, eventIndex: int, body: EventBody)
    requires KnownMetadata(state) && NinthGenSingles(body) && Reduce(state, eventIndex, body).Ok?
    ensures KnownMetadata(Reduce(state, eventIndex, body).value)
  {
    if RetryEvent(body) {
      hide SwitchIn, DeclarePlayer;
      var dated := state.(eventIndex := eventIndex);
      if SwitchEvent(body) {
        SwitchFacts(dated, body.ref, body.details, body.hp);
      } else if body.PlayerDeclared? {
        PlayerFacts(dated, body.playerSide, body.userId, body.displayName);
      }
    } else {
      hide Reduce, HasActive;
      FactsAppearOnRetryEvents(state, eventIndex, body);
    }
  }

  ghost predicate SameMetadata(before: ObservedState, after: Reduced<ObservedState>) {
    after.Ok? ==> after.value.generation == before.generation && after.value.gameType == before.gameType
                  && after.value.tier == before.tier
  }

  lemma SwitchFacts(state: ObservedState, ref: PokemonRef, details: string, token: HpToken)
    ensures SameMetadata(state, SwitchIn(state, ref, details, token))
  {
    hide ActivatePokemon, TokenToObservation;
  }

  lemma PlayerFacts(state: ObservedState, side: string, userId: string, displayName: string)
    ensures SameMetadata(state, DeclarePlayer(state, side, userId, displayName))
  {}

  predicate MetadataReason(reason: RejectReason) {
    reason.GenerationMismatch? || reason.GameTypeMismatch? || reason.TierMismatch?
  }

  lemma FilterCons(c: char, rest: string)
    ensures Filter(InTierName, [c] + rest) == (if InTierName(c) then [c] else []) + Filter(InTierName, rest)
  {
    assert ([c] + rest)[1..] == rest;
  }

  lemma {:induction false} FilterKept(s: string)
    requires forall i :: 0 <= i < |s| ==> InTierName(s[i])
    ensures Filter(InTierName, s) == s
  {
    if s != [] {
      FilterKept(s[1..]);
    }
  }

  lemma TierPieces()
    ensures WithoutBlanks("[gen 9] ou") == "gen9ou"
  {
    hide Filter;
    FilterConcat(InTierName, "[gen 9]", " ou");
    FilterConcat(InTierName, "[gen", " 9]");
    assert "[gen 9]" + " ou" == "[gen 9] ou" && "[gen" + " 9]" == "[gen 9]";
    HeadPiece();
    TailPieces();
  }

  lemma HeadPiece()
    ensures Filter(InTierName, "[gen") == "gen"
  {
    hide Filter;
    FilterCons('[', "gen");
    FilterKept("gen");
    assert ['['] + "gen" == "[gen";
  }

  lemma TailPieces()
    ensures Filter(InTierName, " 9]") == "9" && Filter(InTierName, " ou") == "ou"
  {
    hide Filter;
    FilterCons(' ', "9]");
    FilterCons('9', "]");
    FilterCons(']', "");
    FilterKept("");
    FilterCons(' ', "ou");
    FilterKept("ou");
    assert [' '] + "9]" == " 9]" && ['9'] + "]" == "9]" && [' '] + "ou" == " ou" && [']'] + "" == "]";
  }

  lemma KnownTexts()
    ensures Lower(GAME_TYPE) == "singles" && TierMatches(TIER)
  {
    TierPieces();
    hide WithoutBlanks;
    assert Lower(TIER) == "[gen 9] ou";
  }

  lemma NoMetadataRejection(
    roomId: string, request: DecisionRequest, state: ObservedState, latest: Option<int>, reason: RejectReason)
    requires KnownMetadata(state) && Reconcile(roomId, request, state, latest) == Reject(reason)
    ensures !MetadataReason(reason)
  {
    KnownTexts();
    hide KindsAllowed, HasDefault, OrdersCoverTeam, Lower, TierMatches, ReconcileTeam;
    if state.ourSide.Some? {
      TeamReasons(request, state.Side(state.ourSide.value));
    }
  }

  lemma TeamReasons(request: DecisionRequest, own: SideView)
    ensures var r := ReconcileTeam(request, own); r.Reject? ==> !MetadataReason(r.reason)
  {
    hide KindsAllowed, HasDefault, OrdersCoverTeam;
  }

  ghost predicate NoMetadataNotes(notes: seq<Note>) {
    forall i :: 0 <= i < |notes| && notes[i].Rejection? ==> !MetadataReason(notes[i].reason)
  }

  lemma NotedKeeps(cfg: Config, s: Session, t: Session)
    requires NotedAtMostOne(cfg, s, t) && NoMetadataNotes(s.notes) && KnownMetadata(t.state)
    ensures NoMetadataNotes(t.notes)
  {
    hide Reconcile, MetadataReason;
    if t.notes != s.notes && t.notes[|s.notes|].Rejection? {
      var note := t.notes[|s.notes|];
      NoMetadataRejection(cfg.roomId, note.request, t.state, note.earlier, note.reason);
    }
  }

  lemma NextKeepsMetadata(cfg: Config, state: ObservedState, item: StreamItem)
    requires Supported(item) && KnownMetadata(state)
    ensures KnownMetadata(NextState(state, SeenBy(cfg, item)))
  {
    hide Reduce, KnownMetadata, NinthGenSingles;
    var body := BodyOf(SeenBy(cfg, item));
    if body.Some? && Reduce(state, state.eventIndex + 1, body.value).Ok? {
      ReduceKeepsMetadata(state, state.eventIndex + 1, body.value);
    }
  }

  lemma StepKeepsMetadata(cfg: Config, s: Session, item: StreamItem)
    requires Inv(cfg, s) && Supported(item) && KnownMetadata(s.state) && NoMetadataNotes(s.notes)
    ensures KnownMetadata(Step(cfg, s, item).state) && NoMetadataNotes(Step(cfg, s, item).notes)
  {
    hide Inv, StateOk, Step, NextState, KnownMetadata, Supported, Grew, NotedAtMostOne, NoMetadataNotes;
    InvIsCurrent(cfg, s);
    StepEffects(cfg, s, item);
    NextKeepsMetadata(cfg, s.state, item);
    var t := Step(cfg, s, item);
    NotedKeeps(cfg, s.(state := t.state, controlCount := t.controlCount), t);
  }

  lemma {:induction false} RunKeepsMetadata(cfg: Config, s: Session, items: seq<StreamItem>)
    requires Inv(cfg, s) && Admissible(items) && KnownMetadata(s.state) && NoMetadataNotes(s.notes)
    requires forall i :: 0 <= i < |items| ==> Supported(items[i])
    ensures KnownMetadata(Run(cfg, s, items).state) && NoMetadataNotes(Run(cfg, s, items).notes)
    decreases |items|
  {
    hide Inv, Step, KnownMetadata, NoMetadataNotes, Supported;
    if items != [] && !s.done {
      StepKeepsMetadata(cfg, s, items[0]);
      StepKeeps(cfg, s, items[0]);
      assert forall i :: 0 <= i < |items[1..]| ==> items[1..][i] == items[i + 1];
      RunKeepsMetadata(cfg, Step(cfg, s, items[0]), items[1..]);
    }
  }

  // ----- coordinated runs -----

  ghost predicate WireConsistent(wire: seq<WireItem>) {
    forall i :: 0 <= i < |wire| && wire[i].Room? ==>
      PrefixConsistent(wire[i].payload) && Coherent(Line(RoomLine(Some(wire[i].roomId), wire[i].payload)))
  }

  lemma {:induction false} RoomLinesOf(wire: seq<WireItem>, roomId: string)
    requires WireConsistent(wire)
    ensures forall i :: 0 <= i < |RoomLines(wire, roomId)| ==>
              && PrefixConsistent(RoomLines(wire, roomId)[i])
              && Coherent(Line(RoomLine(Some(roomId), RoomLines(wire, roomId)[i])))
  {
    hide PrefixConsistent, Coherent;
    if wire != [] {
      var last := |wire| - 1;
      assert WireConsistent(wire[..last]);
      RoomLinesOf(wire[..last], roomId);
      assert wire[last].Room? ==> PrefixConsistent(wire[last].payload);
    }
  }

  lemma DeclaredIsSupported(c: Candidate, players: Players, roomId: string, payload: Payload)
    requires Matches(c, players) && Declares(c, payload) && PrefixConsistent(payload)
    ensures Supported(Line(RoomLine(Some(roomId), payload)))
  {
    hide ToId, ExactPlayers;
  }

  lemma {:induction false} StreamIsSupported(
    players: Players, wire: seq<WireItem>, roomId: string, first: seq<Payload>, stream: seq<StreamItem>, m: nat)
    requires WireConsistent(wire) && StreamUpTo(players, wire, roomId, stream, m)
    requires first <= RoomLines(wire[..m], roomId)
    requires Replay(roomId, players, first).Ok? && Matches(Replay(roomId, players, first).value, players)
    requires CandidateFailure(Replay(roomId, players, first).value, players).None?
    ensures Admissible(stream) && forall i :: 0 <= i < |stream| ==> Supported(stream[i])
  {
    hide Replay, RoomLines, Matches, CandidateFailure, Declares, PrefixConsistent, Supported, Coherent;
    var lines := RoomLines(wire[..m], roomId);
    assert WireConsistent(wire[..m]);
    RoomLinesOf(wire[..m], roomId);
    assert lines == first + lines[|first|..];
    ReplayMatches(roomId, players, first, lines[|first|..]);
    ReplayAgrees(roomId, players, lines);
    forall i | 0 <= i < |stream| ensures Supported(stream[i]) && Coherent(stream[i]) {
      if i < |lines| {
        assert stream[i] == AsLines(roomId, lines)[i];
        DeclaredIsSupported(Replay(roomId, players, lines).value, players, roomId, lines[i]);
      } else {
        assert stream[i].StreamFault?;
        FaultsAreFine(stream[i]);
      }
    }
  }

  lemma FaultsAreFine(item: StreamItem)
    requires item.StreamFault?
    ensures Supported(item) && Coherent(item)
  {}

  lemma FoundHasNoFailure(players: Players, roomId: string, payloads: seq<Payload>)
    requires payloads != [] && Replay(roomId, players, payloads).Ok?
    ensures CandidateFailure(Replay(roomId, players, payloads).value, players).None?
  {
    hide ReadMetadata;
  }

  lemma MatchedIsInitialized(players: Players, roomId: string)
    ensures !Matches(NewCandidate(roomId), players)
  {}

  /** Metadata agreement: in a coordinated run the session is only shown generation 9, singles and [Gen 9] OU, so its
      reconciler never rejects a request for generation, game type or tier. */
  lemma {:induction false} CoordinatedRunsNeverMismatch(
    cfg: Config, players: Players, sends: Sends, wire: seq<WireItem>)
    requires WireConsistent(wire)
    requires LookOn(InitialSearch(), players, sends, wire).Found?
    ensures var p, n := LookOn(InitialSearch(), players, sends, wire), Consumed(InitialSearch(), players, sends, wire);
            var stream := SessionStream(p.candidate, players, wire[n..]);
            var s := After(cfg, InitialState(players.ours), stream);
            && Admissible(stream)
            && (forall i :: 0 <= i < |stream| ==> Supported(stream[i]))
            && KnownMetadata(s.state)
            && forall n :: n in s.notes && n.Rejection? ==>
                 !n.reason.GenerationMismatch? && !n.reason.GameTypeMismatch? && !n.reason.TierMismatch?
  {
    hide LookOn, Look, Replay, RoomLines, Matches, SessionStream, StreamUpTo, Mentions, Supported, Inv, StateOk, Run,
         WireConsistent, Admissible, KnownMetadata;
    var p, n := LookOn(InitialSearch(), players, sends, wire), Consumed(InitialSearch(), players, sends, wire);
    var c := p.candidate;
    var b, m := SessionGetsItsRoom(players, sends, wire);
    FoundIsReplay(players, sends, wire);
    RoomLinesMonotone(wire, c.roomId, n, m);
    StreamIsSupported(players, wire, c.roomId, c.lines, SessionStream(c, players, wire[n..]), m);
    InitialStateOk(players.ours);
    InitialInv(cfg, InitialState(players.ours));
    assert KnownMetadata(InitialState(players.ours)) by { InitialKnowsNothing(players.ours); }
    var stream := SessionStream(c, players, wire[n..]);
    RunKeepsMetadata(cfg, InitialSession(InitialState(players.ours)), stream);
  }

  lemma InitialKnowsNothing(ourUserId: string)
    ensures KnownMetadata(InitialState(ourUserId))
  {}

  lemma {:induction false} FoundIsReplay(players: Players, sends: Sends, wire: seq<WireItem>)
    requires LookOn(InitialSearch(), players, sends, wire).Found?
    ensures var c := LookOn(InitialSearch(), players, sends, wire).candidate;
            && Replay(c.roomId, players, c.lines) == Ok(c) && Matches(c, players)
            && CandidateFailure(c, players).None?
  {
    hide LookOn, Look, Replay, RoomLines, Matches, Mentions, RoomOk, CandidateFailure;
    InitialSearchOk(players);
    var p, n := LookOn(InitialSearch(), players, sends, wire), Consumed(InitialSearch(), players, sends, wire);
    SearchKeeps(InitialSearch(), players, sends, [], wire);
    assert [] + wire[..n] == wire[..n];
    var c := p.candidate;
    CandidateIsReplay(p.last, players, wire[..n], c.roomId);
    ReplayLines(c.roomId, players, RoomLines(wire[..n], c.roomId));
    ReplayOfNothing(players, c.roomId);
    MatchedIsInitialized(players, c.roomId);
    assert c.lines != [];
    FoundHasNoFailure(players, c.roomId, c.lines);
  }

  lemma {:induction false} RoomLinesMonotone(wire: seq<WireItem>, roomId: string, n: nat, m: nat)
    requires n <= m <= |wire|
    ensures RoomLines(wire[..n], roomId) <= RoomLines(wire[..m], roomId)
  {
    if n < m {
      RoomLinesMonotone(wire, roomId, n, m - 1);
      assert wire[..m] == wire[..m - 1] + [wire[m - 1]];
      RoomLinesAppend(wire[..m - 1], wire[m - 1], roomId);
    }
  }
}
