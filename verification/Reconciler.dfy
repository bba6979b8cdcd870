/** Whether a request agrees with the public state: accept it, wait for public facts, or reject it. */
module Reconciler {
  import opened Basics
  import opened ObservedStates
  import opened ReducerInvariants
  import opened Submissions

  datatype PendingReason = OurSideUnknown | GenerationUnknown | GameTypeUnknown | TierUnknown | ActiveUnknown

  datatype RejectReason =
    | RoomMismatch | IdentityMismatch | StaleRqid | SideMismatch | GenerationMismatch | GameTypeMismatch
    | TierMismatch | TeamSizeOutOfRange | TeamSizeMismatch | WaitWithSubmissions | NoDefault | KindNotAllowed
    | NotAPermutation | NoActiveIdentity | ActiveMismatch

  datatype Reconciliation = Accept | Pending(waitsFor: PendingReason) | Reject(reason: RejectReason)

  predicate InTierName(c: char) {
    c != ' ' && c != '[' && c != ']'
  }

  function WithoutBlanks(s: string): string {
    Filter(InTierName, s)
  }

  predicate TierMatches(tier: string) {
    WithoutBlanks(Lower(tier)) == "gen9ou"
  }

  function AllowedKinds(kind: RequestKind): set<ActionKind> {
    match kind
    case MoveRequest => {Move, Switch, Default}
    case ForcedSwitch => {Switch, Default}
    case Revival => {Revive, Default}
    case TeamPreview => {Team, Default}
    case Wait => {}
  }

  predicate NeedsActive(kind: RequestKind) {
    kind.MoveRequest? || kind.ForcedSwitch? || kind.Revival?
  }

  predicate HasDefault(submissions: seq<BattleSubmission>) {
    exists i :: 0 <= i < |submissions| && submissions[i].kind.Default?
  }

  predicate KindsAllowed(request: DecisionRequest) {
    forall i :: 0 <= i < |request.safe.submissions| ==>
      request.safe.submissions[i].kind in AllowedKinds(request.kind)
  }

  /** `range(1, n + 1)`. */
  function Range(n: int): (r: seq<int>)
    ensures |r| == if n > 0 then n else 0
    ensures forall i :: 0 <= i < |r| ==> r[i] == i + 1
  {
    seq(if n > 0 then n else 0, i => i + 1)
  }

  function SlotSet(order: seq<int>): set<int> {
    set slot | slot in order
  }

  predicate OrdersCoverTeam(request: DecisionRequest) {
    forall i :: 0 <= i < |request.safe.submissions| && request.safe.submissions[i].kind.Team? ==>
      SlotSet(request.safe.submissions[i].teamOrder) == SlotSet(Range(request.teamMemberCount))
  }

  function ReconcileActive(request: DecisionRequest, own: SideView): Reconciliation {
    match FindActiveIn(own.pokemon)
    case None => Pending(ActiveUnknown)
    case Some(pv) =>
      if request.activeIdentity.None? then Reject(NoActiveIdentity)
      else if request.activeIdentity.value != pv.nickname then Reject(ActiveMismatch)
      else Accept
  }

  function FindActiveIn(pokemon: seq<PokemonView>): (r: Option<PokemonView>)
    ensures r.Some? <==> HasActive(pokemon)
  {
    if pokemon == [] then None
    else if pokemon[0].active then Some(pokemon[0])
    else FindActiveIn(pokemon[1..])
  }

  function ReconcileTeam(request: DecisionRequest, own: SideView): Reconciliation {
    if !(1 <= request.teamMemberCount <= 6) then Reject(TeamSizeOutOfRange)
    else if own.teamSize.Some? && request.teamMemberCount != own.teamSize.value then Reject(TeamSizeMismatch)
    else if request.kind.Wait? && request.safe.submissions != [] then Reject(WaitWithSubmissions)
    else if !request.kind.Wait? && !HasDefault(request.safe.submissions) then Reject(NoDefault)
    else if !KindsAllowed(request) then Reject(KindNotAllowed)
    else if request.kind.TeamPreview? && !OrdersCoverTeam(request) then Reject(NotAPermutation)
    else if NeedsActive(request.kind) then ReconcileActive(request, own)
    else Accept
  }

  /** `RequestReconciler.reconcile`. */
  function Reconcile(roomId: string, request: DecisionRequest, state: ObservedState, latestRqid: Option<int>)
    : Reconciliation
  {
    if request.identity.roomId != roomId then Reject(RoomMismatch)
    else if request.identity != request.safe.identity then Reject(IdentityMismatch)
    else if latestRqid.Some? && request.identity.rqid < latestRqid.value then Reject(StaleRqid)
    else if state.ourSide.None? then Pending(OurSideUnknown)
    else if request.side != state.ourSide.value then Reject(SideMismatch)
    else if state.generation.None? then Pending(GenerationUnknown)
    else if state.generation.value != 9 then Reject(GenerationMismatch)
    else if state.gameType.None? then Pending(GameTypeUnknown)
    else if Lower(state.gameType.value) != "singles" then Reject(GameTypeMismatch)
    else if state.tier.None? then Pending(TierUnknown)
    else if !TierMatches(state.tier.value) then Reject(TierMismatch)
    else ReconcileTeam(request, state.Side(state.ourSide.value))
  }

  /** A public fact every accepted request of this kind needs is not known yet. */
  predicate MissingFact(state: ObservedState, request: DecisionRequest) {
    || state.ourSide.None? || state.generation.None? || state.gameType.None? || state.tier.None?
    || ((request.kind.MoveRequest? || request.kind.ForcedSwitch? || request.kind.Revival?)
        && !HasActive(state.Side(state.ourSide.value).pokemon))
  }

  /** A request that must wait is waiting for a missing fact, and no request is accepted while one is missing. */
  lemma PendingMeansMissing(roomId: string, request: DecisionRequest, state: ObservedState, latestRqid: Option<int>)
    ensures Reconcile(roomId, request, state, latestRqid).Pending? ==> MissingFact(state, request)
    ensures MissingFact(state, request) ==> !Reconcile(roomId, request, state, latestRqid).Accept?
  {}

  predicate KindFits(asked: RequestKind, kind: ActionKind) {
    match asked
    case MoveRequest => kind.Move? || kind.Switch? || kind.Default?
    case ForcedSwitch => kind.Switch? || kind.Default?
    case Revival => kind.Revive? || kind.Default?
    case TeamPreview => kind.Team? || kind.Default?
    case Wait => false
  }

  /** Every choice is of a kind the request asks for, or the server's default. */
  predicate KindsFit(request: DecisionRequest) {
    forall i :: 0 <= i < |request.safe.submissions| ==> KindFits(request.kind, request.safe.submissions[i].kind)
  }

  /** The default is among the choices, unless there is nothing to choose. */
  predicate DefaultFits(request: DecisionRequest) {
    if request.kind.Wait? then request.safe.submissions == []
    else exists i :: 0 <= i < |request.safe.submissions| && request.safe.submissions[i].kind.Default?
  }

  /** The order names the slots 1..n and no other. */
  ghost predicate OrderFits(order: seq<int>, n: int) {
    forall slot :: slot in order <==> 1 <= slot <= n
  }

  /** A preview's team orders name each of the team's slots. */
  ghost predicate OrdersFit(request: DecisionRequest) {
    request.kind.TeamPreview? ==>
      forall i :: 0 <= i < |request.safe.submissions| && request.safe.submissions[i].kind.Team? ==>
        OrderFits(request.safe.submissions[i].teamOrder, request.teamMemberCount)
  }

  /** The first active member carries the nickname. */
  ghost predicate FieldedAs(pokemon: seq<PokemonView>, nickname: Option<string>) {
    nickname.Some?
    && exists i :: 0 <= i < |pokemon| && pokemon[i].active && pokemon[i].nickname == nickname.value
                   && forall j :: 0 <= j < i ==> !pokemon[j].active
  }

  /** The request is for this room, its safe set for the request, and it is not older than the latest accepted one. */
  predicate Addressed(roomId: string, request: DecisionRequest, latestRqid: Option<int>) {
    && request.identity.roomId == roomId && request.identity == request.safe.identity
    && (latestRqid.Some? ==> latestRqid.value <= request.identity.rqid)
  }

  predicate SizeFits(request: DecisionRequest, own: SideView) {
    1 <= request.teamMemberCount <= 6 && (own.teamSize.Some? ==> own.teamSize.value == request.teamMemberCount)
  }

  /** What is offered fits the request and the team. */
  ghost predicate OfferFits(request: DecisionRequest, own: SideView) {
    SizeFits(request, own) && DefaultFits(request) && KindsFit(request) && OrdersFit(request)
  }

  predicate OurSideFits(request: DecisionRequest, state: ObservedState) {
    state.ourSide == Some(request.side)
  }

  predicate GameFits(state: ObservedState) {
    state.gameType.Some? && Lower(state.gameType.value) == "singles"
  }

  predicate TierFits(state: ObservedState) {
    state.tier.Some? && WithoutBlanks(Lower(state.tier.value)) == "gen9ou"
  }

  /** The conditions the legal-action-safety contract puts on a request before it may be answered. */
  ghost predicate Acceptable(roomId: string, request: DecisionRequest, state: ObservedState, latestRqid: Option<int>) {
    && Addressed(roomId, request, latestRqid) && !MissingFact(state, request)
    && OurSideFits(request, state) && state.generation == Some(9) && GameFits(state) && TierFits(state)
    && var own := state.Side(request.side);
       && OfferFits(request, own)
       && (request.kind.MoveRequest? || request.kind.ForcedSwitch? || request.kind.Revival? ==>
             FieldedAs(own.pokemon, request.activeIdentity))
  }

  /** The request waits for this fact: everything the reconciler looks at before it agrees. */
  ghost predicate WaitsFor(
    roomId: string, request: DecisionRequest, state: ObservedState, latestRqid: Option<int>, reason: PendingReason)
  {
    Addressed(roomId, request, latestRqid)
    && match reason
       case OurSideUnknown => state.ourSide.None?
       case GenerationUnknown => OurSideFits(request, state) && state.generation.None?
       case GameTypeUnknown => OurSideFits(request, state) && state.generation == Some(9) && state.gameType.None?
       case TierUnknown =>
         OurSideFits(request, state) && state.generation == Some(9) && GameFits(state) && state.tier.None?
       case ActiveUnknown =>
         && OurSideFits(request, state) && state.generation == Some(9) && GameFits(state) && TierFits(state)
         && OfferFits(request, state.Side(request.side))
         && (request.kind.MoveRequest? || request.kind.ForcedSwitch? || request.kind.Revival?)
         && !HasActive(state.Side(request.side).pokemon)
  }

  /** What a rejection says is so. */
  ghost predicate Refuted(
    roomId: string, request: DecisionRequest, state: ObservedState, latestRqid: Option<int>, reason: RejectReason)
  {
    match reason
    case RoomMismatch => request.identity.roomId != roomId
    case IdentityMismatch => request.identity != request.safe.identity
    case StaleRqid => latestRqid.Some? && request.identity.rqid < latestRqid.value
    case SideMismatch => state.ourSide.Some? && state.ourSide.value != request.side
    case GenerationMismatch => state.generation.Some? && state.generation.value != 9
    case GameTypeMismatch => state.gameType.Some? && !GameFits(state)
    case TierMismatch => state.tier.Some? && !TierFits(state)
    case TeamSizeOutOfRange => !(1 <= request.teamMemberCount <= 6)
    case TeamSizeMismatch => !SizeFits(request, state.Side(request.side))
    case WaitWithSubmissions => request.kind.Wait? && request.safe.submissions != []
    case NoDefault => !request.kind.Wait? && !DefaultFits(request)
    case KindNotAllowed => !KindsFit(request)
    case NotAPermutation => !OrdersFit(request)
    case NoActiveIdentity => request.activeIdentity.None?
    case ActiveMismatch =>
      request.activeIdentity.Some? && !FieldedAs(state.Side(request.side).pokemon, request.activeIdentity)
  }

  lemma SlotsRead(order: seq<int>, n: int)
    ensures SlotSet(order) == SlotSet(Range(n)) <==> OrderFits(order, n)
  {
    forall slot ensures slot in SlotSet(Range(n)) <==> 1 <= slot <= n {
      if 1 <= slot <= n { assert Range(n)[slot - 1] == slot; }
    }
    forall slot ensures slot in SlotSet(order) <==> slot in order {}
    if SlotSet(order) == SlotSet(Range(n)) {
      forall slot ensures slot in order <==> 1 <= slot <= n {
        assert slot in SlotSet(order) <==> slot in SlotSet(Range(n));
      }
    }
  }

  lemma {:induction false} FirstFielded(pokemon: seq<PokemonView>)
    ensures match FindActiveIn(pokemon)
            case None => forall nickname :: !FieldedAs(pokemon, nickname)
            case Some(pv) => forall nickname :: FieldedAs(pokemon, nickname) <==> nickname == Some(pv.nickname)
  {
    if pokemon != [] {
      if pokemon[0].active {
        assert FieldedAs(pokemon, Some(pokemon[0].nickname));
      } else {
        FirstFielded(pokemon[1..]);
        assert forall i :: 0 < i < |pokemon| ==> pokemon[i] == pokemon[1..][i - 1];
        forall nickname ensures FieldedAs(pokemon, nickname) <==> FieldedAs(pokemon[1..], nickname) {
          if FieldedAs(pokemon[1..], nickname) {
            var i :| 0 <= i < |pokemon[1..]| && pokemon[1..][i].active && pokemon[1..][i].nickname == nickname.value
                     && forall j :: 0 <= j < i ==> !pokemon[1..][j].active;
            assert pokemon[i + 1].active && pokemon[i + 1].nickname == nickname.value;
          }
        }
      }
    }
  }

  lemma OffersRead(request: DecisionRequest)
    ensures KindsAllowed(request) <==> KindsFit(request)
    ensures !request.kind.Wait? ==> (HasDefault(request.safe.submissions) <==> DefaultFits(request))
    ensures request.kind.TeamPreview? ==> (OrdersCoverTeam(request) <==> OrdersFit(request))
  {
    forall i | 0 <= i < |request.safe.submissions|
      ensures request.safe.submissions[i].kind in AllowedKinds(request.kind)
          <==> KindFits(request.kind, request.safe.submissions[i].kind)
    {}
    forall i | 0 <= i < |request.safe.submissions|
      ensures SlotSet(request.safe.submissions[i].teamOrder) == SlotSet(Range(request.teamMemberCount))
          <==> OrderFits(request.safe.submissions[i].teamOrder, request.teamMemberCount)
    {
      SlotsRead(request.safe.submissions[i].teamOrder, request.teamMemberCount);
    }
    hide SlotSet, Range, AllowedKinds, KindFits, OrderFits;
  }

  lemma PreviewOnly(request: DecisionRequest)
    ensures !request.kind.TeamPreview? ==> OrdersFit(request)
    ensures request.kind.Wait? ==> (DefaultFits(request) <==> request.safe.submissions == [])
  {}

  lemma {:induction false} TeamVerdict(request: DecisionRequest, own: SideView)
    ensures var needed := request.kind.MoveRequest? || request.kind.ForcedSwitch? || request.kind.Revival?;
            match ReconcileTeam(request, own)
            case Accept => OfferFits(request, own) && (needed ==> FieldedAs(own.pokemon, request.activeIdentity))
            case Pending(reason) =>
              reason.ActiveUnknown? && OfferFits(request, own) && needed && !HasActive(own.pokemon)
            case Reject(reason) => !OfferFits(request, own) || (needed && HasActive(own.pokemon)
                                                                && !FieldedAs(own.pokemon, request.activeIdentity))
  {
    OffersRead(request);
    PreviewOnly(request);
    FirstFielded(own.pokemon);
    hide KindsAllowed, HasDefault, OrdersCoverTeam, KindsFit, DefaultFits, OrdersFit, FindActiveIn, FieldedAs,
         HasActive;
  }

  lemma TeamReason(roomId: string, request: DecisionRequest, state: ObservedState, latestRqid: Option<int>)
    ensures var verdict := ReconcileTeam(request, state.Side(request.side));
            verdict.Reject? ==> Refuted(roomId, request, state, latestRqid, verdict.reason)
  {
    OffersRead(request);
    PreviewOnly(request);
    FirstFielded(state.Side(request.side).pokemon);
    hide KindsAllowed, HasDefault, OrdersCoverTeam, KindsFit, DefaultFits, OrdersFit, FindActiveIn, FieldedAs,
         HasActive;
  }

  /** A request is accepted exactly if every one of those conditions holds. */
  lemma {:induction false} AcceptedRequest(
    roomId: string, request: DecisionRequest, state: ObservedState, latestRqid: Option<int>)
    ensures Reconcile(roomId, request, state, latestRqid).Accept? <==>
              Acceptable(roomId, request, state, latestRqid)
  {
    PendingMeansMissing(roomId, request, state, latestRqid);
    if state.ourSide.Some? { TeamVerdict(request, state.Side(state.ourSide.value)); }
    hide ReconcileTeam, OfferFits, FieldedAs, MissingFact, WithoutBlanks, Lower;
  }

  /** A request waits for a fact exactly if that fact is the first thing missing; otherwise, if it is not accepted, what
      its rejection says is so. */
  lemma {:induction false} VerdictIsExact(
    roomId: string, request: DecisionRequest, state: ObservedState, latestRqid: Option<int>)
    ensures forall reason :: Reconcile(roomId, request, state, latestRqid) == Pending(reason) <==>
              WaitsFor(roomId, request, state, latestRqid, reason)
    ensures var verdict := Reconcile(roomId, request, state, latestRqid);
            verdict.Reject? ==> Refuted(roomId, request, state, latestRqid, verdict.reason)
  {
    if state.ourSide.Some? { TeamVerdict(request, state.Side(state.ourSide.value)); }
    TeamReason(roomId, request, state, latestRqid);
    hide ReconcileTeam, OfferFits, FieldedAs, HasActive, WithoutBlanks, Lower, SizeFits, KindsFit, DefaultFits,
         OrdersFit;
  }

  /** Acceptance against an earlier rqid is acceptance without one. */
  lemma AcceptWithoutRqid(roomId: string, request: DecisionRequest, state: ObservedState, latestRqid: Option<int>)
    ensures Reconcile(roomId, request, state, latestRqid).Accept? ==> Reconcile(roomId, request, state, None).Accept?
  {
    hide ReconcileTeam, TierMatches;
  }

  // ----- team previews -----

  lemma {:induction false} DistinctCounts(xs: seq<int>, x: int)
    requires Distinct(xs)
    ensures multiset(xs)[x] == if x in xs then 1 else 0
  {
    if xs != [] {
      DistinctCounts(xs[1..], x);
      assert xs == [xs[0]] + xs[1..];
    }
  }

  /** A distinct order with the right slots is a rearrangement of 1..n. */
  lemma {:induction false} CoveringOrderIsPermutation(order: seq<int>, n: nat)
    requires Distinct(order)
    requires SlotSet(order) == SlotSet(Range(n))
    ensures multiset(order) == multiset(Range(n)) && |order| == n
  {
    assert Distinct(Range(n));
    forall x ensures multiset(order)[x] == multiset(Range(n))[x] {
      DistinctCounts(order, x);
      DistinctCounts(Range(n), x);
      assert x in order <==> x in SlotSet(order);
      assert x in Range(n) <==> x in SlotSet(Range(n));
    }
    assert |multiset(order)| == |order| && |multiset(Range(n))| == n;
  }

  /** Every team order an accepted preview offers is a permutation of the whole team. */
  lemma {:induction false} PreviewOrdersArePermutations(
    roomId: string, request: DecisionRequest, state: ObservedState, latestRqid: Option<int>, i: nat)
    requires request.kind.TeamPreview? && Reconcile(roomId, request, state, latestRqid).Accept?
    requires i < |request.safe.submissions| && request.safe.submissions[i].kind.Team?
    ensures multiset(request.safe.submissions[i].teamOrder) == multiset(Range(request.teamMemberCount))
    ensures |request.safe.submissions[i].teamOrder| == request.teamMemberCount
  {
    AcceptedRequest(roomId, request, state, latestRqid);
    CoveringOrderIsPermutation(request.safe.submissions[i].teamOrder, request.teamMemberCount);
  }

  /** Within one accepted request a command identifies the choice, up to the unsent name of the move. */
  lemma {:induction false} CommandIdentifiesChoice(
    roomId: string, request: DecisionRequest, state: ObservedState, latestRqid: Option<int>, i: nat, j: nat)
    requires Reconcile(roomId, request, state, latestRqid).Accept?
    requires i < |request.safe.submissions| && j < |request.safe.submissions|
    requires EncodeSubmission(request.safe.submissions[i]) == EncodeSubmission(request.safe.submissions[j])
    ensures var a, b := request.safe.submissions[i], request.safe.submissions[j];
            a == b || (a.kind.Move? && b == a.(moveId := b.moveId))
  {
    hide EncodeSubmission, Reconcile;
    AcceptedRequest(roomId, request, state, latestRqid);
    EncodingSeparatesChoices(request.safe.submissions[i], request.safe.submissions[j]);
  }
}
