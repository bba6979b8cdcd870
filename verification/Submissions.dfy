/** Submissions, requests, the heuristic policy, the safety gate and the choice encoder. */
module Submissions {
  import opened Basics
  import opened ObservedStates

  datatype ActionKind = Move | Switch | Revive | Team | Default

  datatype Provenance = ExplicitRequest | ServerDefault

  /** A content digest, kept as its preimage: different contents have different digests. */
  datatype Digest = Digest(preimage: string)

  datatype RequestIdentity = RequestIdentity(roomId: string, rqid: int, digest: Digest)

  datatype SubmissionFields = SubmissionFields(
    kind: ActionKind,
    provenance: Provenance,
    slot: Option<int>,
    moveId: Option<string>,
    terastallize: bool,
    teamOrder: seq<int>)

  predicate MoveIdOk(id: string) {
    1 <= |id| <= 100 && forall i :: 0 <= i < |id| ==> 'a' <= id[i] <= 'z' || '0' <= id[i] <= '9'
  }

  predicate SlotIn(slot: Option<int>, last: int) {
    slot.Some? && 1 <= slot.value <= last
  }

  /** The checks `BattleSubmission` makes when it is built. */
  ghost predicate Constructible(s: SubmissionFields) {
    && (s.moveId.Some? ==> MoveIdOk(s.moveId.value))
    && match s.kind
       case Move => SlotIn(s.slot, 4) && s.moveId.Some? && s.teamOrder == [] && s.provenance == ExplicitRequest
       case Switch =>
         SlotIn(s.slot, 6) && !s.terastallize && s.moveId.None? && s.teamOrder == [] && s.provenance == ExplicitRequest
       case Revive =>
         SlotIn(s.slot, 6) && !s.terastallize && s.moveId.None? && s.teamOrder == [] && s.provenance == ExplicitRequest
       case Team =>
         && s.teamOrder != [] && Distinct(s.teamOrder)
         && (forall i :: 0 <= i < |s.teamOrder| ==> 1 <= s.teamOrder[i] <= 6)
         && s.slot.None? && !s.terastallize && s.moveId.None? && s.provenance == ExplicitRequest
       case Default =>
         s.provenance == ServerDefault && s.slot.None? && s.moveId.None? && !s.terastallize && s.teamOrder == []
  }

  const DEFAULT_FIELDS := SubmissionFields(Default, ServerDefault, None, None, false, [])

  type BattleSubmission = s: SubmissionFields | Constructible(s) witness DEFAULT_FIELDS

  datatype SafeSubmissionSet = SafeSubmissionSet(identity: RequestIdentity, submissions: seq<BattleSubmission>)

  datatype RequestKind = MoveRequest | ForcedSwitch | Revival | TeamPreview | Wait

  datatype DecisionRequest = DecisionRequest(
    identity: RequestIdentity,
    kind: RequestKind,
    side: SideId,
    teamMemberCount: int,
    activeIdentity: Option<string>,
    safe: SafeSubmissionSet)

  // ----- the heuristic policy -----

  function Priority(s: BattleSubmission): nat {
    match s.kind
    case Move => if s.terastallize then 4 else 0
    case Revive => 1
    case Switch => 2
    case Team => 3
    case Default => 5
  }

  /** `min(subs, key=_priority)`. */
  function FirstLeast(subs: seq<BattleSubmission>): BattleSubmission
    requires subs != []
  {
    if |subs| == 1 then subs[0]
    else
      var later := FirstLeast(subs[1..]);
      if Priority(later) < Priority(subs[0]) then later else subs[0]
  }

  /** The choice sits at a position of least priority, and every earlier position has a greater one. */
  lemma {:induction false} FirstLeastIsFirst(subs: seq<BattleSubmission>) returns (at: nat)
    requires subs != []
    ensures at < |subs| && subs[at] == FirstLeast(subs)
    ensures forall j :: 0 <= j < |subs| ==> Priority(subs[at]) <= Priority(subs[j])
    ensures forall j :: 0 <= j < at ==> Priority(subs[at]) < Priority(subs[j])
  {
    if |subs| == 1 {
      at := 0;
    } else {
      var later := FirstLeastIsFirst(subs[1..]);
      assert forall j :: 0 < j < |subs| ==> subs[j] == subs[1..][j - 1];
      at := if Priority(subs[1..][later]) < Priority(subs[0]) then later + 1 else 0;
    }
  }

  /** What the heuristic prefers: a plain move, then a revival, a switch, a team order, a move that terastallizes, and
      the default last. */
  predicate Preferred(a: BattleSubmission, b: BattleSubmission) {
    match b.kind
    case Default => !a.kind.Default?
    case Move => b.terastallize && !a.kind.Default? && !(a.kind.Move? && a.terastallize)
    case Team => a.kind.Switch? || a.kind.Revive? || (a.kind.Move? && !a.terastallize)
    case Switch => a.kind.Revive? || (a.kind.Move? && !a.terastallize)
    case Revive => a.kind.Move? && !a.terastallize
  }

  /** The policy's choice is the first of the offered to which none is preferred: it is preferred to all before it. */
  lemma {:induction false} ChoiceIsPreferred(subs: seq<BattleSubmission>) returns (at: nat)
    requires subs != []
    ensures at < |subs| && subs[at] == FirstLeast(subs)
    ensures forall j :: 0 <= j < |subs| ==> !Preferred(subs[j], subs[at])
    ensures forall j :: 0 <= j < at ==> Preferred(subs[at], subs[j])
  {
    at := FirstLeastIsFirst(subs);
    forall j | 0 <= j < |subs|
      ensures Priority(subs[at]) <= Priority(subs[j]) <==> !Preferred(subs[j], subs[at])
      ensures Priority(subs[at]) < Priority(subs[j]) <==> Preferred(subs[at], subs[j])
    {
      RankIsPreference(subs[at], subs[j]);
      RankIsPreference(subs[j], subs[at]);
    }
    hide FirstLeast, Priority, Preferred;
  }

  lemma RankIsPreference(a: BattleSubmission, b: BattleSubmission)
    ensures Preferred(a, b) <==> Priority(a) < Priority(b)
  {}

  // ----- the action gate -----

  datatype GateError = StaleIdentity | NotInSafeSet

  function Authorize(candidate: BattleSubmission, request: RequestIdentity, latest: SafeSubmissionSet)
    : Result<BattleSubmission, GateError>
  {
    if request != latest.identity then Err(StaleIdentity)
    else if candidate !in latest.submissions then Err(NotInSafeSet)
    else Ok(candidate)
  }

  /** The gate lets a choice pass exactly if it is one of the choices offered to this very request, and tells which of
      the two is not so, the identity first. */
  lemma GateIsExact(candidate: BattleSubmission, request: RequestIdentity, latest: SafeSubmissionSet)
    ensures var verdict := Authorize(candidate, request, latest);
            && (verdict.Ok? <==> request == latest.identity && candidate in latest.submissions)
            && (verdict.Ok? ==> verdict.value == candidate)
            && (verdict.Err? ==> (verdict.error.StaleIdentity? <==> request != latest.identity))
  {}

  // ----- the choice encoder -----

  function SlotText(slot: int): string
    requires 1 <= slot <= 6
  {
    ["123456"[slot - 1]]
  }

  function OrderText(order: seq<int>): string
    requires forall i :: 0 <= i < |order| ==> 1 <= order[i] <= 6
  {
    if order == [] then "" else SlotText(order[0]) + OrderText(order[1..])
  }

  function EncodeSubmission(s: BattleSubmission): string {
    match s.kind
    case Default => "default"
    case Move => "move " + SlotText(s.slot.value) + (if s.terastallize then " terastallize" else "")
    case Switch => "switch " + SlotText(s.slot.value)
    case Revive => "switch " + SlotText(s.slot.value)
    case Team => "team " + OrderText(s.teamOrder)
  }

  /** The decimal digit of a slot. */
  function Digit(slot: int): char
    requires 0 <= slot <= 9
  {
    '0' + slot as char
  }

  /** The text of a slot is its digit, and a team order is the digits of its slots in order. */
  lemma {:induction false} SlotsAreDigits(order: seq<int>)
    requires forall i :: 0 <= i < |order| ==> 1 <= order[i] <= 6
    ensures |OrderText(order)| == |order| && forall i :: 0 <= i < |order| ==> OrderText(order)[i] == Digit(order[i])
  {
    if order != [] {
      SlotsAreDigits(order[1..]);
      DigitOfSlot(order[0]);
      forall i | 0 <= i < |order| ensures OrderText(order)[i] == Digit(order[i]) {
        if i > 0 { assert order[i] == order[1..][i - 1]; }
      }
    }
  }

  lemma DigitOfSlot(slot: int)
    requires 1 <= slot <= 6
    ensures SlotText(slot) == [Digit(slot)]
  {
    assert slot == 1 || slot == 2 || slot == 3 || slot == 4 || slot == 5 || slot == 6;
  }

  /** The command of each choice, letter by letter. */
  lemma {:induction false} CommandsAreSpelled(s: BattleSubmission)
    ensures EncodeSubmission(s)
         == match s.kind
            case Default => "default"
            case Move => "move " + [Digit(s.slot.value)] + (if s.terastallize then " terastallize" else "")
            case Switch => "switch " + [Digit(s.slot.value)]
            case Revive => "switch " + [Digit(s.slot.value)]
            case Team => "team " + OrderText(s.teamOrder)
  {
    if s.slot.Some? { DigitOfSlot(s.slot.value); }
    hide SlotText, OrderText, Digit;
  }

  /** Submissions the wire format cannot tell apart: the move name is not sent, and revive is sent as a switch. */
  ghost predicate SameOnWire(a: BattleSubmission, b: BattleSubmission) {
    && a.slot == b.slot && a.terastallize == b.terastallize && a.teamOrder == b.teamOrder
    && (a.kind == b.kind || (a.kind in {Switch, Revive} && b.kind in {Switch, Revive}))
  }

  lemma SlotTextInjective(a: int, b: int)
    requires 1 <= a <= 6 && 1 <= b <= 6 && SlotText(a) == SlotText(b)
    ensures a == b
  {
    assert "123456"[a - 1] == SlotText(a)[0] == SlotText(b)[0] == "123456"[b - 1];
  }

  lemma {:induction false} OrderTextInjective(a: seq<int>, b: seq<int>)
    requires forall i :: 0 <= i < |a| ==> 1 <= a[i] <= 6
    requires forall i :: 0 <= i < |b| ==> 1 <= b[i] <= 6
    requires OrderText(a) == OrderText(b)
    ensures a == b
  {
    if a != [] && b != [] {
      assert SlotText(a[0])[0] == OrderText(a)[0] == OrderText(b)[0] == SlotText(b[0])[0];
      SlotTextInjective(a[0], b[0]);
      assert OrderText(a)[1..] == OrderText(a[1..]) && OrderText(b)[1..] == OrderText(b[1..]);
      OrderTextInjective(a[1..], b[1..]);
      assert a == [a[0]] + a[1..] && b == [b[0]] + b[1..];
    }
  }

  lemma EncodingHead(s: BattleSubmission)
    ensures var text := EncodeSubmission(s);
            && |text| >= 5
            && text[..2] == (match s.kind case Default => "de" case Move => "mo" case Team => "te" case _ => "sw")
            && (s.kind.Move? ==> |text| == (if s.terastallize then 19 else 6) && text[5..6] == SlotText(s.slot.value))
            && (s.kind.Switch? || s.kind.Revive? ==> |text| == 8 && text[7..8] == SlotText(s.slot.value))
            && (s.kind.Team? ==> text[5..] == OrderText(s.teamOrder))
  {}

  /** One command never stands for two choices the server would treat differently. */
  lemma {:induction false} EncodingSeparatesChoices(a: BattleSubmission, b: BattleSubmission)
    ensures EncodeSubmission(a) == EncodeSubmission(b) <==> SameOnWire(a, b)
  {
    if EncodeSubmission(a) == EncodeSubmission(b) {
      EncodingHead(a);
      EncodingHead(b);
      hide EncodeSubmission;
      assert "de"[0] != "mo"[0] && "mo"[0] != "te"[0] && "te"[0] != "sw"[0];
      match a.kind
      case Move => SlotTextInjective(a.slot.value, b.slot.value);
      case Switch => SlotTextInjective(a.slot.value, b.slot.value);
      case Revive => SlotTextInjective(a.slot.value, b.slot.value);
      case Team => OrderTextInjective(a.teamOrder, b.teamOrder);
      case Default =>
    }
  }
}
