/** The deterministic reducer: one canonical event advances the public state, or is refused. */
module Reducer {
  import opened Basics
  import opened ObservedStates
  import opened IdentityKey

  /** `InvariantViolation` is the reducer's own error; `ValueFault` a `ValueError` of a constructor or lookup. */
  datatype ReduceError = InvariantViolation | ValueFault

  type Reduced<T> = Result<T, ReduceError>

  function LayerCap(condition: string): int {
    if condition == "spikes" then 3 else if condition == "toxicspikes" then 2 else 1
  }

  function ParseSide(side: string): Reduced<SideId> {
    if side == "p1" then Ok(P1) else if side == "p2" then Ok(P2) else Err(InvariantViolation)
  }

  function MakeHp(current: int, maximum: int, precision: HpPrecision, fainted: bool): Reduced<HpObservation> {
    if maximum <= 0 || current < 0 || current > maximum || (fainted && current != 0) then
      Err(ValueFault)
    else
      Ok(HpObservation(current, maximum, precision, fainted))
  }

  function TokenToObservation(token: HpToken, side: string, ourSide: Option<SideId>): Reduced<HpObservation> {
    var precision :=
      if ourSide.Some? && side == SideText(ourSide.value) then Exact
      else if token.maximum == 100 then Percent
      else Pixel;
    if token.fainted then
      MakeHp(0, if token.maximum > 1 then token.maximum else 1, precision, true)
    else
      MakeHp(token.current, token.maximum, precision, false)
  }

  /** Position of the first active Pokemon. */
  function FindActive(pokemon: seq<PokemonView>): (r: Option<nat>)
    ensures r.Some? ==> r.value < |pokemon| && pokemon[r.value].active
    ensures r.None? ==> forall i :: 0 <= i < |pokemon| ==> !pokemon[i].active
  {
    if pokemon == [] then None
    else if pokemon[0].active then Some(0)
    else match FindActive(pokemon[1..])
      case Some(i) => Some(i + 1)
      case None =>
        assert forall i :: 0 < i < |pokemon| ==> pokemon[i] == pokemon[1..][i - 1];
        None
  }

  function RequireActive(side: SideView, nickname: string): (r: Reduced<nat>)
    ensures r.Ok? ==> r.value < |side.pokemon| && side.pokemon[r.value].active
                      && side.pokemon[r.value].nickname == nickname
  {
    match FindActive(side.pokemon)
    case None => Err(InvariantViolation)
    case Some(i) => if side.pokemon[i].nickname != nickname then Err(InvariantViolation) else Ok(i)
  }

  predicate RevivalCandidate(pv: PokemonView, nickname: string) {
    !pv.active && pv.fainted && pv.nickname == nickname
  }

  /** Positions of the fainted bench members carrying the nickname. */
  function RevivalCandidates(pokemon: seq<PokemonView>, nickname: string): (r: seq<nat>)
    ensures forall i :: i in r ==> i < |pokemon| && RevivalCandidate(pokemon[i], nickname)
  {
    if pokemon == [] then []
    else
      var last := |pokemon| - 1;
      RevivalCandidates(pokemon[..last], nickname)
      + (if RevivalCandidate(pokemon[last], nickname) then [last] else [])
  }

  function RequireHealthTarget(side: SideView, nickname: string, slot: Option<int>): (r: Reduced<nat>)
    ensures r.Ok? ==> r.value < |side.pokemon|
  {
    if slot.Some? then RequireActive(side, nickname)
    else
      var candidates := RevivalCandidates(side.pokemon, nickname);
      if |candidates| != 1 then Err(InvariantViolation) else
      assert candidates[0] in candidates;
      Ok(candidates[0])
  }

  predicate SwitchKey(pv: PokemonView, nickname: string, details: string) {
    pv.nickname == nickname && pv.switchIdentity == Normalize(details)
  }

  function FindForSwitchIn(pokemon: seq<PokemonView>, nickname: string, details: string): (r: Option<nat>)
    ensures r.Some? ==> r.value < |pokemon| && SwitchKey(pokemon[r.value], nickname, details)
    ensures r.None? ==> forall i :: 0 <= i < |pokemon| ==> !SwitchKey(pokemon[i], nickname, details)
  {
    if pokemon == [] then None
    else if SwitchKey(pokemon[0], nickname, details) then Some(0)
    else match FindForSwitchIn(pokemon[1..], nickname, details)
      case Some(i) => Some(i + 1)
      case None =>
        assert forall i :: 0 < i < |pokemon| ==> pokemon[i] == pokemon[1..][i - 1];
        None
  }

  function ReplaceAt(side: SideView, position: nat, pv: PokemonView): SideView
    requires position < |side.pokemon|
  {
    side.(pokemon := side.pokemon[position := pv])
  }

  function Clamp(value: int): int {
    if value < -6 then -6 else if value > 6 then 6 else value
  }

  function StatIndexFrom(stat: string, i: nat): (r: Reduced<nat>)
    requires i <= |BOOST_STATS|
    ensures r.Ok? ==> i <= r.value < |BOOST_STATS| && BOOST_STATS[r.value] == stat
    ensures r.Err? ==> forall k :: i <= k < |BOOST_STATS| ==> BOOST_STATS[k] != stat
    decreases |BOOST_STATS| - i
  {
    if i == |BOOST_STATS| then Err(ValueFault)
    else if BOOST_STATS[i] == stat then Ok(i)
    else StatIndexFrom(stat, i + 1)
  }

  /** `BOOST_STATS.index(stat)`. */
  function StatIndex(stat: string): (r: Reduced<nat>)
    ensures r.Ok? ==> r.value < |BOOST_STATS| && BOOST_STATS[r.value] == stat
    ensures r.Err? <==> stat !in BOOST_STATS
  {
    StatIndexFrom(stat, 0)
  }

  function WriteBoost(boosts: seq<int>, stat: string, mode: BoostMode, amount: int): Reduced<seq<int>> {
    match StatIndex(stat)
    case Err(e) => Err(e)
    case Ok(i) =>
      if i >= |boosts| then Err(ValueFault)
      else Ok(boosts[i := Clamp(if mode.Absolute? then amount else boosts[i] + amount)])
  }

  function MapBoosts(f: int -> int, boosts: seq<int>): (r: seq<int>)
    ensures |r| == |boosts| && forall i :: 0 <= i < |r| ==> r[i] == f(boosts[i])
  {
    seq(|boosts|, i requires 0 <= i < |boosts| => f(boosts[i]))
  }

  function ClearedBoosts(boosts: seq<int>, scope: string): Reduced<seq<int>> {
    if scope == "all" then Ok(ZERO_BOOSTS)
    else if scope == "positive" then Ok(MapBoosts(b => if b < 0 then b else 0, boosts))
    else if scope == "negative" then Ok(MapBoosts(b => if b > 0 then b else 0, boosts))
    else match StatIndex(scope)
      case Ok(i) => if i >= |boosts| then Err(ValueFault) else Ok(boosts[i := 0])
      case Err(_) => Err(InvariantViolation)
  }

  /** Exchange the listed stats one after the other; an unknown stat is a `ValueError`. */
  function SwapStats(source: seq<int>, target: seq<int>, stats: seq<string>): Reduced<(seq<int>, seq<int>)>
    requires |source| == |target| == |BOOST_STATS|
    decreases |stats|
  {
    if stats == [] then Ok((source, target))
    else match StatIndex(stats[0])
      case Err(e) => Err(e)
      case Ok(i) => SwapStats(source[i := target[i]], target[i := source[i]], stats[1..])
  }

  function CopyStats(source: seq<int>, target: seq<int>, stats: seq<string>): Reduced<seq<int>>
    requires |source| == |target| == |BOOST_STATS|
    decreases |stats|
  {
    if stats == [] then Ok(target)
    else match StatIndex(stats[0])
      case Err(e) => Err(e)
      case Ok(i) => CopyStats(source, target[i := source[i]], stats[1..])
  }

  function CloseInterval(interval: EvidenceInterval, eventIndex: int): EvidenceInterval {
    if interval.validUntil.None? then interval.(validUntil := Some(eventIndex)) else interval
  }

  function CloseOpenInterval(intervals: seq<EvidenceInterval>, eventIndex: int): (r: seq<EvidenceInterval>)
    ensures |r| == |intervals|
    ensures forall i :: 0 <= i < |r| ==> r[i] == CloseInterval(intervals[i], eventIndex)
  {
    seq(|intervals|, i requires 0 <= i < |intervals| => CloseInterval(intervals[i], eventIndex))
  }

  function OpenInterval(intervals: seq<EvidenceInterval>, value: Option<string>, eventIndex: int)
    : seq<EvidenceInterval>
  {
    CloseOpenInterval(intervals, eventIndex) + [EvidenceInterval(value, eventIndex, eventIndex, None)]
  }

  predicate SuppressionOpen(intervals: seq<EvidenceInterval>) {
    intervals != []
    && intervals[|intervals| - 1].validUntil.None?
    && intervals[|intervals| - 1].value.None?
  }

  /** Gastro Acid suppression ends on switch-out; a revealed ability stays known. */
  function EndAbilitySuppression(intervals: seq<EvidenceInterval>, eventIndex: int): seq<EvidenceInterval> {
    if SuppressionOpen(intervals) then CloseOpenInterval(intervals, eventIndex) else intervals
  }

  function Deactivate(pv: PokemonView, eventIndex: int): PokemonView {
    if pv.active then
      pv.(active := false, boosts := ZERO_BOOSTS, volatiles := [], recharging := false, transformTarget := None,
          abilityIntervals := EndAbilitySuppression(pv.abilityIntervals, eventIndex))
    else pv
  }

  function DeactivateAll(pokemon: seq<PokemonView>, eventIndex: int): (r: seq<PokemonView>)
    ensures |r| == |pokemon|
    ensures forall i :: 0 <= i < |r| ==> r[i] == Deactivate(pokemon[i], eventIndex)
  {
    seq(|pokemon|, i requires 0 <= i < |pokemon| => Deactivate(pokemon[i], eventIndex))
  }

  function NewPokemon(nickname: string, details: string): PokemonView {
    PokemonView(nickname, [], None, if details != "" then Normalize(details) else "", Some(details), false, None,
                None, false, [], [], [], None, ZERO_BOOSTS, [], false, None)
  }

  function ActivatePokemon(
    side: SideView, nickname: string, details: string, hp: HpObservation, status: Option<string>, eventIndex: int)
    : SideView
  {
    var deactivated := DeactivateAll(side.pokemon, eventIndex);
    match FindForSwitchIn(deactivated, nickname, details)
    case None =>
      var added := NewPokemon(nickname, details).(active := true, hp := Some(hp), status := status);
      side.(pokemon := deactivated + [added], activeSlot := Some(1))
    case Some(i) =>
      var updated := deactivated[i].(
        active := true, hp := Some(hp), status := status, fainted := false, currentDetails := Some(details),
        boosts := ZERO_BOOSTS, volatiles := [], recharging := false, transformTarget := None);
      side.(pokemon := deactivated[i := updated], activeSlot := Some(1))
  }

  // ----- side conditions: a dict of layers, stored as its sorted items -----

  function ConditionName(item: (string, int)): string {
    item.0
  }

  function DictGet(items: seq<(string, int)>, name: string, default: int): int {
    if items == [] then default
    else if items[0].0 == name then items[0].1
    else DictGet(items[1..], name, default)
  }

  function DictPut(items: seq<(string, int)>, name: string, layers: int): seq<(string, int)> {
    if items == [] then [(name, layers)]
    else if items[0].0 == name then [(name, layers)] + items[1..]
    else [items[0]] + DictPut(items[1..], name, layers)
  }

  function NameIsNot(name: string): ((string, int)) -> bool {
    (item: (string, int)) => item.0 != name
  }

  function DictPop(items: seq<(string, int)>, name: string): seq<(string, int)> {
    Filter(NameIsNot(name), items)
  }

  function DictFrom(pairs: seq<(string, int)>): seq<(string, int)> {
    if pairs == [] then []
    else DictPut(DictFrom(pairs[..|pairs| - 1]), pairs[|pairs| - 1].0, pairs[|pairs| - 1].1)
  }

  function AddLayer(conditions: seq<(string, int)>, condition: string): seq<(string, int)> {
    var layers := DictGet(conditions, condition, 0) + 1;
    DictPut(conditions, condition, if layers < LayerCap(condition) then layers else LayerCap(condition))
  }

  function UpdateSideCondition(conditions: seq<(string, int)>, condition: string, action: Action): seq<(string, int)> {
    var dict := DictFrom(conditions);
    var updated :=
      match action
      case Start => AddLayer(dict, condition)
      case Upkeep => AddLayer(dict, condition)
      case End => DictPop(dict, condition)
      case _ => dict;
    SortByKey(updated, ConditionName)
  }

  // ----- edits of one active Pokemon -----

  function Without(xs: seq<string>, x: string): seq<string> {
    Filter(y => y != x, xs)
  }

  function TextKey(s: string): string { s }

  function EditPokemon(pv: PokemonView, edit: Edit, side: string, ourSide: Option<SideId>, eventIndex: int)
    : Reduced<PokemonView>
  {
    match edit
    case Faint =>
      var fainted := match pv.hp
        case Some(hp) => MakeHp(0, hp.maximum, hp.precision, true)
        case None => MakeHp(0, 100, Percent, true);
      if fainted.Err? then Err(fainted.error) else
      Ok(pv.(fainted := true, hp := Some(fainted.value), boosts := ZERO_BOOSTS, volatiles := [],
             recharging := false, transformTarget := None))
    case UseMove(moveId, _) =>
      Ok(if moveId in pv.revealedMoves then pv else pv.(revealedMoves := pv.revealedMoves + [moveId]))
    case SetStatus(status) => Ok(pv.(status := status))
    case ChangeBoost(stat, mode, amount) =>
      var boosts := WriteBoost(pv.boosts, stat, mode, amount);
      if boosts.Err? then Err(boosts.error) else Ok(pv.(boosts := boosts.value))
    case ClearBoosts(scope) =>
      var boosts := ClearedBoosts(pv.boosts, scope);
      if boosts.Err? then Err(boosts.error) else Ok(pv.(boosts := boosts.value))
    case InvertBoosts => Ok(pv.(boosts := MapBoosts(b => -b, pv.boosts)))
    case ChangeItem(item, action) =>
      Ok(pv.(itemIntervals := OpenInterval(pv.itemIntervals, if action.Set? then item else None, eventIndex)))
    case ChangeAbility(ability, action) =>
      Ok(pv.(abilityIntervals := OpenInterval(pv.abilityIntervals, if action.Set? then ability else None, eventIndex)))
    case ChangeForm(kind, value, token) =>
      var hp := TokenToObservation(token, side, ourSide);
      if hp.Err? then Err(hp.error) else
      var shown := pv.(currentDetails := Some(value), hp := Some(hp.value), status := token.status,
                       fainted := token.fainted);
      Ok(if kind.PersistentDetails? then shown.(switchIdentity := Normalize(value)) else shown)
    case Transform(target) => Ok(pv.(transformTarget := Some(target)))
    case Terastallize(teraType) => Ok(pv.(teraType := Some(teraType)))
    case ChangeVolatile(volatile, action) =>
      if action.Start? then
        Ok(if volatile in pv.volatiles then pv
           else pv.(volatiles := SortByKey(pv.volatiles + [volatile], TextKey)))
      else if action.End? then
        Ok(pv.(volatiles := Without(pv.volatiles, volatile)))
      else Ok(pv)
    case SetRecharge(recharging) => Ok(pv.(recharging := recharging))
  }

  /** The evidence an edit leaves behind, if any. */
  function EditEvidence(ref: PokemonRef, edit: Edit, eventIndex: int): seq<VisibleEvidence> {
    match edit
    case UseMove(moveId, annotations) => [EvidenceFor(ref, "move", moveId, annotations, eventIndex)]
    case ChangeForm(_, value, _) => [EvidenceFor(ref, "form", value, [], eventIndex)]
    case Transform(target) => [EvidenceFor(ref, "transform", target, [], eventIndex)]
    case Terastallize(teraType) => [EvidenceFor(ref, "tera", teraType, [], eventIndex)]
    case _ => []
  }

  function EvidenceFor(ref: PokemonRef, kind: string, effect: string, annotations: seq<string>, eventIndex: int)
    : VisibleEvidence
  {
    VisibleEvidence(eventIndex, kind, Some(ref.side), Some(ref.slot), Some(ref.nickname), Some(effect), annotations)
  }

  // ----- the branches that touch the rosters -----

  function SwitchIn(state: ObservedState, ref: PokemonRef, details: string, token: HpToken): Reduced<ObservedState> {
    var hp := TokenToObservation(token, ref.side, state.ourSide);
    if hp.Err? then Err(hp.error) else
    var id := ParseSide(ref.side);
    if id.Err? then Err(id.error) else
    Ok(state.WithSide(id.value,
                      ActivatePokemon(state.Side(id.value), ref.nickname, details, hp.value, token.status,
                                      state.eventIndex)))
  }

  function ChangeHealth(state: ObservedState, side: string, slot: Option<int>, nickname: string, token: HpToken)
    : Reduced<ObservedState>
  {
    var id := ParseSide(side);
    if id.Err? then Err(id.error) else
    var target := RequireHealthTarget(state.Side(id.value), nickname, slot);
    if target.Err? then Err(target.error) else
    var hp := TokenToObservation(token, side, state.ourSide);
    if hp.Err? then Err(hp.error) else
    var pv := state.Side(id.value).pokemon[target.value];
    Ok(state.WithSide(id.value,
                      ReplaceAt(state.Side(id.value), target.value,
                                pv.(hp := Some(hp.value), status := token.status, fainted := token.fainted))))
  }

  function Cured(pokemon: seq<PokemonView>): (r: seq<PokemonView>)
    ensures |r| == |pokemon| && forall i :: 0 <= i < |r| ==> r[i] == pokemon[i].(status := None)
  {
    seq(|pokemon|, i requires 0 <= i < |pokemon| => pokemon[i].(status := None))
  }

  function CureTeam(state: ObservedState, side: string): Reduced<ObservedState> {
    var id := ParseSide(side);
    if id.Err? then Err(id.error) else
    var view := state.Side(id.value);
    Ok(state.WithSide(id.value, view.(pokemon := Cured(view.pokemon))))
  }

  function SwapBoosts(state: ObservedState, source: PokemonRef, target: PokemonRef, stats: seq<string>)
    : Reduced<ObservedState>
  {
    var sourceId, targetId := ParseSide(source.side), ParseSide(target.side);
    if sourceId.Err? then Err(sourceId.error) else
    if targetId.Err? then Err(targetId.error) else
    var i := RequireActive(state.Side(sourceId.value), source.nickname);
    if i.Err? then Err(i.error) else
    var j := RequireActive(state.Side(targetId.value), target.nickname);
    if j.Err? then Err(j.error) else
    var sourcePv := state.Side(sourceId.value).pokemon[i.value];
    var targetPv := state.Side(targetId.value).pokemon[j.value];
    if !(|sourcePv.boosts| == |targetPv.boosts| == |BOOST_STATS|) then Err(ValueFault) else
    var swapped := SwapStats(sourcePv.boosts, targetPv.boosts, stats);
    if swapped.Err? then Err(swapped.error) else
    var newSource := ReplaceAt(state.Side(sourceId.value), i.value, sourcePv.(boosts := swapped.value.0));
    // On one side both names resolve to the same object, which the first replacement has already removed.
    if sourceId == targetId then Ok(state.WithSide(sourceId.value, newSource)) else
    var newTarget := ReplaceAt(state.Side(targetId.value), j.value, targetPv.(boosts := swapped.value.1));
    Ok(state.WithSide(sourceId.value, newSource).WithSide(targetId.value, newTarget))
  }

  function CopyBoosts(state: ObservedState, target: PokemonRef, source: PokemonRef, stats: seq<string>)
    : Reduced<ObservedState>
  {
    var sourceId, targetId := ParseSide(source.side), ParseSide(target.side);
    if sourceId.Err? then Err(sourceId.error) else
    if targetId.Err? then Err(targetId.error) else
    var i := RequireActive(state.Side(sourceId.value), source.nickname);
    if i.Err? then Err(i.error) else
    var j := RequireActive(state.Side(targetId.value), target.nickname);
    if j.Err? then Err(j.error) else
    var sourcePv := state.Side(sourceId.value).pokemon[i.value];
    var targetPv := state.Side(targetId.value).pokemon[j.value];
    if !(|sourcePv.boosts| == |targetPv.boosts| == |BOOST_STATS|) then Err(ValueFault) else
    var copied := CopyStats(sourcePv.boosts, targetPv.boosts, stats);
    if copied.Err? then Err(copied.error) else
    Ok(state.WithSide(targetId.value,
                      ReplaceAt(state.Side(targetId.value), j.value, targetPv.(boosts := copied.value))))
  }

  function ClearActiveBoosts(side: SideView): SideView {
    match FindActive(side.pokemon)
    case None => side
    case Some(i) => ReplaceAt(side, i, side.pokemon[i].(boosts := ZERO_BOOSTS))
  }

  function ChangeIdentity(state: ObservedState, ref: PokemonRef, details: string, token: HpToken)
    : Reduced<ObservedState>
  {
    var id := ParseSide(ref.side);
    if id.Err? then Err(id.error) else
    var side := state.Side(id.value);
    match FindActive(side.pokemon)
    case None => Err(InvariantViolation)
    case Some(i) =>
      var hp := TokenToObservation(token, ref.side, state.ourSide);
      if hp.Err? then Err(hp.error) else
      var pv := side.pokemon[i];
      Ok(state.WithSide(id.value, ReplaceAt(side, i, pv.(
        nickname := ref.nickname, switchIdentity := Normalize(details), currentDetails := Some(details),
        identityIntervals := OpenInterval(pv.identityIntervals, Some(details), state.eventIndex),
        hp := Some(hp.value), status := token.status, fainted := token.fainted))))
  }

  function EditActive(state: ObservedState, ref: PokemonRef, edit: Edit): Reduced<ObservedState> {
    var id := ParseSide(ref.side);
    if id.Err? then Err(id.error) else
    var side := state.Side(id.value);
    var i := RequireActive(side, ref.nickname);
    if i.Err? then Err(i.error) else
    var pv := EditPokemon(side.pokemon[i.value], edit, ref.side, state.ourSide, state.eventIndex);
    if pv.Err? then Err(pv.error) else
    var edited := state.WithSide(id.value, ReplaceAt(side, i.value, pv.value));
    Ok(edited.(visibleEvidence := edited.visibleEvidence + EditEvidence(ref, edit, state.eventIndex)))
  }

  // ----- the branches that leave the rosters alone -----

  function DeclarePlayer(state: ObservedState, side: string, userId: string, displayName: string)
    : Reduced<ObservedState>
  {
    var id := ParseSide(side);
    if id.Err? then Err(id.error) else
    var ourSide := if userId == state.ourUserId && state.ourSide.None? then Some(id.value) else state.ourSide;
    Ok(state.(ourSide := ourSide)
       .WithSide(id.value, state.Side(id.value).(userId := Some(userId), displayName := Some(displayName))))
  }

  function ChangeField(state: ObservedState, condition: string, action: Action): ObservedState {
    match action
    case Start =>
      if condition in state.fieldConditions then state
      else state.(fieldConditions := state.fieldConditions + [condition])
    case End => state.(fieldConditions := Without(state.fieldConditions, condition))
    case _ => state
  }

  function ChangeCondition(state: ObservedState, side: string, condition: string, action: Action)
    : Reduced<ObservedState>
  {
    var id := ParseSide(side);
    if id.Err? then Err(id.error) else
    var view := state.Side(id.value);
    Ok(state.WithSide(id.value, view.(sideConditions := UpdateSideCondition(view.sideConditions, condition, action))))
  }

  function AddEvidence(state: ObservedState, evidence: VisibleEvidence): ObservedState {
    state.(visibleEvidence := state.visibleEvidence + [evidence])
  }

  function DeclareTeamSize(state: ObservedState, side: string, size: int): Reduced<ObservedState> {
    var id := ParseSide(side);
    if id.Err? then Err(id.error) else
    Ok(state.WithSide(id.value, state.Side(id.value).(teamSize := Some(size))))
  }

  function DeclarePreview(state: ObservedState, side: string, entry: PreviewPokemon): Reduced<ObservedState> {
    var id := ParseSide(side);
    if id.Err? then Err(id.error) else
    var view := state.Side(id.value);
    Ok(state.WithSide(id.value, view.(previewRoster := view.previewRoster + [entry])))
  }

  function ApplyProgress(state: ObservedState, body: EventBody): Reduced<ObservedState> {
    match body
    case BattleStarted => Ok(state.(battleStarted := true))
    case TurnStarted(turn) => Ok(state.(turn := turn))
    case BattleWon(winner) => Ok(state.(winner := Some(winner)))
    case BattleTied => Ok(state.(tied := true))
    case _ => Err(InvariantViolation)
  }

  /** The metadata branches, then the progress branches. */
  function ApplyMetadata(state: ObservedState, body: EventBody): Reduced<ObservedState> {
    match body
    case BattleInit(_) => Ok(state.(roomInitialized := true))
    case PlayerDeclared(side, userId, displayName) => DeclarePlayer(state, side, userId, displayName)
    case TeamSizeDeclared(side, size) => DeclareTeamSize(state, side, size)
    case GenerationDeclared(generation) => Ok(state.(generation := Some(generation)))
    case GameTypeDeclared(gameType) => Ok(state.(gameType := Some(gameType)))
    case TierDeclared(tier) => Ok(state.(tier := Some(tier)))
    case BattleRated(rated) => Ok(state.(rated := Some(rated)))
    case RuleDeclared(rule) => Ok(state.(rules := state.rules + [rule]))
    case PreviewPokemonDeclared(side, details, hasItem) => DeclarePreview(state, side, PreviewPokemon(details, hasItem))
    case PreviewCleared =>
      Ok(state.(p1 := state.p1.(previewRoster := []), p2 := state.p2.(previewRoster := [])))
    case TeamPreviewStarted => Ok(state.(teamPreviewStarted := true))
    case _ => ApplyProgress(state, body)
  }

  /** `body` applied to a state that already carries the event's index. */
  function Apply(state: ObservedState, body: EventBody): Reduced<ObservedState> {
    match body
    case PokemonSwitched(ref, details, hp) => SwitchIn(state, ref, details, hp)
    case PokemonDragged(ref, details, hp) => SwitchIn(state, ref, details, hp)
    case MovePrevented(ref, reason, moveId) =>
      Ok(AddEvidence(state, EvidenceFor(ref, "move_prevented", reason,
                                        if moveId.Some? then [moveId.value] else [], state.eventIndex)))
    case HealthChanged(side, slot, nickname, hp) => ChangeHealth(state, side, slot, nickname, hp)
    case TeamStatusCured(side) => CureTeam(state, side)
    case BoostsSwapped(ref, other, stats) => SwapBoosts(state, ref, other, stats)
    case BoostsCopied(ref, other, stats) => CopyBoosts(state, ref, other, stats)
    case AllBoostsCleared => Ok(state.(p1 := ClearActiveBoosts(state.p1), p2 := ClearActiveBoosts(state.p2)))
    case IdentityChanged(ref, details, hp) => ChangeIdentity(state, ref, details, hp)
    case Targeted(ref, edit) => EditActive(state, ref, edit)
    case WeatherChanged(weather, action) => Ok(state.(weather := if action.End? then None else weather))
    case FieldConditionChanged(condition, action) => Ok(ChangeField(state, condition, action))
    case SideConditionChanged(side, condition, action) => ChangeCondition(state, side, condition, action)
    case SideConditionsSwapped =>
      Ok(state.(p1 := state.p1.(sideConditions := state.p2.sideConditions),
                p2 := state.p2.(sideConditions := state.p1.sideConditions)))
    case EvidenceSeen(kind, side, slot, nickname, effect, annotations) =>
      Ok(AddEvidence(state, VisibleEvidence(state.eventIndex, kind, side, slot, nickname, effect, annotations)))
    case IgnoredDisplay => Ok(state.(ignoredDisplayCount := state.ignoredDisplayCount + 1))
    case _ => ApplyMetadata(state, body)
  }

  /** `ObservationReducer.reduce`. */
  function Reduce(state: ObservedState, eventIndex: int, body: EventBody): Reduced<ObservedState> {
    if eventIndex <= state.eventIndex then Err(InvariantViolation)
    else Apply(state.(eventIndex := eventIndex), body)
  }

  /** A whole event sequence; the first refused event stops it. */
  function ReduceAll(state: ObservedState, events: seq<(int, EventBody)>): Reduced<ObservedState>
    decreases |events|
  {
    if events == [] then Ok(state)
    else match Reduce(state, events[0].0, events[0].1)
      case Err(e) => Err(e)
      case Ok(next) => ReduceAll(next, events[1..])
  }
}
