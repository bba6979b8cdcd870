/** What each accepted event leaves in the public state, and which events are refused and how; stated on the fields an
    event changes and the ones it leaves, without the reducer's helpers. */
module EventMeanings {
  import opened Basics
  import opened ObservedStates
  import opened IdentityKey
  import opened Reducer
  import opened ReducerMeaning

  // ----- who an event names -----

  predicate SideNamed(side: string, id: SideId) {
    (side == "p1" && id.P1?) || (side == "p2" && id.P2?)
  }

  predicate AnySide(side: string) { side == "p1" || side == "p2" }

  function ViewOf(state: ObservedState, id: SideId): SideView {
    match id case P1 => state.p1 case P2 => state.p2
  }

  /** Member `at` is the one on the field. */
  ghost predicate OnField(pokemon: seq<PokemonView>, at: int) {
    0 <= at < |pokemon| && pokemon[at].active && forall i :: 0 <= i < at ==> !pokemon[i].active
  }

  /** Member `at` is on the field under the nickname the event gives. */
  ghost predicate Named(side: SideView, nickname: string, at: int) {
    OnField(side.pokemon, at) && side.pokemon[at].nickname == nickname
  }

  /** A fainted member on the bench with that nickname. */
  predicate Resting(pv: PokemonView, nickname: string) {
    !pv.active && pv.fainted && pv.nickname == nickname
  }

  /** Member `at` is the only such one. */
  ghost predicate Revivable(side: SideView, nickname: string, at: int) {
    && 0 <= at < |side.pokemon| && Resting(side.pokemon[at], nickname)
    && forall i :: 0 <= i < |side.pokemon| && Resting(side.pokemon[i], nickname) ==> i == at
  }

  /** Teammates are told apart by nickname and details without tera parts. */
  predicate Known(pv: PokemonView, nickname: string, details: string) {
    pv.nickname == nickname && pv.switchIdentity == Normalize(details)
  }

  predicate Ours(side: string, ourSide: Option<SideId>) {
    ourSide.Some? && SideNamed(side, ourSide.value)
  }

  // ----- what stays -----

  ghost predicate OnlySide(before: ObservedState, after: ObservedState, id: SideId) {
    match id
    case P1 => after == before.(p1 := after.p1)
    case P2 => after == before.(p2 := after.p2)
  }

  ghost predicate OnlyMember(before: SideView, after: SideView, at: int) {
    && after == before.(pokemon := after.pokemon) && 0 <= at < |before.pokemon| == |after.pokemon|
    && forall i :: 0 <= i < |before.pokemon| && i != at ==> after.pokemon[i] == before.pokemon[i]
  }

  // ----- what a token shows -----

  /** An observation shows the token's health, as precisely as that side's health is known. */
  predicate Shows(hp: HpObservation, token: HpToken, side: string, ourSide: Option<SideId>) {
    && hp.fainted == token.fainted
    && (if token.fainted then hp.current == 0 && hp.maximum == (if token.maximum >= 1 then token.maximum else 1)
        else hp.current == token.current && hp.maximum == token.maximum)
    && (hp.precision.Exact? <==> Ours(side, ourSide))
    && (hp.precision.Percent? <==> !Ours(side, ourSide) && token.maximum == 100)
  }

  /** `after` differs from `before` in its health, which is the token's. */
  predicate Healed(
    before: PokemonView, after: PokemonView, token: HpToken, side: string, ourSide: Option<SideId>)
  {
    && after == before.(hp := after.hp, status := token.status, fainted := token.fainted)
    && after.hp.Some? && Shows(after.hp.value, token, side, ourSide)
  }

  predicate TokenBad(token: HpToken) {
    !token.fainted && !(0 <= token.current <= token.maximum && 0 < token.maximum)
  }

  // ----- dated evidence -----

  /** Every open interval ends now, and a new one starts with the value. */
  ghost predicate Dated(
    before: seq<EvidenceInterval>, after: seq<EvidenceInterval>, value: Option<string>, now: int)
  {
    && |after| == |before| + 1 && after[|before|] == EvidenceInterval(value, now, now, None)
    && Ended(before, after[..|before|], now)
  }

  ghost predicate Ended(before: seq<EvidenceInterval>, after: seq<EvidenceInterval>, now: int) {
    |after| == |before|
    && forall i :: 0 <= i < |before| ==>
         after[i] == if before[i].validUntil.Some? then before[i] else before[i].(validUntil := Some(now))
  }

  // ----- edits of the member on the field -----

  /** `after` is `before` without `x`, the rest in its order. */
  ghost predicate Removed(before: seq<string>, after: seq<string>, x: string) {
    if before == [] then after == []
    else if before[0] == x then Removed(before[1..], after, x)
    else after != [] && after[0] == before[0] && Removed(before[1..], after[1..], x)
  }

  predicate Bounded(value: int, wanted: int) {
    -6 <= value <= 6 && (-6 <= wanted <= 6 ==> value == wanted) && (wanted > 6 ==> value == 6)
    && (wanted < -6 ==> value == -6)
  }

  ghost predicate BoostMoved(before: seq<int>, after: seq<int>, stat: string, mode: BoostMode, amount: int) {
    |after| == |before| == |BOOST_STATS|
    && forall i :: 0 <= i < |after| ==>
         if BOOST_STATS[i] != stat then after[i] == before[i]
         else Bounded(after[i], if mode.Absolute? then amount else before[i] + amount)
  }

  ghost predicate BoostsCleared(before: seq<int>, after: seq<int>, scope: string) {
    |after| == |before| == |BOOST_STATS|
    && forall i :: 0 <= i < |after| ==>
         after[i] == if || scope == "all" || (scope == "positive" && before[i] > 0)
                        || (scope == "negative" && before[i] < 0) || scope == BOOST_STATS[i]
                     then 0 else before[i]
  }

  ghost predicate NoBoosts(boosts: seq<int>) {
    |boosts| == |BOOST_STATS| && forall i :: 0 <= i < |boosts| ==> boosts[i] == 0
  }

  /** What one edit does to the member it names, and nothing else about it. */
  ghost predicate Edited(
    before: PokemonView, edit: Edit, side: string, ourSide: Option<SideId>, now: int, after: PokemonView)
  {
    match edit
    case Faint =>
      && after == before.(fainted := true, hp := after.hp, boosts := after.boosts, volatiles := [],
                          recharging := false, transformTarget := None)
      && NoBoosts(after.boosts) && after.hp.Some? && after.hp.value.current == 0 && after.hp.value.fainted
      && after.hp.value.maximum == (if before.hp.Some? then before.hp.value.maximum else 100)
      && after.hp.value.precision == (if before.hp.Some? then before.hp.value.precision else Percent)
    case UseMove(moveId, _) =>
      after == if moveId in before.revealedMoves then before
               else before.(revealedMoves := before.revealedMoves + [moveId])
    case SetStatus(status) => after == before.(status := status)
    case ChangeBoost(stat, mode, amount) =>
      after == before.(boosts := after.boosts) && BoostMoved(before.boosts, after.boosts, stat, mode, amount)
    case ClearBoosts(scope) =>
      after == before.(boosts := after.boosts) && BoostsCleared(before.boosts, after.boosts, scope)
    case InvertBoosts =>
      && after == before.(boosts := after.boosts) && |after.boosts| == |before.boosts|
      && forall i :: 0 <= i < |before.boosts| ==> after.boosts[i] == -before.boosts[i]
    case ChangeItem(item, action) =>
      && after == before.(itemIntervals := after.itemIntervals)
      && Dated(before.itemIntervals, after.itemIntervals, if action.Set? then item else None, now)
    case ChangeAbility(ability, action) =>
      && after == before.(abilityIntervals := after.abilityIntervals)
      && Dated(before.abilityIntervals, after.abilityIntervals, if action.Set? then ability else None, now)
    case ChangeForm(kind, value, token) =>
      var shown := before.(currentDetails := Some(value));
      Healed(if kind.PersistentDetails? then shown.(switchIdentity := Normalize(value)) else shown, after, token, side,
             ourSide)
    case Transform(target) => after == before.(transformTarget := Some(target))
    case Terastallize(teraType) => after == before.(teraType := Some(teraType))
    case ChangeVolatile(volatile, action) =>
      && after == before.(volatiles := after.volatiles)
      && (match action
          case Start =>
            if volatile in before.volatiles then after.volatiles == before.volatiles
            else multiset(after.volatiles) == multiset(before.volatiles) + multiset{volatile}
                 && StrictlyOrdered(after.volatiles, TextKey)
          case End => Removed(before.volatiles, after.volatiles, volatile)
          case _ => after.volatiles == before.volatiles)
    case SetRecharge(recharging) => after == before.(recharging := recharging)
  }

  /** The evidence list after an edit: a move, a form, a transformation and a terastallization are shown. */
  ghost predicate EditShown(before: ObservedState, ref: PokemonRef, edit: Edit, after: ObservedState) {
    match edit
    case UseMove(moveId, annotations) => Shown(before, ref, "move", moveId, annotations, after)
    case ChangeForm(_, value, _) => Shown(before, ref, "form", value, [], after)
    case Transform(target) => Shown(before, ref, "transform", target, [], after)
    case Terastallize(teraType) => Shown(before, ref, "tera", teraType, [], after)
    case _ => after.visibleEvidence == before.visibleEvidence
  }

  ghost predicate Shown(
    before: ObservedState, ref: PokemonRef, kind: string, effect: string, annotations: seq<string>,
    after: ObservedState)
  {
    after.visibleEvidence
    == before.visibleEvidence + [VisibleEvidence(before.eventIndex, kind, Some(ref.side), Some(ref.slot),
                                                 Some(ref.nickname), Some(effect), annotations)]
  }

  ghost predicate EditedAt(
    before: ObservedState, ref: PokemonRef, edit: Edit, after: ObservedState, id: SideId, at: int)
  {
    && SideNamed(ref.side, id) && Named(ViewOf(before, id), ref.nickname, at)
    && OnlySide(before.(visibleEvidence := after.visibleEvidence), after, id)
    && OnlyMember(ViewOf(before, id), ViewOf(after, id), at)
    && Edited(ViewOf(before, id).pokemon[at], edit, ref.side, before.ourSide, before.eventIndex,
              ViewOf(after, id).pokemon[at])
    && EditShown(before, ref, edit, after)
  }

  // ----- the other roster events -----

  ghost predicate HealedAt(
    before: ObservedState, side: string, slot: Option<int>, nickname: string, token: HpToken, after: ObservedState,
    id: SideId, at: int)
  {
    && SideNamed(side, id) && OnlySide(before, after, id)
    && (if slot.Some? then Named(ViewOf(before, id), nickname, at) else Revivable(ViewOf(before, id), nickname, at))
    && OnlyMember(ViewOf(before, id), ViewOf(after, id), at)
    && Healed(ViewOf(before, id).pokemon[at], ViewOf(after, id).pokemon[at], token, side, before.ourSide)
  }

  ghost predicate RenamedAt(
    before: ObservedState, ref: PokemonRef, details: string, token: HpToken, after: ObservedState, id: SideId, at: int)
  {
    && SideNamed(ref.side, id) && OnlySide(before, after, id) && OnField(ViewOf(before, id).pokemon, at)
    && OnlyMember(ViewOf(before, id), ViewOf(after, id), at)
    && var was, now := ViewOf(before, id).pokemon[at], ViewOf(after, id).pokemon[at];
       && Healed(was.(nickname := ref.nickname, switchIdentity := Normalize(details), currentDetails := Some(details),
                      identityIntervals := now.identityIntervals), now, token, ref.side, before.ourSide)
       && Dated(was.identityIntervals, now.identityIntervals, Some(details), before.eventIndex)
  }

  /** An ability suppressed on the field is no longer once its holder left it; a revealed one stays known. */
  ghost predicate AbilitiesKept(before: PokemonView, after: PokemonView, now: int) {
    var intervals := before.abilityIntervals;
    if before.active && intervals != [] && intervals[|intervals| - 1].validUntil.None?
       && intervals[|intervals| - 1].value.None?
    then Ended(intervals, after.abilityIntervals, now)
    else after.abilityIntervals == intervals
  }

  /** A member that is on the bench afterwards: as it was, or withdrawn with nothing but what was learnt of it. */
  ghost predicate Benched(before: PokemonView, after: PokemonView, now: int) {
    if !before.active then after == before
    else
      && after == before.(active := false, boosts := after.boosts, volatiles := [], recharging := false,
                          transformTarget := None, abilityIntervals := after.abilityIntervals)
      && NoBoosts(after.boosts) && AbilitiesKept(before, after, now)
  }

  ghost predicate EnteredAt(
    before: ObservedState, ref: PokemonRef, details: string, token: HpToken, after: ObservedState, id: SideId, at: int)
  {
    && SideNamed(ref.side, id) && OnlySide(before, after, id)
    && var was, now := ViewOf(before, id), ViewOf(after, id);
       && now == was.(pokemon := now.pokemon, activeSlot := Some(1))
       && 0 <= at <= |was.pokemon| && |now.pokemon| == (if at == |was.pokemon| then at + 1 else |was.pokemon|)
       && (forall i :: 0 <= i < at ==> !Known(was.pokemon[i], ref.nickname, details))
       && (at < |was.pokemon| ==> Known(was.pokemon[at], ref.nickname, details))
       && (forall i :: 0 <= i < |was.pokemon| && i != at ==>
             Benched(was.pokemon[i], now.pokemon[i], before.eventIndex))
       && EntersAs(now.pokemon[at], details, token, ref.side, before.ourSide)
       && (if at < |was.pokemon| then ReturnedAs(was.pokemon[at], now.pokemon[at], before.eventIndex)
           else Unknown(ref.nickname, now.pokemon[at]))
  }

  /** What is seen of a member that enters: the token's health and status, and a clean start. */
  ghost predicate EntersAs(
    pv: PokemonView, details: string, token: HpToken, side: string, ourSide: Option<SideId>)
  {
    && pv.active && !pv.fainted && pv.status == token.status && pv.hp.Some? && Shows(pv.hp.value, token, side, ourSide)
    && pv.currentDetails == Some(details) && pv.switchIdentity == Normalize(details) && NoBoosts(pv.boosts)
    && pv.volatiles == [] && !pv.recharging && pv.transformTarget.None?
  }

  /** A known member that enters keeps everything else. */
  ghost predicate ReturnedAs(was: PokemonView, now: PokemonView, index: int) {
    && now == was.(active := true, hp := now.hp, status := now.status, fainted := false,
                   currentDetails := now.currentDetails, boosts := now.boosts, volatiles := [], recharging := false,
                   transformTarget := None, abilityIntervals := now.abilityIntervals)
    && AbilitiesKept(was, now, index)
  }

  /** Nothing else is known of a member seen for the first time. */
  ghost predicate Unknown(nickname: string, pv: PokemonView) {
    && pv.nickname == nickname && pv.identityIntervals == [] && pv.previewDetails.None? && pv.revealedMoves == []
    && pv.itemIntervals == [] && pv.abilityIntervals == [] && pv.teraType.None?
  }

  /** Boosts after a swap: the stats named an odd number of times changed hands. */
  ghost predicate Swapped(
    source: seq<int>, target: seq<int>, newSource: seq<int>, newTarget: seq<int>, stats: seq<string>)
  {
    && |source| == |target| == |newSource| == |newTarget| == |BOOST_STATS|
    && forall i :: 0 <= i < |BOOST_STATS| ==>
         if Occurrences(stats, BOOST_STATS[i]) % 2 == 1
         then newSource[i] == target[i] && newTarget[i] == source[i]
         else newSource[i] == source[i] && newTarget[i] == target[i]
  }

  /** On one side both names mean the same member, and swapping with itself changes nothing. */
  ghost predicate SwappedAt(
    before: ObservedState, source: PokemonRef, target: PokemonRef, stats: seq<string>, after: ObservedState,
    from: SideId, i: int, to: SideId, j: int)
  {
    && SideNamed(source.side, from) && SideNamed(target.side, to)
    && Named(ViewOf(before, from), source.nickname, i) && Named(ViewOf(before, to), target.nickname, j)
    && if from == to then after == before
       else
         && after == before.(p1 := after.p1, p2 := after.p2)
         && OnlyMember(ViewOf(before, from), ViewOf(after, from), i)
         && OnlyMember(ViewOf(before, to), ViewOf(after, to), j)
         && var s, t := ViewOf(before, from).pokemon[i], ViewOf(before, to).pokemon[j];
            var newS, newT := ViewOf(after, from).pokemon[i], ViewOf(after, to).pokemon[j];
            && newS == s.(boosts := newS.boosts) && newT == t.(boosts := newT.boosts)
            && Swapped(s.boosts, t.boosts, newS.boosts, newT.boosts, stats)
  }

  ghost predicate CopiedAt(
    before: ObservedState, target: PokemonRef, source: PokemonRef, stats: seq<string>, after: ObservedState,
    from: SideId, i: int, to: SideId, j: int)
  {
    && SideNamed(source.side, from) && SideNamed(target.side, to)
    && Named(ViewOf(before, from), source.nickname, i) && Named(ViewOf(before, to), target.nickname, j)
    && OnlySide(before, after, to) && OnlyMember(ViewOf(before, to), ViewOf(after, to), j)
    && var s, t, newT := ViewOf(before, from).pokemon[i], ViewOf(before, to).pokemon[j], ViewOf(after, to).pokemon[j];
       && newT == t.(boosts := newT.boosts) && |s.boosts| == |t.boosts| == |newT.boosts| == |BOOST_STATS|
       && forall k :: 0 <= k < |BOOST_STATS| ==>
            newT.boosts[k] == if BOOST_STATS[k] in stats then s.boosts[k] else t.boosts[k]
  }

  /** The member on the field, if there is one, has no boosts; nothing else of the side changes. */
  ghost predicate FieldCleared(before: SideView, after: SideView) {
    && after == before.(pokemon := after.pokemon) && |after.pokemon| == |before.pokemon|
    && forall i :: 0 <= i < |before.pokemon| ==>
         if OnField(before.pokemon, i)
         then after.pokemon[i] == before.pokemon[i].(boosts := after.pokemon[i].boosts)
              && NoBoosts(after.pokemon[i].boosts)
         else after.pokemon[i] == before.pokemon[i]
  }

  ghost predicate CuredAt(before: ObservedState, side: string, after: ObservedState, id: SideId) {
    && SideNamed(side, id) && OnlySide(before, after, id)
    && var was, now := ViewOf(before, id), ViewOf(after, id);
       && now == was.(pokemon := now.pokemon) && |now.pokemon| == |was.pokemon|
       && forall i :: 0 <= i < |was.pokemon| ==> now.pokemon[i] == was.pokemon[i].(status := None)
  }

  // ----- events beside the rosters -----

  ghost predicate DeclaredAt(
    before: ObservedState, side: string, userId: string, displayName: string, after: ObservedState, id: SideId)
  {
    && SideNamed(side, id) && OnlySide(before.(ourSide := after.ourSide), after, id)
    && ViewOf(after, id) == ViewOf(before, id).(userId := Some(userId), displayName := Some(displayName))
    && after.ourSide == if before.ourSide.None? && userId == before.ourUserId then Some(id) else before.ourSide
  }

  ghost predicate ResizedAt(before: ObservedState, side: string, size: int, after: ObservedState, id: SideId) {
    && SideNamed(side, id) && OnlySide(before, after, id)
    && ViewOf(after, id) == ViewOf(before, id).(teamSize := Some(size))
  }

  ghost predicate PreviewedAt(
    before: ObservedState, side: string, entry: PreviewPokemon, after: ObservedState, id: SideId)
  {
    && SideNamed(side, id) && OnlySide(before, after, id)
    && ViewOf(after, id) == ViewOf(before, id).(previewRoster := ViewOf(before, id).previewRoster + [entry])
  }

  function MostLayers(condition: string): int {
    if condition == "spikes" then 3 else if condition == "toxicspikes" then 2 else 1
  }

  /** Layers of every condition after the event: one more up to the most there can be, none, or as before. */
  ghost predicate LayeredAt(
    before: ObservedState, side: string, condition: string, action: Action, after: ObservedState, id: SideId)
  {
    && SideNamed(side, id) && OnlySide(before, after, id)
    && var was, now := ViewOf(before, id), ViewOf(after, id);
       && now == was.(sideConditions := now.sideConditions)
       && forall name :: LayersMoved(was.sideConditions, now.sideConditions, condition, action, name)
  }

  /** The side has `n` layers of the condition. */
  ghost predicate HasLayers(conditions: seq<(string, int)>, name: string, n: int) {
    if n == 0 then forall layers :: (name, layers) !in conditions
    else (name, n) in conditions && forall layers :: (name, layers) in conditions ==> layers == n
  }

  ghost predicate LayersMoved(
    before: seq<(string, int)>, after: seq<(string, int)>, condition: string, action: Action, name: string)
  {
    forall was, now :: HasLayers(before, name, was) && HasLayers(after, name, now) ==>
      if name != condition then now == was
      else match action
        case Start => now == (if was < MostLayers(name) then was + 1 else MostLayers(name))
        case Upkeep => now == (if was < MostLayers(name) then was + 1 else MostLayers(name))
        case End => now == 0
        case _ => now == was
  }

  ghost predicate FieldMoved(before: seq<string>, after: seq<string>, condition: string, action: Action) {
    match action
    case Start => after == if condition in before then before else before + [condition]
    case End => Removed(before, after, condition)
    case _ => after == before
  }

  /** What an event leaves of a state that carries its index already. */
  ghost predicate Means(before: ObservedState, body: EventBody, after: ObservedState) {
    match body
    case BattleInit(_) => after == before.(roomInitialized := true)
    case PlayerDeclared(side, userId, displayName) =>
      exists id :: DeclaredAt(before, side, userId, displayName, after, id)
    case TeamSizeDeclared(side, size) => exists id :: ResizedAt(before, side, size, after, id)
    case GenerationDeclared(generation) => after == before.(generation := Some(generation))
    case GameTypeDeclared(gameType) => after == before.(gameType := Some(gameType))
    case TierDeclared(tier) => after == before.(tier := Some(tier))
    case BattleRated(rated) => after == before.(rated := Some(rated))
    case RuleDeclared(rule) => after == before.(rules := before.rules + [rule])
    case PreviewPokemonDeclared(side, details, hasItem) =>
      exists id :: PreviewedAt(before, side, PreviewPokemon(details, hasItem), after, id)
    case PreviewCleared =>
      after == before.(p1 := before.p1.(previewRoster := []), p2 := before.p2.(previewRoster := []))
    case TeamPreviewStarted => after == before.(teamPreviewStarted := true)
    case BattleStarted => after == before.(battleStarted := true)
    case TurnStarted(turn) => after == before.(turn := turn)
    case BattleWon(winner) => after == before.(winner := Some(winner))
    case BattleTied => after == before.(tied := true)
    case PokemonSwitched(ref, details, hp) => exists id, at :: EnteredAt(before, ref, details, hp, after, id, at)
    case PokemonDragged(ref, details, hp) => exists id, at :: EnteredAt(before, ref, details, hp, after, id, at)
    case MovePrevented(ref, reason, moveId) =>
      && after == before.(visibleEvidence := after.visibleEvidence)
      && Shown(before, ref, "move_prevented", reason, if moveId.Some? then [moveId.value] else [], after)
    case HealthChanged(side, slot, nickname, hp) =>
      exists id, at :: HealedAt(before, side, slot, nickname, hp, after, id, at)
    case TeamStatusCured(side) => exists id :: CuredAt(before, side, after, id)
    case BoostsSwapped(ref, other, stats) =>
      exists from, i, to, j :: SwappedAt(before, ref, other, stats, after, from, i, to, j)
    case BoostsCopied(ref, other, stats) =>
      exists from, i, to, j :: CopiedAt(before, ref, other, stats, after, from, i, to, j)
    case AllBoostsCleared =>
      && after == before.(p1 := after.p1, p2 := after.p2)
      && FieldCleared(before.p1, after.p1) && FieldCleared(before.p2, after.p2)
    case IdentityChanged(ref, details, hp) => exists id, at :: RenamedAt(before, ref, details, hp, after, id, at)
    case Targeted(ref, edit) => exists id, at :: EditedAt(before, ref, edit, after, id, at)
    case WeatherChanged(weather, action) => after == before.(weather := if action.End? then None else weather)
    case FieldConditionChanged(condition, action) =>
      && after == before.(fieldConditions := after.fieldConditions)
      && FieldMoved(before.fieldConditions, after.fieldConditions, condition, action)
    case SideConditionChanged(side, condition, action) =>
      exists id :: LayeredAt(before, side, condition, action, after, id)
    case SideConditionsSwapped =>
      after == before.(p1 := before.p1.(sideConditions := before.p2.sideConditions),
                       p2 := before.p2.(sideConditions := before.p1.sideConditions))
    case EvidenceSeen(kind, side, slot, nickname, effect, annotations) =>
      after == before.(visibleEvidence := before.visibleEvidence
                         + [VisibleEvidence(before.eventIndex, kind, side, slot, nickname, effect, annotations)])
    case IgnoredDisplay => after == before.(ignoredDisplayCount := before.ignoredDisplayCount + 1)
  }

  // ----- which events are refused -----

  ghost predicate SomeNamed(state: ObservedState, side: string, nickname: string) {
    exists id, at :: SideNamed(side, id) && Named(ViewOf(state, id), nickname, at)
  }

  ghost predicate SomeOnField(state: ObservedState, side: string) {
    exists id, at :: SideNamed(side, id) && OnField(ViewOf(state, id).pokemon, at)
  }

  ghost predicate SomeRevivable(state: ObservedState, side: string, nickname: string) {
    exists id, at :: SideNamed(side, id) && Revivable(ViewOf(state, id), nickname, at)
  }

  ghost predicate AllStats(stats: seq<string>) {
    forall stat :: stat in stats ==> stat in BOOST_STATS
  }

  /** Why an edit of a member that is there is refused, if it is. */
  function EditRefusal(edit: Edit): Option<ReduceError> {
    match edit
    case ChangeBoost(stat, _, _) => if stat in BOOST_STATS then None else Some(ValueFault)
    case ClearBoosts(scope) =>
      if scope == "all" || scope == "positive" || scope == "negative" || scope in BOOST_STATS then None
      else Some(InvariantViolation)
    case ChangeForm(_, _, token) => if TokenBad(token) then Some(ValueFault) else None
    case _ => None
  }

  /** Why an event is refused, if it is: by its side, by the member it names, or by a value. */
  ghost function Refusal(state: ObservedState, body: EventBody): Option<ReduceError> {
    match body
    case PlayerDeclared(side, _, _) => if AnySide(side) then None else Some(InvariantViolation)
    case TeamSizeDeclared(side, _) => if AnySide(side) then None else Some(InvariantViolation)
    case PreviewPokemonDeclared(side, _, _) => if AnySide(side) then None else Some(InvariantViolation)
    case TeamStatusCured(side) => if AnySide(side) then None else Some(InvariantViolation)
    case SideConditionChanged(side, _, _) => if AnySide(side) then None else Some(InvariantViolation)
    case PokemonSwitched(ref, _, hp) => EntryRefusal(ref, hp)
    case PokemonDragged(ref, _, hp) => EntryRefusal(ref, hp)
    case HealthChanged(side, slot, nickname, hp) => HealthRefusal(state, side, slot, nickname, hp)
    case BoostsSwapped(ref, other, stats) => ExchangeRefusal(state, ref, other, stats)
    case BoostsCopied(ref, other, stats) => ExchangeRefusal(state, ref, other, stats)
    case IdentityChanged(ref, _, hp) => IdentityRefusal(state, ref, hp)
    case Targeted(ref, edit) => TargetedRefusal(state, ref, edit)
    case _ => None
  }

  ghost function HealthRefusal(
    state: ObservedState, side: string, slot: Option<int>, nickname: string, token: HpToken): Option<ReduceError>
  {
    if slot.Some? && !SomeNamed(state, side, nickname) then Some(InvariantViolation)
    else if slot.None? && !SomeRevivable(state, side, nickname) then Some(InvariantViolation)
    else if TokenBad(token) then Some(ValueFault)
    else None
  }

  ghost function IdentityRefusal(state: ObservedState, ref: PokemonRef, token: HpToken): Option<ReduceError> {
    if !SomeOnField(state, ref.side) then Some(InvariantViolation)
    else if TokenBad(token) then Some(ValueFault)
    else None
  }

  ghost function TargetedRefusal(state: ObservedState, ref: PokemonRef, edit: Edit): Option<ReduceError> {
    if SomeNamed(state, ref.side, ref.nickname) then EditRefusal(edit) else Some(InvariantViolation)
  }

  function EntryRefusal(ref: PokemonRef, token: HpToken): Option<ReduceError> {
    if TokenBad(token) then Some(ValueFault) else if AnySide(ref.side) then None else Some(InvariantViolation)
  }

  ghost function ExchangeRefusal(state: ObservedState, ref: PokemonRef, other: PokemonRef, stats: seq<string>)
    : Option<ReduceError>
  {
    if !(SomeNamed(state, ref.side, ref.nickname) && SomeNamed(state, other.side, other.nickname)) then
      Some(InvariantViolation)
    else if AllStats(stats) then None
    else Some(ValueFault)
  }

  /** The reducer did with an event what its meaning says: refused it for the reason, or left the state it means. */
  ghost predicate Does(state: ObservedState, body: EventBody, result: Reduced<ObservedState>) {
    match Refusal(state, body)
    case Some(error) => result == Err(error)
    case None => result.Ok? && Means(state, body, result.value)
  }
}
