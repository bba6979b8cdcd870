/** What every accepted event keeps: well-formed rosters, dated evidence, and nothing observed is lost. */
module ReducerInvariants {
  import opened Basics
  import opened ObservedStates
  import opened IdentityKey
  import opened Reducer

  // ----- the invariant -----

  /** Ordered, disjoint half-open intervals up to `bound`; only the last one may be open. */
  ghost predicate IntervalsOk(intervals: seq<EvidenceInterval>, bound: int) {
    && (forall i :: 0 <= i < |intervals| ==>
          && intervals[i].source == intervals[i].validFrom <= bound
          && (intervals[i].validUntil.Some? ==> intervals[i].validFrom < intervals[i].validUntil.value <= bound)
          && (i < |intervals| - 1 ==> intervals[i].validUntil.Some?))
    && (forall i, j :: 0 <= i < j < |intervals| ==> intervals[i].validUntil.value <= intervals[j].validFrom)
  }

  ghost predicate BoostsOk(boosts: seq<int>) {
    |boosts| == |BOOST_STATS| && forall i :: 0 <= i < |boosts| ==> -6 <= boosts[i] <= 6
  }

  ghost predicate Clean(pv: PokemonView) {
    pv.boosts == ZERO_BOOSTS && pv.volatiles == [] && !pv.recharging && pv.transformTarget.None?
    && !SuppressionOpen(pv.abilityIntervals)
  }

  ghost predicate MemberOk(pv: PokemonView, bound: int) {
    && IntervalsOk(pv.itemIntervals, bound)
    && IntervalsOk(pv.abilityIntervals, bound)
    && IntervalsOk(pv.identityIntervals, bound)
    && BoostsOk(pv.boosts)
    && StrictlyOrdered(pv.volatiles, TextKey)
    && Distinct(pv.revealedMoves)
    && (pv.hp.Some? ==> pv.hp.value.maximum > 0 && 0 <= pv.hp.value.current <= pv.hp.value.maximum)
    && (pv.fainted ==> pv.hp.Some? && pv.hp.value.fainted && pv.hp.value.current == 0)
    && (!pv.active ==> Clean(pv))
  }

  predicate HasActive(pokemon: seq<PokemonView>) {
    FindActive(pokemon).Some?
  }

  ghost predicate AtMostOneActive(pokemon: seq<PokemonView>) {
    forall i, j :: 0 <= i < j < |pokemon| ==> !(pokemon[i].active && pokemon[j].active)
  }

  ghost predicate ConditionsOk(conditions: seq<(string, int)>) {
    && StrictlyOrdered(conditions, ConditionName)
    && forall i :: 0 <= i < |conditions| ==> 1 <= conditions[i].1 <= LayerCap(conditions[i].0)
  }

  ghost predicate SideOk(side: SideView, bound: int) {
    && (forall i :: 0 <= i < |side.pokemon| ==> MemberOk(side.pokemon[i], bound))
    && AtMostOneActive(side.pokemon)
    && (side.activeSlot.Some? <==> HasActive(side.pokemon))
    && ConditionsOk(side.sideConditions)
  }

  ghost predicate EvidenceOk(evidence: seq<VisibleEvidence>, bound: int) {
    && (forall i :: 0 <= i < |evidence| ==> evidence[i].eventIndex <= bound)
    && (forall i, j :: 0 <= i < j < |evidence| ==> evidence[i].eventIndex < evidence[j].eventIndex)
  }

  ghost predicate StateOkAt(state: ObservedState, bound: int) {
    SideOk(state.p1, bound) && SideOk(state.p2, bound) && EvidenceOk(state.visibleEvidence, bound)
  }

  ghost predicate StateOk(state: ObservedState) {
    StateOkAt(state, state.eventIndex)
  }

  // ----- the growth relation -----

  ghost predicate Extends(before: seq<EvidenceInterval>, after: seq<EvidenceInterval>) {
    |before| <= |after|
    && forall i :: 0 <= i < |before| ==>
         if before[i].validUntil.Some? then after[i] == before[i]
         else after[i].(validUntil := None) == before[i]
  }

  ghost predicate MemberGrows(before: PokemonView, after: PokemonView) {
    && before.revealedMoves <= after.revealedMoves
    && Extends(before.itemIntervals, after.itemIntervals)
    && Extends(before.abilityIntervals, after.abilityIntervals)
    && Extends(before.identityIntervals, after.identityIntervals)
  }

  ghost predicate SideGrows(before: SideView, after: SideView) {
    && |before.pokemon| <= |after.pokemon|
    && (forall i :: 0 <= i < |before.pokemon| ==> MemberGrows(before.pokemon[i], after.pokemon[i]))
    && (HasActive(before.pokemon) ==> HasActive(after.pokemon))
  }

  ghost predicate StateGrows(before: ObservedState, after: ObservedState) {
    && before.eventIndex <= after.eventIndex
    && before.visibleEvidence <= after.visibleEvidence
    && SideGrows(before.p1, after.p1)
    && SideGrows(before.p2, after.p2)
  }

  lemma GrowsTransitive(a: ObservedState, b: ObservedState, c: ObservedState)
    requires StateGrows(a, b) && StateGrows(b, c)
    ensures StateGrows(a, c)
  {
    SideGrowsTransitive(a.p1, b.p1, c.p1);
    SideGrowsTransitive(a.p2, b.p2, c.p2);
  }

  lemma SideGrowsTransitive(a: SideView, b: SideView, c: SideView)
    requires SideGrows(a, b) && SideGrows(b, c)
    ensures SideGrows(a, c)
  {
    forall i | 0 <= i < |a.pokemon| ensures MemberGrows(a.pokemon[i], c.pokemon[i]) {
      assert MemberGrows(a.pokemon[i], b.pokemon[i]) && MemberGrows(b.pokemon[i], c.pokemon[i]);
    }
  }

  lemma MemberLater(pv: PokemonView, bound: int, later: int)
    requires MemberOk(pv, bound) && bound <= later
    ensures MemberOk(pv, later)
  {}

  lemma SideLater(side: SideView, bound: int, later: int)
    requires SideOk(side, bound) && bound <= later
    ensures SideOk(side, later)
    ensures SideGrows(side, side)
  {
    forall i | 0 <= i < |side.pokemon| ensures MemberOk(side.pokemon[i], later) {
      MemberLater(side.pokemon[i], bound, later);
    }
  }

  // ----- evidence intervals -----

  lemma OpenIntervalKeeps(intervals: seq<EvidenceInterval>, value: Option<string>, bound: int, eventIndex: int)
    requires IntervalsOk(intervals, bound) && bound < eventIndex
    ensures IntervalsOk(OpenInterval(intervals, value, eventIndex), eventIndex)
    ensures Extends(intervals, OpenInterval(intervals, value, eventIndex))
    ensures IntervalsOk(CloseOpenInterval(intervals, eventIndex), eventIndex)
    ensures Extends(intervals, CloseOpenInterval(intervals, eventIndex))
    ensures !SuppressionOpen(CloseOpenInterval(intervals, eventIndex))
  {
    var closed := CloseOpenInterval(intervals, eventIndex);
    forall i, j | 0 <= i < j < |closed| ensures closed[i].validUntil.value <= closed[j].validFrom {
      assert intervals[i].validUntil.Some?;
    }
  }

  // ----- side conditions -----

  ghost predicate LayersOk(items: seq<(string, int)>) {
    && (forall i, j :: 0 <= i < j < |items| ==> items[i].0 != items[j].0)
    && (forall i :: 0 <= i < |items| ==> 1 <= items[i].1 <= LayerCap(items[i].0))
  }

  /** Putting changes the layers stored under one name, or adds the name at the end. */
  lemma {:induction false} PutShape(items: seq<(string, int)>, name: string, layers: int)
    ensures var after := DictPut(items, name, layers);
            && |items| <= |after| <= |items| + 1
            && (forall i :: 0 <= i < |items| ==>
                  after[i].0 == items[i].0 && (after[i] == items[i] || after[i] == (name, layers)))
            && (|after| > |items| ==> after[|items|] == (name, layers)
                                      && forall i :: 0 <= i < |items| ==> items[i].0 != name)
  {
    if items != [] && items[0].0 != name {
      PutShape(items[1..], name, layers);
    }
  }

  lemma {:induction false} PutKeeps(items: seq<(string, int)>, name: string, layers: int)
    requires LayersOk(items) && 1 <= layers <= LayerCap(name)
    ensures LayersOk(DictPut(items, name, layers))
  {
    PutShape(items, name, layers);
    hide DictPut, LayerCap;
  }

  lemma {:induction false} GetFinds(items: seq<(string, int)>, name: string)
    requires LayersOk(items)
    ensures DictGet(items, name, 0) >= 0
  {
    if items != [] && items[0].0 != name {
      GetFinds(items[1..], name);
    }
  }

  lemma {:induction false} PutNew(items: seq<(string, int)>, name: string, layers: int)
    requires forall i :: 0 <= i < |items| ==> items[i].0 != name
    ensures DictPut(items, name, layers) == items + [(name, layers)]
  {
    if items != [] {
      PutNew(items[1..], name, layers);
    }
  }

  /** `dict(conditions)` of stored conditions holds just those items. */
  lemma {:induction false} DictFromItems(items: seq<(string, int)>)
    requires LayersOk(items)
    ensures DictFrom(items) == items
  {
    if items != [] {
      var last := |items| - 1;
      DictFromItems(items[..last]);
      PutNew(items[..last], items[last].0, items[last].1);
      assert items == items[..last] + [items[last]];
    }
  }

  lemma {:induction false} PopKeeps(items: seq<(string, int)>, name: string)
    requires LayersOk(items)
    ensures LayersOk(DictPop(items, name))
    ensures forall item :: item in DictPop(items, name) ==> item in items
  {
    if items != [] {
      hide LayerCap;
      PopKeeps(items[1..], name);
      var rest := DictPop(items[1..], name);
      forall j | 0 <= j < |rest| ensures rest[j].0 != items[0].0 {
        assert rest[j] in rest && rest[j] in items[1..];
      }
    }
  }

  lemma SortedLayersOk(items: seq<(string, int)>)
    requires LayersOk(items)
    ensures ConditionsOk(SortByKey(items, ConditionName))
  {
    SortOrders(items, ConditionName);
    var sorted := SortByKey(items, ConditionName);
    forall i | 0 <= i < |sorted| ensures 1 <= sorted[i].1 <= LayerCap(sorted[i].0) {
      assert sorted[i] in multiset(sorted);
      assert sorted[i] in items;
    }
  }

  lemma ConditionsAreLayers(conditions: seq<(string, int)>)
    requires ConditionsOk(conditions)
    ensures LayersOk(conditions)
  {
    forall i, j | 0 <= i < j < |conditions| ensures conditions[i].0 != conditions[j].0 {
      LexLessIrreflexive(ConditionName(conditions[i]));
      assert LexLess(ConditionName(conditions[i]), ConditionName(conditions[j]));
    }
  }

  lemma AddLayerKeeps(conditions: seq<(string, int)>, condition: string)
    requires LayersOk(conditions)
    ensures LayersOk(AddLayer(conditions, condition))
  {
    GetFinds(conditions, condition);
    var layers := DictGet(conditions, condition, 0) + 1;
    PutKeeps(conditions, condition, if layers < LayerCap(condition) then layers else LayerCap(condition));
  }

  lemma SideConditionKeeps(conditions: seq<(string, int)>, condition: string, action: Action)
    requires ConditionsOk(conditions)
    ensures ConditionsOk(UpdateSideCondition(conditions, condition, action))
  {
    hide ConditionsOk, LayersOk, DictPop, AddLayer;
    ConditionsAreLayers(conditions);
    DictFromItems(conditions);
    AddLayerKeeps(conditions, condition);
    PopKeeps(conditions, condition);
    SortedLayersOk(conditions);
    SortedLayersOk(AddLayer(conditions, condition));
    SortedLayersOk(DictPop(conditions, condition));
  }

  // ----- boosts -----

  lemma {:induction false} SwapKeeps(source: seq<int>, target: seq<int>, stats: seq<string>)
    requires BoostsOk(source) && BoostsOk(target)
    ensures SwapStats(source, target, stats).Ok? ==>
              BoostsOk(SwapStats(source, target, stats).value.0) && BoostsOk(SwapStats(source, target, stats).value.1)
    decreases |stats|
  {
    if stats != [] && StatIndex(stats[0]).Ok? {
      var i := StatIndex(stats[0]).value;
      SwapKeeps(source[i := target[i]], target[i := source[i]], stats[1..]);
    }
  }

  lemma {:induction false} CopyKeeps(source: seq<int>, target: seq<int>, stats: seq<string>)
    requires BoostsOk(source) && BoostsOk(target)
    ensures CopyStats(source, target, stats).Ok? ==> BoostsOk(CopyStats(source, target, stats).value)
    decreases |stats|
  {
    if stats != [] && StatIndex(stats[0]).Ok? {
      var i := StatIndex(stats[0]).value;
      CopyKeeps(source, target[i := source[i]], stats[1..]);
    }
  }

  // ----- volatiles -----

  lemma {:induction false} WithoutKeepsOrder(xs: seq<string>, x: string)
    requires StrictlyOrdered(xs, TextKey)
    ensures StrictlyOrdered(Without(xs, x), TextKey)
  {
    if xs != [] {
      WithoutKeepsOrder(xs[1..], x);
      var rest := Without(xs[1..], x);
      forall j | 0 <= j < |rest| ensures LexLess(TextKey(xs[0]), TextKey(rest[j])) {
        assert rest[j] in xs[1..];
        var k :| 0 <= k < |xs[1..]| && xs[1..][k] == rest[j];
        assert xs[k + 1] == rest[j];
      }
    }
  }

  lemma AddVolatileKeeps(volatiles: seq<string>, volatile: string)
    requires StrictlyOrdered(volatiles, TextKey) && volatile !in volatiles
    ensures StrictlyOrdered(SortByKey(volatiles + [volatile], TextKey), TextKey)
  {
    var all := volatiles + [volatile];
    forall i, j | 0 <= i < j < |all| ensures TextKey(all[i]) != TextKey(all[j]) {
      if j < |volatiles| {
        LexLessIrreflexive(TextKey(all[i]));
        assert LexLess(TextKey(volatiles[i]), TextKey(volatiles[j]));
      }
    }
    SortOrders(all, TextKey);
  }

  // ----- members -----

  lemma TokenHp(token: HpToken, side: string, ourSide: Option<SideId>)
    ensures var hp := TokenToObservation(token, side, ourSide);
            hp.Ok? ==>
              && hp.value.fainted == token.fainted
              && hp.value.maximum > 0 && 0 <= hp.value.current <= hp.value.maximum
              && (token.fainted ==> hp.value.current == 0)
  {}

  lemma BoostWriteKeeps(boosts: seq<int>, stat: string, mode: BoostMode, amount: int)
    requires BoostsOk(boosts)
    ensures WriteBoost(boosts, stat, mode, amount).Ok? ==> BoostsOk(WriteBoost(boosts, stat, mode, amount).value)
  {}

  lemma BoostClearKeeps(boosts: seq<int>, scope: string)
    requires BoostsOk(boosts)
    ensures ClearedBoosts(boosts, scope).Ok? ==> BoostsOk(ClearedBoosts(boosts, scope).value)
  {}

  lemma BoostInvertKeeps(boosts: seq<int>)
    requires BoostsOk(boosts)
    ensures BoostsOk(MapBoosts(b => -b, boosts))
  {}

  lemma Unchanged(pv: PokemonView)
    ensures MemberGrows(pv, pv)
  {}

  /** An edit keeps a member well formed and active, and forgets nothing about it. */
  lemma {:induction false} EditKeeps(
    pv: PokemonView, edit: Edit, side: string, ourSide: Option<SideId>, bound: int, eventIndex: int)
    requires MemberOk(pv, bound) && pv.active && bound < eventIndex
    requires EditPokemon(pv, edit, side, ourSide, eventIndex).Ok?
    ensures var after := EditPokemon(pv, edit, side, ourSide, eventIndex).value;
            MemberOk(after, eventIndex) && after.active && MemberGrows(pv, after)
  {
    hide IntervalsOk, Extends, BoostsOk, StrictlyOrdered, OpenInterval, WriteBoost, ClearedBoosts, SortByKey,
         TokenToObservation, Normalize, SuppressionOpen, Without;
    MemberLater(pv, bound, eventIndex);
    Unchanged(pv);
    assert BoostsOk(ZERO_BOOSTS) && StrictlyOrdered([], TextKey) by { ZeroIsOk(); }
    match edit
    case ChangeBoost(stat, mode, amount) => BoostWriteKeeps(pv.boosts, stat, mode, amount);
    case ClearBoosts(scope) => BoostClearKeeps(pv.boosts, scope);
    case InvertBoosts => BoostInvertKeeps(pv.boosts);
    case ChangeForm(_, _, token) => TokenHp(token, side, ourSide);
    case ChangeItem(item, action) =>
      OpenIntervalKeeps(pv.itemIntervals, if action.Set? then item else None, bound, eventIndex);
    case ChangeAbility(ability, action) =>
      OpenIntervalKeeps(pv.abilityIntervals, if action.Set? then ability else None, bound, eventIndex);
    case ChangeVolatile(volatile, action) =>
      if action.Start? && volatile !in pv.volatiles { AddVolatileKeeps(pv.volatiles, volatile); }
      WithoutKeepsOrder(pv.volatiles, volatile);
    case _ =>
  }

  lemma ZeroIsOk()
    ensures BoostsOk(ZERO_BOOSTS) && StrictlyOrdered([], TextKey)
  {}

  lemma ActiveIffSome(pokemon: seq<PokemonView>)
    ensures HasActive(pokemon) <==> exists i :: 0 <= i < |pokemon| && pokemon[i].active
  {}

  /** Replacing one member by a well-formed one with the same activity keeps the side. */
  lemma ReplaceKeeps(side: SideView, i: nat, pv: PokemonView, bound: int, eventIndex: int)
    requires SideOk(side, bound) && bound <= eventIndex && i < |side.pokemon|
    requires MemberOk(pv, eventIndex) && pv.active == side.pokemon[i].active && MemberGrows(side.pokemon[i], pv)
    ensures SideOk(ReplaceAt(side, i, pv), eventIndex) && SideGrows(side, ReplaceAt(side, i, pv))
  {
    hide MemberOk, MemberGrows, ConditionsOk;
    SideLater(side, bound, eventIndex);
    var after := side.pokemon[i := pv];
    ActiveIffSome(side.pokemon);
    ActiveIffSome(after);
    assert forall k :: 0 <= k < |after| ==> after[k].active == side.pokemon[k].active;
  }

  lemma DeactivateKeeps(pv: PokemonView, bound: int, eventIndex: int)
    requires MemberOk(pv, bound) && bound < eventIndex
    ensures MemberOk(Deactivate(pv, eventIndex), eventIndex)
    ensures !Deactivate(pv, eventIndex).active
    ensures MemberGrows(pv, Deactivate(pv, eventIndex))
  {
    hide IntervalsOk, Extends, BoostsOk, StrictlyOrdered;
    MemberLater(pv, bound, eventIndex);
    Unchanged(pv);
    ZeroIsOk();
    OpenIntervalKeeps(pv.abilityIntervals, None, bound, eventIndex);
  }

  lemma BenchKeeps(pokemon: seq<PokemonView>, bound: int, eventIndex: int)
    requires bound < eventIndex
    requires forall i :: 0 <= i < |pokemon| ==> MemberOk(pokemon[i], bound)
    ensures var benched := DeactivateAll(pokemon, eventIndex);
            forall i :: 0 <= i < |benched| ==>
              MemberOk(benched[i], eventIndex) && !benched[i].active && MemberGrows(pokemon[i], benched[i])
  {
    hide MemberOk, MemberGrows, Deactivate;
    forall i | 0 <= i < |pokemon|
      ensures var pv := DeactivateAll(pokemon, eventIndex)[i];
              MemberOk(pv, eventIndex) && !pv.active && MemberGrows(pokemon[i], pv)
    {
      DeactivateKeeps(pokemon[i], bound, eventIndex);
    }
  }

  lemma NewMemberOk(nickname: string, details: string, hp: HpObservation, status: Option<string>, eventIndex: int)
    requires hp.maximum > 0 && 0 <= hp.current <= hp.maximum
    ensures MemberOk(NewPokemon(nickname, details).(active := true, hp := Some(hp), status := status), eventIndex)
  {}

  lemma OldMemberOk(pv: PokemonView, details: string, hp: HpObservation, status: Option<string>, eventIndex: int)
    requires MemberOk(pv, eventIndex)
    requires hp.maximum > 0 && 0 <= hp.current <= hp.maximum
    ensures var after := pv.(
              active := true, hp := Some(hp), status := status, fainted := false, currentDetails := Some(details),
              boosts := ZERO_BOOSTS, volatiles := [], recharging := false, transformTarget := None);
            MemberOk(after, eventIndex) && MemberGrows(pv, after)
  {}

  lemma MemberGrowsTransitive(a: PokemonView, b: PokemonView, c: PokemonView)
    requires MemberGrows(a, b) && MemberGrows(b, c)
    ensures MemberGrows(a, c)
  {}

  lemma {:induction false} ActivateKeeps(
    side: SideView, nickname: string, details: string, hp: HpObservation, status: Option<string>,
    bound: int, eventIndex: int)
    requires SideOk(side, bound) && bound < eventIndex
    requires hp.maximum > 0 && 0 <= hp.current <= hp.maximum
    ensures var after := ActivatePokemon(side, nickname, details, hp, status, eventIndex);
            SideOk(after, eventIndex) && SideGrows(side, after) && HasActive(after.pokemon)
  {
    hide MemberOk, MemberGrows, Deactivate, NewPokemon, ConditionsOk, SwitchKey;
    var benched := DeactivateAll(side.pokemon, eventIndex);
    BenchKeeps(side.pokemon, bound, eventIndex);
    var after := ActivatePokemon(side, nickname, details, hp, status, eventIndex).pokemon;
    match FindForSwitchIn(benched, nickname, details)
    case None =>
      NewMemberOk(nickname, details, hp, status, eventIndex);
      assert after[|benched|].active;
      ActiveIffSome(after);
    case Some(i) =>
      OldMemberOk(benched[i], details, hp, status, eventIndex);
      MemberGrowsTransitive(side.pokemon[i], benched[i], after[i]);
      assert after[i].active;
      ActiveIffSome(after);
  }

  // ----- states -----

  ghost predicate Advances(before: ObservedState, after: ObservedState) {
    StateOk(after) && StateGrows(before, after) && after.eventIndex == before.eventIndex
  }

  lemma OneSideKept(before: ObservedState, after: ObservedState, id: SideId, bound: int)
    requires StateOkAt(before, bound) && bound < before.eventIndex
    requires after == before.WithSide(id, after.Side(id))
    requires SideOk(after.Side(id), before.eventIndex) && SideGrows(before.Side(id), after.Side(id))
    ensures Advances(before, after)
  {
    SideLater(before.p1, bound, before.eventIndex);
    SideLater(before.p2, bound, before.eventIndex);
  }

  lemma {:induction false} SwitchKeeps(
    state: ObservedState, ref: PokemonRef, details: string, token: HpToken, bound: int)
    requires StateOkAt(state, bound) && bound < state.eventIndex
    requires SwitchIn(state, ref, details, token).Ok?
    ensures Advances(state, SwitchIn(state, ref, details, token).value)
  {
    hide SideOk, SideGrows, Advances, ActivatePokemon, TokenToObservation;
    TokenHp(token, ref.side, state.ourSide);
    var hp := TokenToObservation(token, ref.side, state.ourSide).value;
    var id := ParseSide(ref.side).value;
    ActivateKeeps(state.Side(id), ref.nickname, details, hp, token.status, bound, state.eventIndex);
    OneSideKept(state, SwitchIn(state, ref, details, token).value, id, bound);
  }

  lemma HealedMemberOk(pv: PokemonView, hp: HpObservation, token: HpToken, bound: int, eventIndex: int)
    requires MemberOk(pv, bound) && bound <= eventIndex
    requires hp.fainted == token.fainted && hp.maximum > 0 && 0 <= hp.current <= hp.maximum
    requires token.fainted ==> hp.current == 0
    ensures var after := pv.(hp := Some(hp), status := token.status, fainted := token.fainted);
            MemberOk(after, eventIndex) && MemberGrows(pv, after)
  {
    MemberLater(pv, bound, eventIndex);
    Unchanged(pv);
  }

  lemma {:induction false} HealthKeeps(
    state: ObservedState, side: string, slot: Option<int>, nickname: string, token: HpToken, bound: int)
    requires StateOkAt(state, bound) && bound < state.eventIndex
    requires ChangeHealth(state, side, slot, nickname, token).Ok?
    ensures Advances(state, ChangeHealth(state, side, slot, nickname, token).value)
  {
    hide MemberOk, MemberGrows, SideGrows, Advances, TokenToObservation, RequireHealthTarget, ConditionsOk, HasActive;
    TokenHp(token, side, state.ourSide);
    var id := ParseSide(side).value;
    var i := RequireHealthTarget(state.Side(id), nickname, slot).value;
    var hp := TokenToObservation(token, side, state.ourSide).value;
    HealedMemberOk(state.Side(id).pokemon[i], hp, token, bound, state.eventIndex);
    var after := ChangeHealth(state, side, slot, nickname, token).value;
    ReplaceKeeps(state.Side(id), i, after.Side(id).pokemon[i], bound, state.eventIndex);
    OneSideKept(state, after, id, bound);
  }

  /** Changing members without touching what the invariant reads keeps the side. */
  lemma {:induction false} PointwiseKeeps(before: SideView, after: SideView, bound: int)
    requires SideOk(before, bound)
    requires |after.pokemon| == |before.pokemon| && after.activeSlot == before.activeSlot
    requires ConditionsOk(after.sideConditions)
    requires forall i :: 0 <= i < |after.pokemon| ==>
               && MemberOk(after.pokemon[i], bound) && MemberGrows(before.pokemon[i], after.pokemon[i])
               && after.pokemon[i].active == before.pokemon[i].active
    ensures SideOk(after, bound) && SideGrows(before, after)
  {
    hide MemberOk, MemberGrows, ConditionsOk;
    ActiveIffSome(before.pokemon);
    ActiveIffSome(after.pokemon);
  }

  lemma CuredMemberOk(pv: PokemonView, bound: int)
    requires MemberOk(pv, bound)
    ensures MemberOk(pv.(status := None), bound) && MemberGrows(pv, pv.(status := None))
  {}

  lemma CuredSideOk(side: SideView, bound: int, eventIndex: int)
    requires SideOk(side, bound) && bound < eventIndex
    ensures SideOk(side.(pokemon := Cured(side.pokemon)), eventIndex)
    ensures SideGrows(side, side.(pokemon := Cured(side.pokemon)))
  {
    hide MemberOk, MemberGrows, ConditionsOk, HasActive;
    SideLater(side, bound, eventIndex);
    var after := side.(pokemon := Cured(side.pokemon));
    forall i | 0 <= i < |side.pokemon|
      ensures MemberOk(after.pokemon[i], eventIndex) && MemberGrows(side.pokemon[i], after.pokemon[i])
    {
      CuredMemberOk(side.pokemon[i], eventIndex);
    }
    PointwiseKeeps(side, after, eventIndex);
  }

  lemma {:induction false} CureKeeps(state: ObservedState, side: string, bound: int)
    requires StateOkAt(state, bound) && bound < state.eventIndex
    requires CureTeam(state, side).Ok?
    ensures Advances(state, CureTeam(state, side).value)
  {
    hide SideOk, SideGrows, Advances;
    var id := ParseSide(side).value;
    CuredSideOk(state.Side(id), bound, state.eventIndex);
    OneSideKept(state, CureTeam(state, side).value, id, bound);
  }

  lemma BoostedMemberOk(pv: PokemonView, boosts: seq<int>, bound: int, eventIndex: int)
    requires MemberOk(pv, bound) && bound <= eventIndex && pv.active && BoostsOk(boosts)
    ensures MemberOk(pv.(boosts := boosts), eventIndex) && MemberGrows(pv, pv.(boosts := boosts))
  {
    MemberLater(pv, bound, eventIndex);
    Unchanged(pv);
  }

  lemma {:induction false} SwapBoostsKeeps(
    state: ObservedState, source: PokemonRef, target: PokemonRef, stats: seq<string>, bound: int)
    requires StateOkAt(state, bound) && bound < state.eventIndex
    requires SwapBoosts(state, source, target, stats).Ok?
    ensures Advances(state, SwapBoosts(state, source, target, stats).value)
  {
    hide SideOk, BoostsOk, MemberOk, MemberGrows, SideGrows, RequireActive, SwapStats, Advances;
    var s, t := ParseSide(source.side).value, ParseSide(target.side).value;
    var i := RequireActive(state.Side(s), source.nickname).value;
    var j := RequireActive(state.Side(t), target.nickname).value;
    var sourcePv, targetPv := state.Side(s).pokemon[i], state.Side(t).pokemon[j];
    var after := SwapBoosts(state, source, target, stats).value;
    StoredMember(state.Side(s), i, bound);
    StoredMember(state.Side(t), j, bound);
    SwapKeeps(sourcePv.boosts, targetPv.boosts, stats);
    var swapped := SwapStats(sourcePv.boosts, targetPv.boosts, stats).value;
    BoostedMemberOk(sourcePv, swapped.0, bound, state.eventIndex);
    BoostedMemberOk(targetPv, swapped.1, bound, state.eventIndex);
    ReplaceKeeps(state.Side(s), i, sourcePv.(boosts := swapped.0), bound, state.eventIndex);
    ReplaceKeeps(state.Side(t), j, targetPv.(boosts := swapped.1), bound, state.eventIndex);
    if s == t {
      OneSideKept(state, after, s, bound);
    } else {
      TwoSidesKept(state, after, bound);
    }
  }

  lemma StoredMember(side: SideView, i: nat, bound: int)
    requires SideOk(side, bound) && i < |side.pokemon|
    ensures MemberOk(side.pokemon[i], bound) && BoostsOk(side.pokemon[i].boosts)
  {}

  lemma TwoSidesKept(before: ObservedState, after: ObservedState, bound: int)
    requires StateOkAt(before, bound) && bound < before.eventIndex
    requires after == before.(p1 := after.p1, p2 := after.p2)
    requires SideOk(after.p1, before.eventIndex) && SideGrows(before.p1, after.p1)
    requires SideOk(after.p2, before.eventIndex) && SideGrows(before.p2, after.p2)
    ensures Advances(before, after)
  {
    hide SideOk, SideGrows;
  }

  lemma {:induction false} CopyBoostsKeeps(
    state: ObservedState, target: PokemonRef, source: PokemonRef, stats: seq<string>, bound: int)
    requires StateOkAt(state, bound) && bound < state.eventIndex
    requires CopyBoosts(state, target, source, stats).Ok?
    ensures Advances(state, CopyBoosts(state, target, source, stats).value)
  {
    hide MemberGrows, SideGrows, ConditionsOk, HasActive, RequireActive, CopyStats, AtMostOneActive, Advances;
    var s, t := ParseSide(source.side).value, ParseSide(target.side).value;
    var i := RequireActive(state.Side(s), source.nickname).value;
    var j := RequireActive(state.Side(t), target.nickname).value;
    var targetPv := state.Side(t).pokemon[j];
    CopyKeeps(state.Side(s).pokemon[i].boosts, targetPv.boosts, stats);
    var copied := CopyStats(state.Side(s).pokemon[i].boosts, targetPv.boosts, stats).value;
    BoostedMemberOk(targetPv, copied, bound, state.eventIndex);
    ReplaceKeeps(state.Side(t), j, targetPv.(boosts := copied), bound, state.eventIndex);
    OneSideKept(state, CopyBoosts(state, target, source, stats).value, t, bound);
  }

  lemma ClearKeeps(side: SideView, bound: int, eventIndex: int)
    requires SideOk(side, bound) && bound < eventIndex
    ensures SideOk(ClearActiveBoosts(side), eventIndex) && SideGrows(side, ClearActiveBoosts(side))
  {
    SideLater(side, bound, eventIndex);
    match FindActive(side.pokemon)
    case None =>
    case Some(i) => ReplaceKeeps(side, i, side.pokemon[i].(boosts := ZERO_BOOSTS), bound, eventIndex);
  }

  lemma ClearAllKeeps(state: ObservedState, bound: int)
    requires StateOkAt(state, bound) && bound < state.eventIndex
    ensures Advances(state, state.(p1 := ClearActiveBoosts(state.p1), p2 := ClearActiveBoosts(state.p2)))
  {
    hide SideOk, SideGrows, ClearActiveBoosts;
    ClearKeeps(state.p1, bound, state.eventIndex);
    ClearKeeps(state.p2, bound, state.eventIndex);
  }

  lemma RenamedMemberOk(pv: PokemonView, ref: PokemonRef, details: string, hp: HpObservation, token: HpToken,
                        bound: int, eventIndex: int)
    requires MemberOk(pv, bound) && bound < eventIndex
    requires hp.fainted == token.fainted && hp.maximum > 0 && 0 <= hp.current <= hp.maximum
    requires token.fainted ==> hp.current == 0
    ensures var after := pv.(
              nickname := ref.nickname, switchIdentity := Normalize(details), currentDetails := Some(details),
              identityIntervals := OpenInterval(pv.identityIntervals, Some(details), eventIndex),
              hp := Some(hp), status := token.status, fainted := token.fainted);
            MemberOk(after, eventIndex) && MemberGrows(pv, after)
  {
    hide IntervalsOk, Extends, BoostsOk, StrictlyOrdered, OpenInterval, Normalize;
    MemberLater(pv, bound, eventIndex);
    Unchanged(pv);
    OpenIntervalKeeps(pv.identityIntervals, Some(details), bound, eventIndex);
  }

  lemma {:induction false} IdentityKeeps(
    state: ObservedState, ref: PokemonRef, details: string, token: HpToken, bound: int)
    requires StateOkAt(state, bound) && bound < state.eventIndex
    requires ChangeIdentity(state, ref, details, token).Ok?
    ensures Advances(state, ChangeIdentity(state, ref, details, token).value)
  {
    hide MemberOk, MemberGrows, SideGrows, Advances, TokenToObservation, ConditionsOk, HasActive, OpenInterval;
    TokenHp(token, ref.side, state.ourSide);
    var id := ParseSide(ref.side).value;
    var i := FindActive(state.Side(id).pokemon).value;
    var hp := TokenToObservation(token, ref.side, state.ourSide).value;
    var after := ChangeIdentity(state, ref, details, token).value;
    RenamedMemberOk(state.Side(id).pokemon[i], ref, details, hp, token, bound, state.eventIndex);
    ReplaceKeeps(state.Side(id), i, after.Side(id).pokemon[i], bound, state.eventIndex);
    OneSideKept(state, after, id, bound);
  }

  lemma EvidenceAdded(before: ObservedState, side: ObservedState, after: ObservedState, bound: int)
    requires EvidenceOk(before.visibleEvidence, bound) && bound < before.eventIndex
    requires Advances(before, side) && side.visibleEvidence == before.visibleEvidence
    requires after == side.(visibleEvidence := after.visibleEvidence)
    requires after.visibleEvidence == before.visibleEvidence
          || exists e :: after.visibleEvidence == before.visibleEvidence + [e] && e.eventIndex == before.eventIndex
    ensures Advances(before, after)
  {
    hide SideOk, SideGrows;
  }

  lemma {:induction false} EditActiveKeeps(state: ObservedState, ref: PokemonRef, edit: Edit, bound: int)
    requires StateOkAt(state, bound) && bound < state.eventIndex
    requires EditActive(state, ref, edit).Ok?
    ensures Advances(state, EditActive(state, ref, edit).value)
  {
    hide MemberOk, MemberGrows, SideGrows, Advances, ConditionsOk, HasActive, EditPokemon, RequireActive,
         AtMostOneActive;
    var id := ParseSide(ref.side).value;
    var side := state.Side(id);
    var i := RequireActive(side, ref.nickname).value;
    EditKeeps(side.pokemon[i], edit, ref.side, state.ourSide, bound, state.eventIndex);
    var pv := EditPokemon(side.pokemon[i], edit, ref.side, state.ourSide, state.eventIndex).value;
    ReplaceKeeps(side, i, pv, bound, state.eventIndex);
    var edited := state.WithSide(id, ReplaceAt(side, i, pv));
    OneSideKept(state, edited, id, bound);
    assert state.visibleEvidence + [] == state.visibleEvidence;
    EvidenceAdded(state, edited, EditActive(state, ref, edit).value, bound);
  }

  /** An event that leaves members, conditions and evidence alone. */
  ghost predicate SameBattlefield(before: ObservedState, after: ObservedState) {
    && before.eventIndex == after.eventIndex
    && after.p1.pokemon == before.p1.pokemon && after.p2.pokemon == before.p2.pokemon
    && after.p1.activeSlot == before.p1.activeSlot && after.p2.activeSlot == before.p2.activeSlot
    && after.visibleEvidence == before.visibleEvidence
  }

  lemma PlainKeeps(before: ObservedState, after: ObservedState, bound: int)
    requires StateOkAt(before, bound) && bound < before.eventIndex
    requires SameBattlefield(before, after)
    requires ConditionsOk(after.p1.sideConditions) && ConditionsOk(after.p2.sideConditions)
    ensures Advances(before, after)
  {
    SideLater(before.p1, bound, before.eventIndex);
    SideLater(before.p2, bound, before.eventIndex);
  }

  lemma AddEvidenceKeeps(before: ObservedState, evidence: VisibleEvidence, bound: int)
    requires StateOkAt(before, bound) && bound < before.eventIndex == evidence.eventIndex
    ensures Advances(before, AddEvidence(before, evidence))
  {
    PlainKeeps(before, before, bound);
    EvidenceAdded(before, before, AddEvidence(before, evidence), bound);
  }

  lemma {:induction false} ConditionsKeep(
    state: ObservedState, side: string, condition: string, action: Action, bound: int)
    requires StateOkAt(state, bound) && bound < state.eventIndex
    requires ChangeCondition(state, side, condition, action).Ok?
    ensures Advances(state, ChangeCondition(state, side, condition, action).value)
  {
    hide StateOkAt, ConditionsOk, UpdateSideCondition, Advances;
    StoredConditions(state, bound);
    SideConditionKeeps(state.Side(ParseSide(side).value).sideConditions, condition, action);
    PlainKeeps(state, ChangeCondition(state, side, condition, action).value, bound);
  }

  lemma StoredConditions(state: ObservedState, bound: int)
    requires StateOkAt(state, bound)
    ensures ConditionsOk(state.p1.sideConditions) && ConditionsOk(state.p2.sideConditions)
  {}

  predicate TouchesRoster(body: EventBody) {
    body.PokemonSwitched? || body.PokemonDragged? || body.HealthChanged? || body.TeamStatusCured?
    || body.BoostsSwapped? || body.BoostsCopied? || body.AllBoostsCleared? || body.IdentityChanged? || body.Targeted?
  }

  lemma {:induction false} RosterEventKeeps(state: ObservedState, body: EventBody, bound: int)
    requires StateOkAt(state, bound) && bound < state.eventIndex
    requires TouchesRoster(body) && Apply(state, body).Ok?
    ensures Advances(state, Apply(state, body).value)
  {
    hide StateOkAt, Advances, SwitchIn, ChangeHealth, CureTeam, SwapBoosts, CopyBoosts, ChangeIdentity, EditActive,
         ClearActiveBoosts;
    match body
    case PokemonSwitched(ref, details, hp) => SwitchKeeps(state, ref, details, hp, bound);
    case PokemonDragged(ref, details, hp) => SwitchKeeps(state, ref, details, hp, bound);
    case HealthChanged(side, slot, nickname, hp) => HealthKeeps(state, side, slot, nickname, hp, bound);
    case TeamStatusCured(side) => CureKeeps(state, side, bound);
    case BoostsSwapped(ref, other, stats) => SwapBoostsKeeps(state, ref, other, stats, bound);
    case BoostsCopied(ref, other, stats) => CopyBoostsKeeps(state, ref, other, stats, bound);
    case AllBoostsCleared => ClearAllKeeps(state, bound);
    case IdentityChanged(ref, details, hp) => IdentityKeeps(state, ref, details, hp, bound);
    case Targeted(ref, edit) => EditActiveKeeps(state, ref, edit, bound);
  }

  lemma {:induction false} OtherEventKeeps(state: ObservedState, body: EventBody, bound: int)
    requires StateOkAt(state, bound) && bound < state.eventIndex
    requires !TouchesRoster(body) && Apply(state, body).Ok?
    ensures Advances(state, Apply(state, body).value)
  {
    hide Advances, StateOkAt, ConditionsOk, ChangeCondition;
    if body.MovePrevented? {
      AddEvidenceKeeps(state, EvidenceFor(body.ref, "move_prevented", body.reason,
                                          if body.moveId.Some? then [body.moveId.value] else [], state.eventIndex),
                       bound);
    } else if body.EvidenceSeen? {
      AddEvidenceKeeps(state, VisibleEvidence(state.eventIndex, body.kind, body.evidenceSide, body.evidenceSlot,
                                              body.evidenceNickname, body.effect, body.annotations), bound);
    } else if body.SideConditionChanged? {
      ConditionsKeep(state, body.conditionSide, body.condition, body.action, bound);
    } else {
      StoredConditions(state, bound);
      LeavesBattlefield(state, body);
      hide Apply;
      PlainKeeps(state, Apply(state, body).value, bound);
    }
  }

  lemma LeavesBattlefield(state: ObservedState, body: EventBody)
    requires !TouchesRoster(body) && Apply(state, body).Ok?
    requires !body.MovePrevented? && !body.EvidenceSeen? && !body.SideConditionChanged?
    ensures var after := Apply(state, body).value;
            && SameBattlefield(state, after)
            && (|| after.p1.sideConditions == state.p1.sideConditions
                || after.p1.sideConditions == state.p2.sideConditions)
            && (|| after.p2.sideConditions == state.p1.sideConditions
                || after.p2.sideConditions == state.p2.sideConditions)
  {
    hide SwitchIn, ChangeHealth, CureTeam, SwapBoosts, CopyBoosts, ChangeIdentity, EditActive, ClearActiveBoosts,
         ChangeCondition, EvidenceFor, Without, ApplyMetadata;
    if ApplyMetadata(state, body).Ok? {
      MetadataLeavesBattlefield(state, body);
    }
  }

  ghost predicate KeepsBattlefield(before: ObservedState, after: Reduced<ObservedState>) {
    after.Ok? ==>
      && SameBattlefield(before, after.value)
      && after.value.p1.sideConditions == before.p1.sideConditions
      && after.value.p2.sideConditions == before.p2.sideConditions
  }

  lemma MetadataLeavesBattlefield(state: ObservedState, body: EventBody)
    ensures KeepsBattlefield(state, ApplyMetadata(state, body))
  {
    hide DeclarePlayer, DeclareTeamSize, DeclarePreview, ApplyProgress;
    match body
    case PlayerDeclared(side, userId, displayName) => DeclareLeavesBattlefield(state, side, userId, displayName);
    case TeamSizeDeclared(side, size) => SizeLeavesBattlefield(state, side, size);
    case PreviewPokemonDeclared(side, details, hasItem) =>
      PreviewLeavesBattlefield(state, side, PreviewPokemon(details, hasItem));
    case _ => ProgressLeavesBattlefield(state, body);
  }

  lemma DeclareLeavesBattlefield(state: ObservedState, side: string, userId: string, displayName: string)
    ensures KeepsBattlefield(state, DeclarePlayer(state, side, userId, displayName))
  {}

  lemma SizeLeavesBattlefield(state: ObservedState, side: string, size: int)
    ensures KeepsBattlefield(state, DeclareTeamSize(state, side, size))
  {}

  lemma PreviewLeavesBattlefield(state: ObservedState, side: string, entry: PreviewPokemon)
    ensures KeepsBattlefield(state, DeclarePreview(state, side, entry))
  {}

  lemma ProgressLeavesBattlefield(state: ObservedState, body: EventBody)
    ensures KeepsBattlefield(state, ApplyProgress(state, body))
  {}

  /** One accepted event keeps the state well formed, dates what it adds, and forgets nothing. */
  lemma ReduceKeeps(state: ObservedState, eventIndex: int, body: EventBody)
    requires StateOk(state)
    requires Reduce(state, eventIndex, body).Ok?
    ensures var after := Reduce(state, eventIndex, body).value;
            StateOk(after) && StateGrows(state, after) && after.eventIndex == eventIndex > state.eventIndex
  {
    hide SideOk, SideGrows, EvidenceOk, Apply;
    var dated := state.(eventIndex := eventIndex);
    if TouchesRoster(body) {
      RosterEventKeeps(dated, body, state.eventIndex);
    } else {
      OtherEventKeeps(dated, body, state.eventIndex);
    }
  }

  /** Every state an event sequence reaches is well formed, and nothing observed before is lost in it. */
  lemma {:induction false} ReachableStates(state: ObservedState, events: seq<(int, EventBody)>)
    requires StateOk(state)
    requires ReduceAll(state, events).Ok?
    ensures StateOk(ReduceAll(state, events).value)
    ensures StateGrows(state, ReduceAll(state, events).value)
    decreases |events|
  {
    if events == [] {
      SideLater(state.p1, state.eventIndex, state.eventIndex);
      SideLater(state.p2, state.eventIndex, state.eventIndex);
    } else {
      hide StateOk, StateGrows, Reduce;
      ReduceKeeps(state, events[0].0, events[0].1);
      var next := Reduce(state, events[0].0, events[0].1).value;
      ReachableStates(next, events[1..]);
      GrowsTransitive(state, next, ReduceAll(next, events[1..]).value);
    }
  }

  lemma InitialStateOk(ourUserId: string)
    ensures StateOk(InitialState(ourUserId))
  {}
}
