/** What the reducer's small loops and dict edits compute, stated apart from how they do it. */
module ReducerMeaning {
  import opened Basics
  import opened ObservedStates
  import opened IdentityKey
  import opened Reducer
  import opened ReducerInvariants
  import opened RosterKeys

  function Occurrences(stats: seq<string>, stat: string): nat {
    if stats == [] then 0 else (if stats[0] == stat then 1 else 0) + Occurrences(stats[1..], stat)
  }

  /** The exchange loop of a boost swap. */
  method SwapLoop(source: seq<int>, target: seq<int>, stats: seq<string>) returns (r: Reduced<(seq<int>, seq<int>)>)
    requires |source| == |target| == |BOOST_STATS|
    ensures r == SwapStats(source, target, stats)
  {
    var sourceBoosts, targetBoosts := source, target;
    var k := 0;
    while k < |stats|
      invariant 0 <= k <= |stats| && |sourceBoosts| == |targetBoosts| == |BOOST_STATS|
      invariant SwapStats(source, target, stats) == SwapStats(sourceBoosts, targetBoosts, stats[k..])
    {
      var found := StatIndex(stats[k]);
      if found.Err? {
        return Err(found.error);
      }
      var i := found.value;
      assert stats[k..][0] == stats[k] && stats[k..][1..] == stats[k + 1..];
      sourceBoosts, targetBoosts := sourceBoosts[i := targetBoosts[i]], targetBoosts[i := sourceBoosts[i]];
      k := k + 1;
    }
    return Ok((sourceBoosts, targetBoosts));
  }

  /** The copy loop: the receiver takes the listed stats of the source. */
  method CopyLoop(source: seq<int>, target: seq<int>, stats: seq<string>) returns (r: Reduced<seq<int>>)
    requires |source| == |target| == |BOOST_STATS|
    ensures r == CopyStats(source, target, stats)
  {
    var targetBoosts := target;
    var k := 0;
    while k < |stats|
      invariant 0 <= k <= |stats| && |targetBoosts| == |BOOST_STATS|
      invariant CopyStats(source, target, stats) == CopyStats(source, targetBoosts, stats[k..])
    {
      var found := StatIndex(stats[k]);
      if found.Err? {
        return Err(found.error);
      }
      assert stats[k..][0] == stats[k] && stats[k..][1..] == stats[k + 1..];
      targetBoosts := targetBoosts[found.value := source[found.value]];
      k := k + 1;
    }
    return Ok(targetBoosts);
  }

  lemma StatNamesDiffer(i: nat, j: nat)
    requires i < |BOOST_STATS| && j < |BOOST_STATS| && BOOST_STATS[i] == BOOST_STATS[j]
    ensures i == j
  {
    assert BOOST_STATS[0][0] == 'a' && BOOST_STATS[0][1] == 't';
    assert BOOST_STATS[1][0] == 'd';
    assert BOOST_STATS[2][0] == 's' && BOOST_STATS[2][1] == 'p' && BOOST_STATS[2][2] == 'a';
    assert BOOST_STATS[3][0] == 's' && BOOST_STATS[3][1] == 'p' && BOOST_STATS[3][2] == 'd';
    assert BOOST_STATS[4][0] == 's' && BOOST_STATS[4][1] == 'p' && BOOST_STATS[4][2] == 'e';
    assert BOOST_STATS[5][0] == 'a' && BOOST_STATS[5][1] == 'c';
    assert BOOST_STATS[6][0] == 'e';
  }

  lemma {:induction false} SwapDefined(source: seq<int>, target: seq<int>, stats: seq<string>)
    requires |source| == |target| == |BOOST_STATS|
    ensures SwapStats(source, target, stats).Ok? <==> forall stat :: stat in stats ==> stat in BOOST_STATS
    decreases |stats|
  {
    if stats != [] {
      assert stats == [stats[0]] + stats[1..];
      if StatIndex(stats[0]).Ok? {
        var k := StatIndex(stats[0]).value;
        SwapDefined(source[k := target[k]], target[k := source[k]], stats[1..]);
      }
    }
  }

  lemma {:induction false} SwapAt(source: seq<int>, target: seq<int>, stats: seq<string>, i: nat)
    requires |source| == |target| == |BOOST_STATS| && i < |BOOST_STATS|
    requires SwapStats(source, target, stats).Ok?
    ensures var (newSource, newTarget) := SwapStats(source, target, stats).value;
            && |newSource| == |newTarget| == |BOOST_STATS|
            && if Occurrences(stats, BOOST_STATS[i]) % 2 == 1
               then newSource[i] == target[i] && newTarget[i] == source[i]
               else newSource[i] == source[i] && newTarget[i] == target[i]
    decreases |stats|
  {
    if stats != [] {
      var k := StatIndex(stats[0]).value;
      SwapAt(source[k := target[k]], target[k := source[k]], stats[1..], i);
      if BOOST_STATS[i] == stats[0] { StatNamesDiffer(i, k); }
    }
  }

  /** Swapping is refused exactly for an unknown stat; a stat named an even number of times stays where it was. */
  lemma {:induction false} SwapExchangesOddStats(source: seq<int>, target: seq<int>, stats: seq<string>)
    requires |source| == |target| == |BOOST_STATS|
    ensures SwapStats(source, target, stats).Ok? <==> forall stat :: stat in stats ==> stat in BOOST_STATS
    ensures SwapStats(source, target, stats).Ok? ==>
              var (newSource, newTarget) := SwapStats(source, target, stats).value;
              && |newSource| == |newTarget| == |BOOST_STATS|
              && forall i :: 0 <= i < |BOOST_STATS| ==>
                   if Occurrences(stats, BOOST_STATS[i]) % 2 == 1
                   then newSource[i] == target[i] && newTarget[i] == source[i]
                   else newSource[i] == source[i] && newTarget[i] == target[i]
  {
    hide SwapStats, Occurrences;
    SwapDefined(source, target, stats);
    if SwapStats(source, target, stats).Ok? {
      SwapAt(source, target, stats, 0);
      var (newSource, newTarget) := SwapStats(source, target, stats).value;
      forall i | 0 <= i < |BOOST_STATS|
        ensures if Occurrences(stats, BOOST_STATS[i]) % 2 == 1
                then newSource[i] == target[i] && newTarget[i] == source[i]
                else newSource[i] == source[i] && newTarget[i] == target[i]
      {
        SwapAt(source, target, stats, i);
      }
    }
  }

  /** Copying takes the source's value at the listed stats and keeps the receiver's elsewhere. */
  lemma {:induction false} CopyTakesListedStats(source: seq<int>, target: seq<int>, stats: seq<string>)
    requires |source| == |target| == |BOOST_STATS|
    ensures CopyStats(source, target, stats).Ok? <==> forall stat :: stat in stats ==> stat in BOOST_STATS
    ensures CopyStats(source, target, stats).Ok? ==>
              var copied := CopyStats(source, target, stats).value;
              && |copied| == |BOOST_STATS|
              && forall i :: 0 <= i < |BOOST_STATS| ==>
                   copied[i] == if BOOST_STATS[i] in stats then source[i] else target[i]
    decreases |stats|
  {
    if stats != [] {
      assert stats == [stats[0]] + stats[1..];
      if StatIndex(stats[0]).Ok? {
        var k := StatIndex(stats[0]).value;
        CopyTakesListedStats(source, target[k := source[k]], stats[1..]);
        forall i | 0 <= i < |BOOST_STATS| && i != k ensures BOOST_STATS[i] != stats[0] {
          if BOOST_STATS[i] == stats[0] { StatNamesDiffer(i, k); }
        }
      }
    }
  }

  // ----- side conditions -----

  /** Layers of a condition, zero when it is not on the side. */
  function Layers(conditions: seq<(string, int)>, name: string): int {
    DictGet(conditions, name, 0)
  }

  lemma {:induction false} GetIsMembership(items: seq<(string, int)>, name: string)
    requires LayersOk(items)
    ensures forall layers :: (name, layers) in items ==> DictGet(items, name, 0) == layers
    ensures DictGet(items, name, 0) != 0 ==> (name, DictGet(items, name, 0)) in items
  {
    hide LayerCap;
    if items != [] {
      GetIsMembership(items[1..], name);
      forall layers | (name, layers) in items ensures DictGet(items, name, 0) == layers {
        if items[0].0 == name {
          var j :| 0 <= j < |items| && items[j] == (name, layers);
        }
      }
    }
  }

  lemma SameItemsSameLayers(items: seq<(string, int)>, others: seq<(string, int)>, name: string)
    requires LayersOk(items) && LayersOk(others)
    requires forall layers :: (name, layers) in items <==> (name, layers) in others
    ensures Layers(items, name) == Layers(others, name)
  {
    GetIsMembership(items, name);
    GetIsMembership(others, name);
  }

  lemma SortKeepsLayers(items: seq<(string, int)>, name: string)
    requires LayersOk(items)
    ensures Layers(SortByKey(items, ConditionName), name) == Layers(items, name)
  {
    var sorted := SortByKey(items, ConditionName);
    SortedLayersOk(items);
    ConditionsAreLayers(sorted);
    forall layers ensures (name, layers) in sorted <==> (name, layers) in items {
      assert (name, layers) in sorted <==> (name, layers) in multiset(sorted);
      assert (name, layers) in items <==> (name, layers) in multiset(items);
    }
    SameItemsSameLayers(sorted, items, name);
  }

  lemma {:induction false} PutLayers(items: seq<(string, int)>, name: string, layers: int, other: string)
    ensures DictGet(DictPut(items, name, layers), other, 0)
         == if other == name then layers else DictGet(items, other, 0)
  {
    if items != [] && items[0].0 != name {
      PutLayers(items[1..], name, layers, other);
    }
  }

  lemma {:induction false} PopLayers(items: seq<(string, int)>, name: string, other: string)
    ensures DictGet(DictPop(items, name), other, 0) == if other == name then 0 else DictGet(items, other, 0)
  {
    if items != [] {
      PopLayers(items[1..], name, other);
      var rest := DictPop(items[1..], name);
      assert DictPop(items, name) == (if items[0].0 != name then [items[0]] else []) + rest;
      assert ([items[0]] + rest)[1..] == rest && [] + rest == rest;
    }
  }

  /** A start or upkeep adds one layer up to the cap, an end removes the condition, and no other condition moves. */
  lemma {:induction false} SideConditionMeaning(
    conditions: seq<(string, int)>, condition: string, action: Action, name: string)
    requires ConditionsOk(conditions)
    ensures var before := Layers(conditions, name);
            var after := Layers(UpdateSideCondition(conditions, condition, action), name);
            if name != condition then after == before
            else match action
              case Start => after == (if before + 1 < LayerCap(name) then before + 1 else LayerCap(name))
              case Upkeep => after == (if before + 1 < LayerCap(name) then before + 1 else LayerCap(name))
              case End => after == 0
              case _ => after == before
  {
    hide ConditionsOk, LayersOk, DictPop, DictPut, DictGet, LayerCap;
    ConditionsAreLayers(conditions);
    DictFromItems(conditions);
    AddLayerKeeps(conditions, condition);
    PopKeeps(conditions, condition);
    SortKeepsLayers(conditions, name);
    SortKeepsLayers(AddLayer(conditions, condition), name);
    SortKeepsLayers(DictPop(conditions, condition), name);
    var layers := DictGet(conditions, condition, 0) + 1;
    PutLayers(conditions, condition, if layers < LayerCap(condition) then layers else LayerCap(condition), name);
    PopLayers(conditions, condition, name);
  }

  // ----- switching in -----

  /** What a switch-in shows of the member that enters. */
  ghost predicate Entered(
    pv: PokemonView, nickname: string, details: string, hp: HpObservation, status: Option<string>)
  {
    && pv.active && pv.nickname == nickname && pv.switchIdentity == Normalize(details)
    && pv.currentDetails == Some(details) && pv.hp == Some(hp) && pv.status == status && !pv.fainted
    && pv.boosts == ZERO_BOOSTS && pv.volatiles == [] && !pv.recharging && pv.transformTarget.None?
  }

  /** What is known about a member whatever happens to its place on the field. */
  ghost predicate SameMember(before: PokemonView, after: PokemonView) {
    && after.nickname == before.nickname && after.switchIdentity == before.switchIdentity
    && after.revealedMoves == before.revealedMoves && after.itemIntervals == before.itemIntervals
    && after.identityIntervals == before.identityIntervals && after.teraType == before.teraType
  }

  /** A switch-in activates exactly one member: the first with that key, or a new one at the end if there is none; every
      other member stays in its place with its health, and leaves the field clean if it was on it. */
  lemma {:induction false} SwitchInMeaning(
    side: SideView, nickname: string, details: string, hp: HpObservation, status: Option<string>, eventIndex: int)
    returns (at: nat)
    ensures var before, after := side.pokemon, ActivatePokemon(side, nickname, details, hp, status, eventIndex).pokemon;
            && at < |after| && Entered(after[at], nickname, details, hp, status)
            && (forall i :: 0 <= i < |after| && i != at ==> !after[i].active)
            && (forall i :: 0 <= i < |before| && i < at ==> !SwitchKey(before[i], nickname, details))
            && |after| == (if at == |before| then |before| + 1 else |before|)
            && (at < |before| ==> SwitchKey(before[at], nickname, details) && SameMember(before[at], after[at]))
            && (forall i :: 0 <= i < |before| && i != at ==>
                  && SameMember(before[i], after[i]) && after[i].hp == before[i].hp
                  && after[i].status == before[i].status && after[i].fainted == before[i].fainted
                  && (before[i].active ==> Clean(after[i])) && (!before[i].active ==> after[i] == before[i]))
  {
    EmptyDetails();
    var before := side.pokemon;
    var benched := DeactivateAll(before, eventIndex);
    hide Normalize;
    forall i | 0 <= i < |before| && before[i].active ensures Clean(benched[i]) {
      BenchedIsClean(before[i], eventIndex);
    }
    FirstKey(benched, nickname, details);
    hide FindForSwitchIn, Clean;
    match FindForSwitchIn(benched, nickname, details)
    case None => at := |before|;
    case Some(i) => at := i;
    assert forall i :: 0 <= i < |before| ==>
        SwitchKey(before[i], nickname, details) == SwitchKey(benched[i], nickname, details);
  }

  lemma BenchedIsClean(pv: PokemonView, eventIndex: int)
    requires pv.active
    ensures Clean(Deactivate(pv, eventIndex))
  {
    if SuppressionOpen(pv.abilityIntervals) {
      var closed := CloseOpenInterval(pv.abilityIntervals, eventIndex);
      assert closed[|closed| - 1].validUntil.Some?;
    }
  }

  lemma {:induction false} FirstKey(pokemon: seq<PokemonView>, nickname: string, details: string)
    ensures var found := FindForSwitchIn(pokemon, nickname, details);
            found.Some? ==> forall i :: 0 <= i < found.value ==> !SwitchKey(pokemon[i], nickname, details)
  {
    if pokemon != [] && !SwitchKey(pokemon[0], nickname, details) {
      FirstKey(pokemon[1..], nickname, details);
    }
  }
}
