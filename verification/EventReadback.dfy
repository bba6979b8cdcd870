/** The reducer does what events mean: its helpers read back one by one, then every event. */
module EventReadback {
  import opened Basics
  import opened ObservedStates
  import opened IdentityKey
  import opened Reducer
  import opened ReducerInvariants
  import opened RosterKeys
  import opened ReducerMeaning
  import opened EventMeanings

  // ----- the helpers read back -----

  lemma SideRead(side: string)
    ensures match ParseSide(side)
            case Ok(id) =>
              SideNamed(side, id) && AnySide(side) && forall other :: SideNamed(side, other) ==> other == id
            case Err(e) => e == InvariantViolation && !AnySide(side) && forall other :: !SideNamed(side, other)
  {}

  lemma ViewRead(state: ObservedState, id: SideId, view: SideView)
    ensures state.Side(id) == ViewOf(state, id)
    ensures ViewOf(state.WithSide(id, view), id) == view && OnlySide(state, state.WithSide(id, view), id)
  {}

  lemma TokenRead(token: HpToken, side: string, ourSide: Option<SideId>)
    ensures match TokenToObservation(token, side, ourSide)
            case Ok(hp) => !TokenBad(token) && Shows(hp, token, side, ourSide)
            case Err(e) => e == ValueFault && TokenBad(token)
  {}

  lemma {:induction false} FieldRead(pokemon: seq<PokemonView>)
    ensures match FindActive(pokemon)
            case Some(at) => OnField(pokemon, at) && forall i :: OnField(pokemon, i) ==> i == at
            case None => forall i :: !OnField(pokemon, i)
  {
    if pokemon != [] && !pokemon[0].active {
      FieldRead(pokemon[1..]);
      assert forall i :: 0 < i < |pokemon| ==> pokemon[i] == pokemon[1..][i - 1];
    }
  }

  lemma NamedRead(side: SideView, nickname: string)
    ensures match RequireActive(side, nickname)
            case Ok(at) => Named(side, nickname, at) && forall i :: Named(side, nickname, i) ==> i == at
            case Err(e) => e == InvariantViolation && forall i :: !Named(side, nickname, i)
  {
    FieldRead(side.pokemon);
  }

  lemma CandidatesUnfold(pokemon: seq<PokemonView>, nickname: string)
    requires pokemon != []
    ensures var last := |pokemon| - 1;
            RevivalCandidates(pokemon, nickname)
            == RevivalCandidates(pokemon[..last], nickname) + (if Resting(pokemon[last], nickname) then [last] else [])
  {}

  lemma {:induction false} CandidatesRead(pokemon: seq<PokemonView>, nickname: string)
    ensures var found := RevivalCandidates(pokemon, nickname);
            && (forall i :: 0 <= i < |pokemon| && Resting(pokemon[i], nickname) ==> i in found)
            && forall a, b :: 0 <= a < b < |found| ==> found[a] < found[b]
  {
    if pokemon != [] {
      var last := |pokemon| - 1;
      var earlier := pokemon[..last];
      CandidatesUnfold(pokemon, nickname);
      CandidatesRead(earlier, nickname);
      hide RevivalCandidates, Resting;
      var found := RevivalCandidates(earlier, nickname);
      assert forall a :: 0 <= a < |found| ==> found[a] in found;
      forall i | 0 <= i < |pokemon| && Resting(pokemon[i], nickname) ensures i in RevivalCandidates(pokemon, nickname) {
        if i < last { assert earlier[i] == pokemon[i]; }
      }
    } else {
      NoCandidates(nickname);
    }
  }

  lemma NoCandidates(nickname: string)
    ensures RevivalCandidates([], nickname) == []
  {}

  lemma TargetRead(side: SideView, nickname: string, slot: Option<int>)
    ensures match RequireHealthTarget(side, nickname, slot)
            case Ok(at) => if slot.Some? then Named(side, nickname, at) else Revivable(side, nickname, at)
            case Err(e) =>
              && e == InvariantViolation
              && forall i :: if slot.Some? then !Named(side, nickname, i) else !Revivable(side, nickname, i)
  {
    NamedRead(side, nickname);
    CandidatesRead(side.pokemon, nickname);
    var found := RevivalCandidates(side.pokemon, nickname);
    assert |found| >= 2 ==> found[0] in found && found[1] in found && found[0] < found[1];
    assert |found| == 1 ==> found[0] in found;
  }

  // ----- health, entry and identity -----

  lemma SomeNamedRead(state: ObservedState, side: string, nickname: string)
    ensures SomeNamed(state, side, nickname) <==>
              ParseSide(side).Ok? && RequireActive(ViewOf(state, ParseSide(side).value), nickname).Ok?
  {
    hide ParseSide, RequireActive, Named;
    SideRead(side);
    if ParseSide(side).Ok? { NamedRead(ViewOf(state, ParseSide(side).value), nickname); }
  }

  lemma SomeRevivableRead(state: ObservedState, side: string, nickname: string)
    ensures SomeRevivable(state, side, nickname) <==>
              ParseSide(side).Ok? && RequireHealthTarget(ViewOf(state, ParseSide(side).value), nickname, None).Ok?
  {
    hide ParseSide, RequireHealthTarget, Revivable;
    SideRead(side);
    if ParseSide(side).Ok? { TargetRead(ViewOf(state, ParseSide(side).value), nickname, None); }
  }

  lemma {:induction false} HealthMeans(
    state: ObservedState, side: string, slot: Option<int>, nickname: string, token: HpToken)
    ensures match HealthRefusal(state, side, slot, nickname, token)
            case Some(error) => ChangeHealth(state, side, slot, nickname, token) == Err(error)
            case None =>
              && ChangeHealth(state, side, slot, nickname, token).Ok?
              && var after := ChangeHealth(state, side, slot, nickname, token).value;
                 exists id, at :: HealedAt(state, side, slot, nickname, token, after, id, at)
  {
    hide ParseSide, TokenToObservation, RequireHealthTarget, RequireActive, Named, Revivable, Shows, TokenBad,
         SomeNamed, SomeRevivable;
    SideRead(side);
    TokenRead(token, side, state.ourSide);
    SomeNamedRead(state, side, nickname);
    SomeRevivableRead(state, side, nickname);
    hide HealedAt;
    if ParseSide(side).Ok? {
      var id := ParseSide(side).value;
      TargetRead(ViewOf(state, id), nickname, slot);
      HealthTargets(ViewOf(state, id), nickname, slot);
      var target := RequireHealthTarget(ViewOf(state, id), nickname, slot);
      if target.Ok? && !TokenBad(token) {
        HealthAt(state, side, slot, nickname, token, id, target.value);
      }
    }
  }

  lemma HealthAt(
    state: ObservedState, side: string, slot: Option<int>, nickname: string, token: HpToken, id: SideId, at: nat)
    requires ParseSide(side) == Ok(id) && SideNamed(side, id) && !TokenBad(token)
    requires RequireHealthTarget(ViewOf(state, id), nickname, slot) == Ok(at)
    requires if slot.Some? then Named(ViewOf(state, id), nickname, at) else Revivable(ViewOf(state, id), nickname, at)
    ensures ChangeHealth(state, side, slot, nickname, token).Ok?
    ensures HealedAt(state, side, slot, nickname, token, ChangeHealth(state, side, slot, nickname, token).value, id, at)
  {
    hide ParseSide, TokenToObservation, RequireHealthTarget, Named, Revivable, Shows, TokenBad, SideNamed;
    TokenRead(token, side, state.ourSide);
    var after := ChangeHealth(state, side, slot, nickname, token).value;
    ViewRead(state, id, ViewOf(after, id));
  }

  lemma HealthTargets(side: SideView, nickname: string, slot: Option<int>)
    ensures slot.Some? ==> RequireHealthTarget(side, nickname, slot) == RequireActive(side, nickname)
  {
    hide RequireActive;
  }

  lemma {:induction false} IdentityMeans(state: ObservedState, ref: PokemonRef, details: string, token: HpToken)
    ensures match IdentityRefusal(state, ref, token)
            case Some(error) => ChangeIdentity(state, ref, details, token) == Err(error)
            case None =>
              && ChangeIdentity(state, ref, details, token).Ok?
              && var after := ChangeIdentity(state, ref, details, token).value;
                 exists id, at :: RenamedAt(state, ref, details, token, after, id, at)
  {
    hide ParseSide, TokenToObservation, FindActive, OnField, Shows, TokenBad, OpenInterval, Dated, Normalize;
    SideRead(ref.side);
    TokenRead(token, ref.side, state.ourSide);
    if ParseSide(ref.side).Ok? {
      var id := ParseSide(ref.side).value;
      FieldRead(ViewOf(state, id).pokemon);
      var at := FindActive(ViewOf(state, id).pokemon);
      if at.Some? && !TokenBad(token) {
        var after := ChangeIdentity(state, ref, details, token).value;
        ViewRead(state, id, ViewOf(after, id));
        IntervalRead(ViewOf(state, id).pokemon[at.value].identityIntervals, Some(details), state.eventIndex);
        assert RenamedAt(state, ref, details, token, after, id, at.value);
      }
    }
  }

  lemma ClosedRead(intervals: seq<EvidenceInterval>, now: int)
    ensures Ended(intervals, CloseOpenInterval(intervals, now), now)
  {}

  lemma IntervalRead(intervals: seq<EvidenceInterval>, value: Option<string>, now: int)
    ensures Dated(intervals, OpenInterval(intervals, value, now), value, now)
  {
    ClosedRead(intervals, now);
    assert OpenInterval(intervals, value, now)[..|intervals|] == CloseOpenInterval(intervals, now);
  }

  lemma BenchRead(pv: PokemonView, now: int)
    ensures Benched(pv, Deactivate(pv, now), now)
  {
    ClosedRead(pv.abilityIntervals, now);
  }

  lemma {:induction false} FirstKnown(pokemon: seq<PokemonView>, nickname: string, details: string)
    ensures match FindForSwitchIn(pokemon, nickname, details)
            case Some(at) =>
              && 0 <= at < |pokemon| && Known(pokemon[at], nickname, details)
              && forall i :: 0 <= i < at ==> !Known(pokemon[i], nickname, details)
            case None => forall i :: 0 <= i < |pokemon| ==> !Known(pokemon[i], nickname, details)
  {
    FirstKey(pokemon, nickname, details);
    hide Normalize;
  }

  lemma StillKnown(pokemon: seq<PokemonView>, now: int, nickname: string, details: string)
    ensures forall i :: 0 <= i < |pokemon| ==>
              Known(DeactivateAll(pokemon, now)[i], nickname, details) == Known(pokemon[i], nickname, details)
  {
    hide Normalize;
  }

  lemma KnownMeans(pv: PokemonView, nickname: string, details: string)
    ensures Known(pv, nickname, details) ==> pv.nickname == nickname && pv.switchIdentity == Normalize(details)
  {
    hide Normalize;
  }

  lemma ZeroIsNone()
    ensures NoBoosts(ZERO_BOOSTS)
  {}

  lemma ReturnRead(was: PokemonView, benched: PokemonView, now: PokemonView, index: int)
    requires Benched(was, benched, index)
    requires now == benched.(active := true, hp := now.hp, status := now.status, fainted := false,
                             currentDetails := now.currentDetails, boosts := now.boosts, volatiles := [],
                             recharging := false, transformTarget := None)
    ensures ReturnedAs(was, now, index)
  {
    hide Ended, NoBoosts;
  }

  /** The roster after an entry, apart from the state around it. */
  lemma {:induction false} EntryRead(
    side: SideView, nickname: string, details: string, hp: HpObservation, status: Option<string>, now: int)
    returns (at: nat)
    ensures var was, after := side.pokemon, ActivatePokemon(side, nickname, details, hp, status, now);
            && after == side.(pokemon := after.pokemon, activeSlot := Some(1))
            && at <= |was| && |after.pokemon| == (if at == |was| then at + 1 else |was|)
            && (forall i :: 0 <= i < at ==> !Known(was[i], nickname, details))
            && (at < |was| ==> Known(was[at], nickname, details))
            && (forall i :: 0 <= i < |was| && i != at ==> Benched(was[i], after.pokemon[i], now))
            && (if at < |was| then ReturnedAs(was[at], after.pokemon[at], now)
                else Unknown(nickname, after.pokemon[at]))
            && var entered := after.pokemon[at];
               && entered.active && !entered.fainted && entered.status == status && entered.hp == Some(hp)
               && entered.currentDetails == Some(details) && entered.switchIdentity == Normalize(details)
               && NoBoosts(entered.boosts) && entered.volatiles == [] && !entered.recharging
               && entered.transformTarget.None?
  {
    EmptyDetails();
    var benched := DeactivateAll(side.pokemon, now);
    forall i | 0 <= i < |benched| ensures Benched(side.pokemon[i], benched[i], now) { BenchRead(side.pokemon[i], now); }
    FirstKnown(benched, nickname, details);
    StillKnown(side.pokemon, now, nickname, details);
    ZeroIsNone();
    hide Normalize, FindForSwitchIn, Deactivate, Benched, ReturnedAs, Known, NoBoosts;
    at := match FindForSwitchIn(benched, nickname, details) case Some(i) => i case None => |benched|;
    if at < |benched| {
      KnownMeans(side.pokemon[at], nickname, details);
      KnownMeans(benched[at], nickname, details);
      var entered := ActivatePokemon(side, nickname, details, hp, status, now).pokemon[at];
      ReturnRead(side.pokemon[at], benched[at], entered, now);
    }
  }

  lemma {:induction false} EntryMeans(state: ObservedState, ref: PokemonRef, details: string, token: HpToken)
    ensures match EntryRefusal(ref, token)
            case Some(error) => SwitchIn(state, ref, details, token) == Err(error)
            case None =>
              && SwitchIn(state, ref, details, token).Ok?
              && var after := SwitchIn(state, ref, details, token).value;
                 exists id, at :: EnteredAt(state, ref, details, token, after, id, at)
  {
    hide ParseSide, TokenToObservation, Shows, TokenBad, Normalize, ActivatePokemon, Benched, ReturnedAs, Unknown,
         NoBoosts;
    SideRead(ref.side);
    TokenRead(token, ref.side, state.ourSide);
    if ParseSide(ref.side).Ok? && !TokenBad(token) {
      var id := ParseSide(ref.side).value;
      var after := SwitchIn(state, ref, details, token).value;
      ViewRead(state, id, ViewOf(after, id));
      var at := EntryRead(ViewOf(state, id), ref.nickname, details,
                          TokenToObservation(token, ref.side, state.ourSide).value, token.status, state.eventIndex);
      assert EnteredAt(state, ref, details, token, after, id, at);
    }
  }

  // ----- edits -----

  lemma StatRead(boosts: seq<int>, stat: string, mode: BoostMode, amount: int)
    requires |boosts| == |BOOST_STATS|
    ensures match WriteBoost(boosts, stat, mode, amount)
            case Ok(after) => stat in BOOST_STATS && BoostMoved(boosts, after, stat, mode, amount)
            case Err(e) => e == ValueFault && stat !in BOOST_STATS
  {
    var index := StatIndex(stat);
    if index.Ok? {
      forall i | 0 <= i < |BOOST_STATS| && BOOST_STATS[i] == stat ensures i == index.value {
        StatNamesDiffer(i, index.value);
      }
    }
    StatError(stat, 0);
  }

  lemma {:induction false} StatError(stat: string, i: nat)
    requires i <= |BOOST_STATS|
    ensures StatIndexFrom(stat, i).Err? ==> StatIndexFrom(stat, i).error == ValueFault
    decreases |BOOST_STATS| - i
  {
    if i < |BOOST_STATS| { StatError(stat, i + 1); }
  }

  lemma ScopeNames(i: nat)
    requires i < |BOOST_STATS|
    ensures BOOST_STATS[i] != "all" && BOOST_STATS[i] != "positive" && BOOST_STATS[i] != "negative"
  {
    assert |"all"| == 3 && "all"[0] == 'a' && "all"[1] == 'l' && |"positive"| == 8 && |"negative"| == 8;
    assert BOOST_STATS[0][1] == 't' && BOOST_STATS[5][1] == 'c';
  }

  lemma ScopeRead(boosts: seq<int>, scope: string)
    requires |boosts| == |BOOST_STATS|
    ensures match ClearedBoosts(boosts, scope)
            case Ok(after) => EditRefusal(ClearBoosts(scope)).None? && BoostsCleared(boosts, after, scope)
            case Err(e) => EditRefusal(ClearBoosts(scope)) == Some(e)
  {
    forall i | 0 <= i < |BOOST_STATS|
      ensures BOOST_STATS[i] != "all" && BOOST_STATS[i] != "positive" && BOOST_STATS[i] != "negative"
    {
      ScopeNames(i);
    }
    var index := StatIndex(scope);
    if index.Ok? {
      forall i | 0 <= i < |BOOST_STATS| && BOOST_STATS[i] == scope ensures i == index.value {
        StatNamesDiffer(i, index.value);
      }
    }
    hide StatIndex;
  }

  lemma {:induction false} RemovalRead(xs: seq<string>, x: string)
    ensures Removed(xs, Without(xs, x), x)
  {
    if xs != [] {
      RemovalRead(xs[1..], x);
      var rest := Without(xs[1..], x);
      assert Without(xs, x) == (if xs[0] != x then [xs[0]] else []) + rest;
      assert ([xs[0]] + rest)[1..] == rest && [] + rest == rest;
    }
  }

  lemma VolatileRead(volatiles: seq<string>, volatile: string)
    requires StrictlyOrdered(volatiles, TextKey) && volatile !in volatiles
    ensures var after := SortByKey(volatiles + [volatile], TextKey);
            multiset(after) == multiset(volatiles) + multiset{volatile} && StrictlyOrdered(after, TextKey)
  {
    var all := volatiles + [volatile];
    forall i, j | 0 <= i < j < |all| ensures TextKey(all[i]) != TextKey(all[j]) {
      if j < |volatiles| { LexLessIrreflexive(volatiles[i]); }
    }
    SortOrders(all, TextKey);
  }

  /** What `EditRead` says of one edit. */
  ghost predicate EditDoes(
    pv: PokemonView, edit: Edit, side: string, ourSide: Option<SideId>, now: int, result: Reduced<PokemonView>)
  {
    match EditRefusal(edit)
    case Some(error) => result == Err(error)
    case None => result.Ok? && Edited(pv, edit, side, ourSide, now, result.value)
  }

  lemma FaintRead(pv: PokemonView, side: string, ourSide: Option<SideId>, now: int)
    requires pv.hp.Some? ==> pv.hp.value.maximum > 0
    ensures EditDoes(pv, Faint, side, ourSide, now, EditPokemon(pv, Faint, side, ourSide, now))
  {}

  lemma FormRead(pv: PokemonView, edit: Edit, side: string, ourSide: Option<SideId>, now: int)
    requires edit.ChangeForm?
    ensures EditDoes(pv, edit, side, ourSide, now, EditPokemon(pv, edit, side, ourSide, now))
  {
    hide TokenToObservation, Shows, TokenBad, Normalize;
    TokenRead(edit.formHp, side, ourSide);
  }

  lemma VolatileEditRead(pv: PokemonView, edit: Edit, side: string, ourSide: Option<SideId>, now: int)
    requires edit.ChangeVolatile? && StrictlyOrdered(pv.volatiles, TextKey)
    ensures EditDoes(pv, edit, side, ourSide, now, EditPokemon(pv, edit, side, ourSide, now))
  {
    hide StrictlyOrdered, SortByKey, Without, Removed;
    RemovalRead(pv.volatiles, edit.volatile);
    if edit.volatile !in pv.volatiles { VolatileRead(pv.volatiles, edit.volatile); }
  }

  lemma BoostEditRead(pv: PokemonView, edit: Edit, side: string, ourSide: Option<SideId>, now: int)
    requires (edit.ChangeBoost? || edit.ClearBoosts?) && |pv.boosts| == |BOOST_STATS|
    ensures EditDoes(pv, edit, side, ourSide, now, EditPokemon(pv, edit, side, ourSide, now))
  {
    hide WriteBoost, ClearedBoosts, BoostMoved, BoostsCleared;
    match edit
    case ChangeBoost(stat, mode, amount) => StatRead(pv.boosts, stat, mode, amount);
    case ClearBoosts(scope) => ScopeRead(pv.boosts, scope);
  }

  lemma IntervalEditRead(pv: PokemonView, edit: Edit, side: string, ourSide: Option<SideId>, now: int)
    requires edit.ChangeItem? || edit.ChangeAbility?
    ensures EditDoes(pv, edit, side, ourSide, now, EditPokemon(pv, edit, side, ourSide, now))
  {
    hide OpenInterval, Dated;
    match edit
    case ChangeItem(item, action) => IntervalRead(pv.itemIntervals, if action.Set? then item else None, now);
    case ChangeAbility(ability, action) =>
      IntervalRead(pv.abilityIntervals, if action.Set? then ability else None, now);
  }

  /** An edit of a well-formed member does what it means, or is refused for its value. */
  lemma {:induction false} EditRead(
    pv: PokemonView, edit: Edit, side: string, ourSide: Option<SideId>, now: int, bound: int)
    requires MemberOk(pv, bound)
    ensures EditDoes(pv, edit, side, ourSide, now, EditPokemon(pv, edit, side, ourSide, now))
  {
    if edit.Faint? {
      FaintRead(pv, side, ourSide, now);
    } else if edit.ChangeForm? {
      FormRead(pv, edit, side, ourSide, now);
    } else if edit.ChangeVolatile? {
      VolatileEditRead(pv, edit, side, ourSide, now);
    } else if edit.ChangeBoost? || edit.ClearBoosts? {
      BoostEditRead(pv, edit, side, ourSide, now);
    } else if edit.ChangeItem? || edit.ChangeAbility? {
      IntervalEditRead(pv, edit, side, ourSide, now);
    } else {
      PlainEditRead(pv, edit, side, ourSide, now);
    }
  }

  lemma PlainEditRead(pv: PokemonView, edit: Edit, side: string, ourSide: Option<SideId>, now: int)
    requires edit.UseMove? || edit.SetStatus? || edit.InvertBoosts? || edit.Transform? || edit.Terastallize?
             || edit.SetRecharge?
    ensures EditDoes(pv, edit, side, ourSide, now, EditPokemon(pv, edit, side, ourSide, now))
  {
    hide WriteBoost, ClearedBoosts, OpenInterval, TokenToObservation, SortByKey, Without, Normalize;
  }

  lemma EvidenceRead(before: ObservedState, ref: PokemonRef, edit: Edit, after: ObservedState)
    requires after.visibleEvidence == before.visibleEvidence + EditEvidence(ref, edit, before.eventIndex)
    ensures EditShown(before, ref, edit, after)
  {
    assert before.visibleEvidence + [] == before.visibleEvidence;
  }

  lemma MemberOfState(state: ObservedState, bound: int, id: SideId, at: int)
    requires StateOkAt(state, bound) && 0 <= at < |ViewOf(state, id).pokemon|
    ensures MemberOk(ViewOf(state, id).pokemon[at], bound)
  {
    hide MemberOk;
  }

  lemma {:induction false} TargetedMeans(state: ObservedState, ref: PokemonRef, edit: Edit, bound: int)
    requires StateOkAt(state, bound)
    ensures match TargetedRefusal(state, ref, edit)
            case Some(error) => EditActive(state, ref, edit) == Err(error)
            case None =>
              && EditActive(state, ref, edit).Ok?
              && var after := EditActive(state, ref, edit).value;
                 exists id, at :: EditedAt(state, ref, edit, after, id, at)
  {
    hide StateOkAt, ParseSide, RequireActive, Named, SomeNamed, EditPokemon, Edited, EditRefusal, EditEvidence,
         EditShown, MemberOk;
    SideRead(ref.side);
    SomeNamedRead(state, ref.side, ref.nickname);
    if ParseSide(ref.side).Ok? {
      var id := ParseSide(ref.side).value;
      NamedRead(ViewOf(state, id), ref.nickname);
      var target := RequireActive(ViewOf(state, id), ref.nickname);
      if target.Ok? {
        MemberOfState(state, bound, id, target.value);
        EditRead(ViewOf(state, id).pokemon[target.value], edit, ref.side, state.ourSide, state.eventIndex, bound);
        if EditRefusal(edit).None? {
          var after := EditActive(state, ref, edit).value;
          ViewRead(state, id, ViewOf(after, id));
          EvidenceRead(state, ref, edit, after);
          assert EditedAt(state, ref, edit, after, id, target.value);
        }
      }
    }
  }

  // ----- boosts of two members -----

  lemma SwapRead(source: seq<int>, target: seq<int>, stats: seq<string>)
    requires |source| == |target| == |BOOST_STATS|
    ensures SwapStats(source, target, stats).Ok? ==>
              && AllStats(stats)
              && Swapped(source, target, SwapStats(source, target, stats).value.0,
                         SwapStats(source, target, stats).value.1, stats)
    ensures SwapStats(source, target, stats).Err? ==>
              SwapStats(source, target, stats).error == ValueFault && !AllStats(stats)
  {
    SwapExchangesOddStats(source, target, stats);
    SwapError(source, target, stats);
    hide SwapStats, Occurrences;
  }

  lemma {:induction false} SwapError(source: seq<int>, target: seq<int>, stats: seq<string>)
    requires |source| == |target| == |BOOST_STATS|
    ensures SwapStats(source, target, stats).Err? ==> SwapStats(source, target, stats).error == ValueFault
    decreases |stats|
  {
    if stats != [] {
      StatError(stats[0], 0);
      hide StatIndexFrom;
      if StatIndex(stats[0]).Ok? {
        var i := StatIndex(stats[0]).value;
        SwapError(source[i := target[i]], target[i := source[i]], stats[1..]);
      }
    }
  }

  lemma {:induction false} CopyError(source: seq<int>, target: seq<int>, stats: seq<string>)
    requires |source| == |target| == |BOOST_STATS|
    ensures CopyStats(source, target, stats).Err? ==> CopyStats(source, target, stats).error == ValueFault
    decreases |stats|
  {
    if stats != [] {
      StatError(stats[0], 0);
      hide StatIndexFrom;
      if StatIndex(stats[0]).Ok? {
        var i := StatIndex(stats[0]).value;
        CopyError(source, target[i := source[i]], stats[1..]);
      }
    }
  }

  /** The members an exchange names, if both are there. */
  lemma PairRead(state: ObservedState, bound: int, ref: PokemonRef, other: PokemonRef)
    requires StateOkAt(state, bound)
    ensures SomeNamed(state, ref.side, ref.nickname) && SomeNamed(state, other.side, other.nickname) ==>
              && ParseSide(ref.side).Ok? && ParseSide(other.side).Ok?
              && var from, to := ParseSide(ref.side).value, ParseSide(other.side).value;
                 && RequireActive(ViewOf(state, from), ref.nickname).Ok?
                 && RequireActive(ViewOf(state, to), other.nickname).Ok?
                 && var i, j := RequireActive(ViewOf(state, from), ref.nickname).value,
                                RequireActive(ViewOf(state, to), other.nickname).value;
                    && SideNamed(ref.side, from) && SideNamed(other.side, to)
                    && Named(ViewOf(state, from), ref.nickname, i) && Named(ViewOf(state, to), other.nickname, j)
                    && |ViewOf(state, from).pokemon[i].boosts| == |ViewOf(state, to).pokemon[j].boosts| == |BOOST_STATS|
                    && (from == to ==> i == j)
  {
    hide StateOkAt, SomeNamed, RequireActive, ParseSide, MemberOk;
    SideRead(ref.side);
    SideRead(other.side);
    SomeNamedRead(state, ref.side, ref.nickname);
    SomeNamedRead(state, other.side, other.nickname);
    if SomeNamed(state, ref.side, ref.nickname) && SomeNamed(state, other.side, other.nickname) {
      var from, to := ParseSide(ref.side).value, ParseSide(other.side).value;
      NamedRead(ViewOf(state, from), ref.nickname);
      NamedRead(ViewOf(state, to), other.nickname);
      FieldRead(ViewOf(state, from).pokemon);
      BoostsOfMember(state, bound, from, RequireActive(ViewOf(state, from), ref.nickname).value);
      BoostsOfMember(state, bound, to, RequireActive(ViewOf(state, to), other.nickname).value);
    }
  }

  lemma BoostsOfMember(state: ObservedState, bound: int, id: SideId, at: int)
    requires StateOkAt(state, bound) && 0 <= at < |ViewOf(state, id).pokemon|
    ensures |ViewOf(state, id).pokemon[at].boosts| == |BOOST_STATS|
  {
    MemberOfState(state, bound, id, at);
    hide StateOkAt;
  }

  /** Both members of an exchange, and where they are. */
  ghost predicate Places(
    state: ObservedState, source: PokemonRef, target: PokemonRef, from: SideId, i: nat, to: SideId, j: nat)
  {
    && ParseSide(source.side) == Ok(from) && ParseSide(target.side) == Ok(to)
    && RequireActive(ViewOf(state, from), source.nickname) == Ok(i)
    && RequireActive(ViewOf(state, to), target.nickname) == Ok(j)
    && |ViewOf(state, from).pokemon[i].boosts| == |ViewOf(state, to).pokemon[j].boosts| == |BOOST_STATS|
    && SideNamed(source.side, from) && SideNamed(target.side, to)
    && Named(ViewOf(state, from), source.nickname, i) && Named(ViewOf(state, to), target.nickname, j)
    && (from == to ==> i == j)
  }

  /** Either both members are there, or the event is refused for naming one that is not. */
  lemma PlacesRead(state: ObservedState, bound: int, source: PokemonRef, target: PokemonRef)
    requires StateOkAt(state, bound)
    ensures SomeNamed(state, source.side, source.nickname) && SomeNamed(state, target.side, target.nickname) ==>
              exists from, i, to, j :: Places(state, source, target, from, i, to, j)
  {
    PairRead(state, bound, source, target);
    hide StateOkAt, RequireActive, ParseSide, Named;
    if SomeNamed(state, source.side, source.nickname) && SomeNamed(state, target.side, target.nickname) {
      var from, to := ParseSide(source.side).value, ParseSide(target.side).value;
      assert Places(state, source, target, from, RequireActive(ViewOf(state, from), source.nickname).value, to,
                    RequireActive(ViewOf(state, to), target.nickname).value);
    }
  }

  lemma SwapAtPlaces(
    state: ObservedState, source: PokemonRef, target: PokemonRef, stats: seq<string>, from: SideId, i: nat,
    to: SideId, j: nat)
    requires Places(state, source, target, from, i, to, j)
    ensures if AllStats(stats)
            then SwapBoosts(state, source, target, stats).Ok?
                 && SwappedAt(state, source, target, stats, SwapBoosts(state, source, target, stats).value,
                              from, i, to, j)
            else SwapBoosts(state, source, target, stats) == Err(ValueFault)
  {
    hide RequireActive, ParseSide, Named, SwapStats, Swapped, AllStats;
    SwapRead(ViewOf(state, from).pokemon[i].boosts, ViewOf(state, to).pokemon[j].boosts, stats);
    if AllStats(stats) && from == to { SelfSwap(state, source, target, stats, from, i); }
  }

  lemma CopyAtPlaces(
    state: ObservedState, target: PokemonRef, source: PokemonRef, stats: seq<string>, from: SideId, i: nat,
    to: SideId, j: nat)
    requires Places(state, source, target, from, i, to, j)
    ensures if AllStats(stats)
            then CopyBoosts(state, target, source, stats).Ok?
                 && CopiedAt(state, target, source, stats, CopyBoosts(state, target, source, stats).value,
                             from, i, to, j)
            else CopyBoosts(state, target, source, stats) == Err(ValueFault)
  {
    var s, t := ViewOf(state, from).pokemon[i].boosts, ViewOf(state, to).pokemon[j].boosts;
    CopyTakesListedStats(s, t, stats);
    CopyError(s, t, stats);
    hide RequireActive, ParseSide, Named, CopyStats;
    if AllStats(stats) {
      var after := CopyBoosts(state, target, source, stats).value;
      ViewRead(state, to, ViewOf(after, to));
    }
  }

  lemma {:induction false} SwapMeans(
    state: ObservedState, source: PokemonRef, target: PokemonRef, stats: seq<string>, bound: int)
    requires StateOkAt(state, bound)
    ensures match ExchangeRefusal(state, source, target, stats)
            case Some(error) => SwapBoosts(state, source, target, stats) == Err(error)
            case None =>
              && SwapBoosts(state, source, target, stats).Ok?
              && var after := SwapBoosts(state, source, target, stats).value;
                 exists from, i, to, j :: SwappedAt(state, source, target, stats, after, from, i, to, j)
  {
    hide StateOkAt, SomeNamed, SwapBoosts, AllStats, SwappedAt, Places;
    PlacesRead(state, bound, source, target);
    if SomeNamed(state, source.side, source.nickname) && SomeNamed(state, target.side, target.nickname) {
      var from, i, to, j :| Places(state, source, target, from, i, to, j);
      SwapAtPlaces(state, source, target, stats, from, i, to, j);
    } else {
      SwapUnnamed(state, source, target, stats);
    }
  }

  lemma SwapUnnamed(state: ObservedState, source: PokemonRef, target: PokemonRef, stats: seq<string>)
    requires !SomeNamed(state, source.side, source.nickname) || !SomeNamed(state, target.side, target.nickname)
    ensures SwapBoosts(state, source, target, stats) == Err(InvariantViolation)
  {
    hide SomeNamed, RequireActive, ParseSide, SwapStats, ViewOf;
    SidesAreViews(state);
    NamedErrors(state, source);
    NamedErrors(state, target);
    AnyErrors(state, source);
    AnyErrors(state, target);
  }

  lemma CopyUnnamed(state: ObservedState, target: PokemonRef, source: PokemonRef, stats: seq<string>)
    requires !SomeNamed(state, source.side, source.nickname) || !SomeNamed(state, target.side, target.nickname)
    ensures CopyBoosts(state, target, source, stats) == Err(InvariantViolation)
  {
    hide SomeNamed, RequireActive, ParseSide, CopyStats, ViewOf;
    SidesAreViews(state);
    NamedErrors(state, source);
    NamedErrors(state, target);
    AnyErrors(state, source);
    AnyErrors(state, target);
  }

  lemma SidesAreViews(state: ObservedState)
    ensures forall id :: state.Side(id) == ViewOf(state, id)
  {}

  lemma AnyErrors(state: ObservedState, ref: PokemonRef)
    ensures ParseSide(ref.side).Err? ==> ParseSide(ref.side).error == InvariantViolation
    ensures forall id :: RequireActive(ViewOf(state, id), ref.nickname).Err? ==>
              RequireActive(ViewOf(state, id), ref.nickname).error == InvariantViolation
  {
    hide FindActive;
  }

  lemma NamedErrors(state: ObservedState, ref: PokemonRef)
    ensures !SomeNamed(state, ref.side, ref.nickname) ==>
              ParseSide(ref.side) == Err(InvariantViolation)
              || (ParseSide(ref.side).Ok?
                  && RequireActive(ViewOf(state, ParseSide(ref.side).value), ref.nickname) == Err(InvariantViolation))
  {
    hide SomeNamed, RequireActive, ParseSide, Named;
    SideRead(ref.side);
    SomeNamedRead(state, ref.side, ref.nickname);
    if ParseSide(ref.side).Ok? { NamedRead(ViewOf(state, ParseSide(ref.side).value), ref.nickname); }
  }

  /** On one side the exchange is of a member with itself. */
  lemma SelfSwap(state: ObservedState, source: PokemonRef, target: PokemonRef, stats: seq<string>, id: SideId, at: nat)
    requires ParseSide(source.side) == Ok(id) && ParseSide(target.side) == Ok(id)
    requires RequireActive(ViewOf(state, id), source.nickname) == Ok(at)
    requires RequireActive(ViewOf(state, id), target.nickname) == Ok(at)
    requires |ViewOf(state, id).pokemon[at].boosts| == |BOOST_STATS| && AllStats(stats)
    ensures SwapBoosts(state, source, target, stats) == Ok(state)
  {
    var pv := ViewOf(state, id).pokemon[at];
    SwapRead(pv.boosts, pv.boosts, stats);
    hide RequireActive, ParseSide, SwapStats, Occurrences, AllStats;
    var swapped := SwapStats(pv.boosts, pv.boosts, stats).value;
    assert swapped.0 == pv.boosts;
    assert pv.(boosts := swapped.0) == pv;
    assert ViewOf(state, id).pokemon[at := pv] == ViewOf(state, id).pokemon;
  }

  lemma {:induction false} CopyMeans(
    state: ObservedState, target: PokemonRef, source: PokemonRef, stats: seq<string>, bound: int)
    requires StateOkAt(state, bound)
    ensures match ExchangeRefusal(state, target, source, stats)
            case Some(error) => CopyBoosts(state, target, source, stats) == Err(error)
            case None =>
              && CopyBoosts(state, target, source, stats).Ok?
              && var after := CopyBoosts(state, target, source, stats).value;
                 exists from, i, to, j :: CopiedAt(state, target, source, stats, after, from, i, to, j)
  {
    hide StateOkAt, SomeNamed, CopyBoosts, AllStats, CopiedAt, Places;
    PlacesRead(state, bound, source, target);
    if SomeNamed(state, source.side, source.nickname) && SomeNamed(state, target.side, target.nickname) {
      var from, i, to, j :| Places(state, source, target, from, i, to, j);
      CopyAtPlaces(state, target, source, stats, from, i, to, j);
    } else {
      CopyUnnamed(state, target, source, stats);
    }
  }

  // ----- the rest of the roster -----

  lemma ClearedRead(side: SideView)
    requires forall i :: 0 <= i < |side.pokemon| ==> |side.pokemon[i].boosts| == |BOOST_STATS|
    ensures FieldCleared(side, ClearActiveBoosts(side))
  {
    FieldRead(side.pokemon);
    hide FindActive, OnField;
  }

  lemma CureMeans(state: ObservedState, side: string)
    ensures match CureTeam(state, side)
            case Ok(after) => AnySide(side) && exists id :: CuredAt(state, side, after, id)
            case Err(e) => e == InvariantViolation && !AnySide(side)
  {
    SideRead(side);
    hide ParseSide;
    if ParseSide(side).Ok? {
      var id := ParseSide(side).value;
      var after := CureTeam(state, side).value;
      ViewRead(state, id, ViewOf(after, id));
      assert CuredAt(state, side, after, id);
    }
  }

  lemma RosterBoosts(state: ObservedState, bound: int, id: SideId)
    requires StateOkAt(state, bound)
    ensures forall i :: 0 <= i < |ViewOf(state, id).pokemon| ==>
              |ViewOf(state, id).pokemon[i].boosts| == |BOOST_STATS|
  {
    forall i | 0 <= i < |ViewOf(state, id).pokemon|
      ensures |ViewOf(state, id).pokemon[i].boosts| == |BOOST_STATS|
    {
      BoostsOfMember(state, bound, id, i);
    }
    hide StateOkAt;
  }

  // ----- events beside the rosters -----

  lemma DeclaredMeans(state: ObservedState, side: string, userId: string, displayName: string)
    ensures match DeclarePlayer(state, side, userId, displayName)
            case Ok(after) => AnySide(side) && exists id :: DeclaredAt(state, side, userId, displayName, after, id)
            case Err(e) => e == InvariantViolation && !AnySide(side)
  {
    SideRead(side);
    hide ParseSide;
    if ParseSide(side).Ok? {
      assert DeclaredAt(state, side, userId, displayName, DeclarePlayer(state, side, userId, displayName).value,
                        ParseSide(side).value);
    }
  }

  lemma ResizedMeans(state: ObservedState, side: string, size: int)
    ensures match DeclareTeamSize(state, side, size)
            case Ok(after) => AnySide(side) && exists id :: ResizedAt(state, side, size, after, id)
            case Err(e) => e == InvariantViolation && !AnySide(side)
  {
    SideRead(side);
    hide ParseSide;
    if ParseSide(side).Ok? {
      assert ResizedAt(state, side, size, DeclareTeamSize(state, side, size).value, ParseSide(side).value);
    }
  }

  lemma PreviewedMeans(state: ObservedState, side: string, entry: PreviewPokemon)
    ensures match DeclarePreview(state, side, entry)
            case Ok(after) => AnySide(side) && exists id :: PreviewedAt(state, side, entry, after, id)
            case Err(e) => e == InvariantViolation && !AnySide(side)
  {
    SideRead(side);
    hide ParseSide;
    if ParseSide(side).Ok? {
      assert PreviewedAt(state, side, entry, DeclarePreview(state, side, entry).value, ParseSide(side).value);
    }
  }

  lemma {:induction false} LayersRead(conditions: seq<(string, int)>, name: string, n: int)
    requires ConditionsOk(conditions) && HasLayers(conditions, name, n)
    ensures Layers(conditions, name) == n
  {
    ConditionsAreLayers(conditions);
    GetIsMembership(conditions, name);
  }

  lemma {:induction false} LayersMean(
    conditions: seq<(string, int)>, condition: string, action: Action, name: string)
    requires ConditionsOk(conditions) && ConditionsOk(UpdateSideCondition(conditions, condition, action))
    ensures LayersMoved(conditions, UpdateSideCondition(conditions, condition, action), condition, action, name)
  {
    var after := UpdateSideCondition(conditions, condition, action);
    SideConditionMeaning(conditions, condition, action, name);
    hide ConditionsOk, UpdateSideCondition, HasLayers;
    forall was, now | HasLayers(conditions, name, was) && HasLayers(after, name, now)
      ensures Layers(conditions, name) == was && Layers(after, name) == now
    {
      LayersRead(conditions, name, was);
      LayersRead(after, name, now);
    }
    hide Layers;
  }

  lemma {:induction false} LayeredMeans(
    state: ObservedState, side: string, condition: string, action: Action, bound: int)
    requires StateOkAt(state, bound)
    ensures match ChangeCondition(state, side, condition, action)
            case Ok(after) => AnySide(side) && exists id :: LayeredAt(state, side, condition, action, after, id)
            case Err(e) => e == InvariantViolation && !AnySide(side)
  {
    SideRead(side);
    hide ParseSide, UpdateSideCondition, LayersMoved, ConditionsOk, MemberOk;
    if ParseSide(side).Ok? {
      var id := ParseSide(side).value;
      var after := ChangeCondition(state, side, condition, action).value;
      ViewRead(state, id, ViewOf(after, id));
      var was := ViewOf(state, id).sideConditions;
      SideConditionKeeps(was, condition, action);
      forall name ensures LayersMoved(was, UpdateSideCondition(was, condition, action), condition, action, name) {
        LayersMean(was, condition, action, name);
      }
      assert LayeredAt(state, side, condition, action, after, id);
    }
  }

  lemma FieldMeans(state: ObservedState, condition: string, action: Action)
    ensures var after := ChangeField(state, condition, action);
            && after == state.(fieldConditions := after.fieldConditions)
            && FieldMoved(state.fieldConditions, after.fieldConditions, condition, action)
  {
    RemovalRead(state.fieldConditions, condition);
    hide Without, Removed;
  }

  // ----- every event -----

  lemma ClearedMeans(state: ObservedState, bound: int)
    requires StateOkAt(state, bound)
    ensures FieldCleared(state.p1, ClearActiveBoosts(state.p1)) && FieldCleared(state.p2, ClearActiveBoosts(state.p2))
  {
    hide StateOkAt, ClearActiveBoosts, FieldCleared;
    RosterBoosts(state, bound, P1);
    RosterBoosts(state, bound, P2);
    assert ViewOf(state, P1) == state.p1 && ViewOf(state, P2) == state.p2;
    ClearedRead(state.p1);
    ClearedRead(state.p2);
  }

  lemma {:induction false} RosterEventMeans(state: ObservedState, body: EventBody, bound: int)
    requires TouchesRoster(body) && StateOkAt(state, bound)
    ensures Does(state, body, Apply(state, body))
  {
    hide StateOkAt, SwitchIn, ChangeHealth, CureTeam, SwapBoosts, CopyBoosts, ClearActiveBoosts, ChangeIdentity,
         EditActive, EntryRefusal, HealthRefusal, ExchangeRefusal, IdentityRefusal, TargetedRefusal, EnteredAt,
         HealedAt, CuredAt, SwappedAt, CopiedAt, RenamedAt, EditedAt, FieldCleared, AnySide;
    match body
    case PokemonSwitched(ref, details, hp) => EntryMeans(state, ref, details, hp);
    case PokemonDragged(ref, details, hp) => EntryMeans(state, ref, details, hp);
    case HealthChanged(side, slot, nickname, hp) => HealthMeans(state, side, slot, nickname, hp);
    case TeamStatusCured(side) => CureMeans(state, side);
    case BoostsSwapped(ref, other, stats) => SwapMeans(state, ref, other, stats, bound);
    case BoostsCopied(ref, other, stats) => CopyMeans(state, ref, other, stats, bound);
    case AllBoostsCleared => ClearedMeans(state, bound);
    case IdentityChanged(ref, details, hp) => IdentityMeans(state, ref, details, hp);
    case Targeted(ref, edit) => TargetedMeans(state, ref, edit, bound);
  }

  predicate FieldEvent(body: EventBody) {
    body.MovePrevented? || body.WeatherChanged? || body.SideConditionsSwapped? || body.EvidenceSeen?
    || body.IgnoredDisplay?
  }

  lemma FieldEventMeans(state: ObservedState, body: EventBody)
    requires FieldEvent(body)
    ensures Does(state, body, Apply(state, body))
  {
    hide ApplyMetadata;
  }

  lemma PlainEventMeans(state: ObservedState, body: EventBody)
    requires !TouchesRoster(body) && !FieldEvent(body)
    requires !body.PlayerDeclared? && !body.TeamSizeDeclared? && !body.PreviewPokemonDeclared?
    requires !body.SideConditionChanged? && !body.FieldConditionChanged?
    ensures Does(state, body, Apply(state, body))
  {
    hide AddEvidence, EvidenceFor;
  }

  lemma {:induction false} OtherEventMeans(state: ObservedState, body: EventBody, bound: int)
    requires !TouchesRoster(body) && StateOkAt(state, bound)
    ensures Does(state, body, Apply(state, body))
  {
    hide StateOkAt, DeclarePlayer, DeclareTeamSize, DeclarePreview, ChangeField, ChangeCondition, DeclaredAt, ResizedAt,
         PreviewedAt, LayeredAt, FieldMoved, AnySide;
    if !(body.PlayerDeclared? || body.TeamSizeDeclared? || body.PreviewPokemonDeclared? || body.SideConditionChanged?
         || body.FieldConditionChanged?) {
      if FieldEvent(body) { FieldEventMeans(state, body); } else { PlainEventMeans(state, body); }
      return;
    }
    match body
    case PlayerDeclared(side, userId, displayName) => DeclaredMeans(state, side, userId, displayName);
    case TeamSizeDeclared(side, size) => ResizedMeans(state, side, size);
    case PreviewPokemonDeclared(side, details, hasItem) =>
      PreviewedMeans(state, side, PreviewPokemon(details, hasItem));
    case SideConditionChanged(side, condition, action) => LayeredMeans(state, side, condition, action, bound);
    case FieldConditionChanged(condition, action) => FieldMeans(state, condition, action);
    case _ =>
  }

  /** In a well-formed state the reducer refuses an event exactly if its index is not new or it names a side, member,
      stat or token that is not there, each with its kind of error; and otherwise leaves the state the event means: the
      named fields as the event gives them, everything else as it was. */
  lemma {:induction false} ReduceMeansTheEvent(state: ObservedState, eventIndex: int, body: EventBody)
    requires StateOk(state)
    ensures if eventIndex <= state.eventIndex then Reduce(state, eventIndex, body) == Err(InvariantViolation)
            else Does(state.(eventIndex := eventIndex), body, Reduce(state, eventIndex, body))
  {
    hide Does, Apply, StateOkAt;
    var dated := state.(eventIndex := eventIndex);
    if eventIndex > state.eventIndex {
      DatedOk(state, eventIndex);
      if TouchesRoster(body) {
        RosterEventMeans(dated, body, state.eventIndex);
      } else {
        OtherEventMeans(dated, body, state.eventIndex);
      }
    }
  }

  lemma DatedOk(state: ObservedState, eventIndex: int)
    requires StateOk(state)
    ensures StateOkAt(state.(eventIndex := eventIndex), state.eventIndex)
  {
    hide SideOk, EvidenceOk;
  }
}
