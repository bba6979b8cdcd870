/** What events leave alone: member activity, switch keys, and the public facts a request waits for. */
module RosterKeys {
  import opened Basics
  import opened ObservedStates
  import opened IdentityKey
  import opened Reducer
  import opened ReducerInvariants

  predicate SwitchEvent(body: EventBody) {
    body.PokemonSwitched? || body.PokemonDragged?
  }

  /** The two events that rewrite the key of the active Pokemon. */
  predicate RenamesKey(body: EventBody) {
    body.IdentityChanged? || (body.Targeted? && body.edit.ChangeForm? && body.edit.kind.PersistentDetails?)
  }

  predicate SameKey(a: PokemonView, b: PokemonView) {
    a.nickname == b.nickname && a.switchIdentity == b.switchIdentity
  }

  ghost predicate KeysDistinct(pokemon: seq<PokemonView>) {
    forall i, j :: 0 <= i < j < |pokemon| ==> !SameKey(pokemon[i], pokemon[j])
  }

  ghost predicate StateKeysDistinct(state: ObservedState) {
    KeysDistinct(state.p1.pokemon) && KeysDistinct(state.p2.pokemon)
  }

  /** Same members in the same places with the same activity, and the same keys unless one was renamed. */
  ghost predicate SameMembers(before: seq<PokemonView>, after: seq<PokemonView>, renamed: bool) {
    && |before| == |after|
    && forall i :: 0 <= i < |before| ==>
         before[i].active == after[i].active && (renamed || SameKey(before[i], after[i]))
  }

  ghost predicate SameRosters(before: ObservedState, after: ObservedState, renamed: bool) {
    SameMembers(before.p1.pokemon, after.p1.pokemon, renamed)
    && SameMembers(before.p2.pokemon, after.p2.pokemon, renamed)
  }

  ghost predicate SameFacts(before: ObservedState, after: ObservedState) {
    && after.ourSide == before.ourSide && after.generation == before.generation
    && after.gameType == before.gameType && after.tier == before.tier
    && after.battleStarted == before.battleStarted
  }

  ghost predicate Quiet(before: ObservedState, after: Reduced<ObservedState>, renamed: bool) {
    after.Ok? ==> SameRosters(before, after.value, renamed) && SameFacts(before, after.value)
  }

  lemma EditShape(pv: PokemonView, edit: Edit, side: string, ourSide: Option<SideId>, eventIndex: int)
    ensures var after := EditPokemon(pv, edit, side, ourSide, eventIndex);
            after.Ok? ==>
              && after.value.active == pv.active
              && (!(edit.ChangeForm? && edit.kind.PersistentDetails?) ==> SameKey(pv, after.value))
  {
    hide TokenToObservation, OpenInterval, WriteBoost, ClearedBoosts, SortByKey, Without, Normalize;
  }

  lemma ReplacedMembers(side: SideView, i: nat, pv: PokemonView, renamed: bool)
    requires i < |side.pokemon| && pv.active == side.pokemon[i].active
    requires renamed || SameKey(side.pokemon[i], pv)
    ensures SameMembers(side.pokemon, ReplaceAt(side, i, pv).pokemon, renamed)
    ensures SameMembers(side.pokemon, side.pokemon, renamed)
  {}

  lemma EditIsQuiet(state: ObservedState, ref: PokemonRef, edit: Edit)
    ensures Quiet(state, EditActive(state, ref, edit), RenamesKey(Targeted(ref, edit)))
  {
    hide EditPokemon, RequireActive, SameMembers, EditEvidence, ReplaceAt;
    SelfMembers(state, RenamesKey(Targeted(ref, edit)));
    if EditActive(state, ref, edit).Ok? {
      var side := state.Side(ParseSide(ref.side).value);
      var i := RequireActive(side, ref.nickname).value;
      EditShape(side.pokemon[i], edit, ref.side, state.ourSide, state.eventIndex);
      var pv := EditPokemon(side.pokemon[i], edit, ref.side, state.ourSide, state.eventIndex).value;
      ReplacedMembers(side, i, pv, RenamesKey(Targeted(ref, edit)));
    }
  }

  lemma HealthIsQuiet(state: ObservedState, side: string, slot: Option<int>, nickname: string, token: HpToken)
    ensures Quiet(state, ChangeHealth(state, side, slot, nickname, token), false)
  {
    hide TokenToObservation, RequireHealthTarget, SameMembers, ReplaceAt;
    SelfMembers(state, false);
    if ChangeHealth(state, side, slot, nickname, token).Ok? {
      var view := state.Side(ParseSide(side).value);
      var i := RequireHealthTarget(view, nickname, slot).value;
      var hp := TokenToObservation(token, side, state.ourSide).value;
      var hit := view.pokemon[i].(hp := Some(hp), status := token.status, fainted := token.fainted);
      ReplacedMembers(view, i, hit, false);
    }
  }

  lemma CuredMembers(pokemon: seq<PokemonView>)
    ensures SameMembers(pokemon, Cured(pokemon), false)
  {}

  lemma CureIsQuiet(state: ObservedState, side: string)
    ensures Quiet(state, CureTeam(state, side), false)
  {
    hide SameMembers, Cured;
    SelfMembers(state, false);
    if CureTeam(state, side).Ok? {
      CuredMembers(state.Side(ParseSide(side).value).pokemon);
    }
  }

  lemma SelfMembers(state: ObservedState, renamed: bool)
    ensures SameRosters(state, state, renamed)
  {}

  lemma SwapIsQuiet(state: ObservedState, source: PokemonRef, target: PokemonRef, stats: seq<string>)
    ensures Quiet(state, SwapBoosts(state, source, target, stats), false)
  {
    hide SwapStats, RequireActive, SameMembers, ReplaceAt;
    SelfMembers(state, false);
    if SwapBoosts(state, source, target, stats).Ok? {
      var s, t := ParseSide(source.side).value, ParseSide(target.side).value;
      var i := RequireActive(state.Side(s), source.nickname).value;
      var j := RequireActive(state.Side(t), target.nickname).value;
      var swapped := SwapStats(state.Side(s).pokemon[i].boosts, state.Side(t).pokemon[j].boosts, stats).value;
      ReplacedMembers(state.Side(s), i, state.Side(s).pokemon[i].(boosts := swapped.0), false);
      ReplacedMembers(state.Side(t), j, state.Side(t).pokemon[j].(boosts := swapped.1), false);
    }
  }

  lemma CopyIsQuiet(state: ObservedState, target: PokemonRef, source: PokemonRef, stats: seq<string>)
    ensures Quiet(state, CopyBoosts(state, target, source, stats), false)
  {
    hide CopyStats, RequireActive, SameMembers, ReplaceAt;
    SelfMembers(state, false);
    if CopyBoosts(state, target, source, stats).Ok? {
      var s, t := ParseSide(source.side).value, ParseSide(target.side).value;
      var i := RequireActive(state.Side(s), source.nickname).value;
      var j := RequireActive(state.Side(t), target.nickname).value;
      var copied := CopyStats(state.Side(s).pokemon[i].boosts, state.Side(t).pokemon[j].boosts, stats).value;
      ReplacedMembers(state.Side(t), j, state.Side(t).pokemon[j].(boosts := copied), false);
    }
  }

  lemma ClearedMembers(side: SideView)
    ensures SameMembers(side.pokemon, ClearActiveBoosts(side).pokemon, false)
  {}

  lemma ClearIsQuiet(state: ObservedState)
    ensures Quiet(state, Ok(state.(p1 := ClearActiveBoosts(state.p1), p2 := ClearActiveBoosts(state.p2))), false)
  {
    hide SameMembers, ClearActiveBoosts;
    ClearedMembers(state.p1);
    ClearedMembers(state.p2);
  }

  lemma RenameIsQuiet(state: ObservedState, ref: PokemonRef, details: string, token: HpToken)
    ensures Quiet(state, ChangeIdentity(state, ref, details, token), true)
  {
    hide TokenToObservation, OpenInterval, Normalize, SameMembers, ReplaceAt;
    SelfMembers(state, true);
    if ChangeIdentity(state, ref, details, token).Ok? {
      var side := state.Side(ParseSide(ref.side).value);
      var i := FindActive(side.pokemon).value;
      var hp := TokenToObservation(token, ref.side, state.ourSide).value;
      var pv := side.pokemon[i];
      ReplacedMembers(side, i, pv.(
        nickname := ref.nickname, switchIdentity := Normalize(details), currentDetails := Some(details),
        identityIntervals := OpenInterval(pv.identityIntervals, Some(details), state.eventIndex),
        hp := Some(hp), status := token.status, fainted := token.fainted), true);
    }
  }

  lemma FieldIsQuiet(state: ObservedState, body: EventBody)
    requires body.WeatherChanged? || body.FieldConditionChanged? || body.IgnoredDisplay?
    ensures Quiet(state, Apply(state, body), false)
  {
    hide Without, SameMembers;
    SelfMembers(state, false);
  }

  lemma ConditionIsQuiet(state: ObservedState, side: string, condition: string, action: Action)
    ensures Quiet(state, ChangeCondition(state, side, condition, action), false)
  {
    hide UpdateSideCondition, SameMembers;
    SelfMembers(state, false);
  }

  lemma EvidenceIsQuiet(state: ObservedState, evidence: VisibleEvidence)
    ensures Quiet(state, Ok(AddEvidence(state, evidence)), false)
  {
    hide SameMembers;
    SelfMembers(state, false);
  }

  lemma ConditionsSwapIsQuiet(state: ObservedState)
    ensures Quiet(state, Apply(state, SideConditionsSwapped), false)
  {
    hide SameMembers;
    SelfMembers(state, false);
  }

  predicate RetryEvent(body: EventBody) {
    body.BattleStarted? || body.GameTypeDeclared? || body.GenerationDeclared? || body.PlayerDeclared?
    || body.TierDeclared? || SwitchEvent(body)
  }

  lemma MetadataKeepsMembers(state: ObservedState, body: EventBody)
    ensures var after := ApplyMetadata(state, body);
            after.Ok? ==> SameRosters(state, after.value, false)
  {
    MetadataLeavesBattlefield(state, body);
  }

  lemma SizeFacts(state: ObservedState, side: string, size: int)
    ensures DeclareTeamSize(state, side, size).Ok? ==> SameFacts(state, DeclareTeamSize(state, side, size).value)
  {}

  lemma PreviewFacts(state: ObservedState, side: string, entry: PreviewPokemon)
    ensures DeclarePreview(state, side, entry).Ok? ==> SameFacts(state, DeclarePreview(state, side, entry).value)
  {}

  lemma MetadataIsQuiet(state: ObservedState, body: EventBody)
    requires !RetryEvent(body)
    ensures Quiet(state, ApplyMetadata(state, body), false)
  {
    MetadataKeepsMembers(state, body);
    hide SameRosters, DeclareTeamSize, DeclarePreview, DeclarePlayer;
    match body
    case TeamSizeDeclared(side, size) => SizeFacts(state, side, size);
    case PreviewPokemonDeclared(side, details, hasItem) => PreviewFacts(state, side, PreviewPokemon(details, hasItem));
    case _ =>
  }

  /** Outside the retry events no public fact changes and no Pokemon becomes active or leaves. */
  lemma {:induction false} OtherEventsAreQuiet(state: ObservedState, body: EventBody)
    requires !RetryEvent(body)
    ensures Quiet(state, Apply(state, body), RenamesKey(body))
  {
    hide Quiet, ApplyMetadata, SwitchIn, ChangeHealth, CureTeam, SwapBoosts, CopyBoosts, ChangeIdentity, EditActive,
         ClearActiveBoosts, ChangeCondition, EvidenceFor, RequireActive;
    match body
    case HealthChanged(side, slot, nickname, hp) => HealthIsQuiet(state, side, slot, nickname, hp);
    case TeamStatusCured(side) => CureIsQuiet(state, side);
    case BoostsSwapped(ref, other, stats) => SwapIsQuiet(state, ref, other, stats);
    case BoostsCopied(ref, other, stats) => CopyIsQuiet(state, ref, other, stats);
    case AllBoostsCleared => ClearIsQuiet(state);
    case IdentityChanged(ref, details, hp) => RenameIsQuiet(state, ref, details, hp);
    case Targeted(ref, edit) => EditIsQuiet(state, ref, edit);
    case MovePrevented(ref, reason, moveId) =>
      EvidenceIsQuiet(state, EvidenceFor(ref, "move_prevented", reason,
                                         if moveId.Some? then [moveId.value] else [], state.eventIndex));
    case WeatherChanged(_, _) => FieldIsQuiet(state, body);
    case FieldConditionChanged(_, _) => FieldIsQuiet(state, body);
    case SideConditionChanged(side, condition, action) => ConditionIsQuiet(state, side, condition, action);
    case SideConditionsSwapped => ConditionsSwapIsQuiet(state);
    case EvidenceSeen(kind, side, slot, nickname, effect, annotations) =>
      EvidenceIsQuiet(state, VisibleEvidence(state.eventIndex, kind, side, slot, nickname, effect, annotations));
    case IgnoredDisplay => FieldIsQuiet(state, body);
    case _ => MetadataIsQuiet(state, body);
  }

  lemma {:induction false} SameActivity(before: seq<PokemonView>, after: seq<PokemonView>, renamed: bool)
    requires SameMembers(before, after, renamed)
    ensures HasActive(before) <==> HasActive(after)
  {
    ActiveIffSome(before);
    ActiveIffSome(after);
  }

  /** A fact a pending request waits for can only appear with a retry event. */
  lemma {:induction false} FactsAppearOnRetryEvents(state: ObservedState, eventIndex: int, body: EventBody)
    requires !RetryEvent(body)
    requires Reduce(state, eventIndex, body).Ok?
    ensures var after := Reduce(state, eventIndex, body).value;
            && SameFacts(state, after)
            && (HasActive(after.p1.pokemon) <==> HasActive(state.p1.pokemon))
            && (HasActive(after.p2.pokemon) <==> HasActive(state.p2.pokemon))
  {
    hide Apply, SameMembers, HasActive, RetryEvent;
    OtherEventsAreQuiet(state.(eventIndex := eventIndex), body);
    var after := Reduce(state, eventIndex, body).value;
    SameActivity(state.p1.pokemon, after.p1.pokemon, RenamesKey(body));
    SameActivity(state.p2.pokemon, after.p2.pokemon, RenamesKey(body));
  }

  // ----- switch keys -----

  lemma {:induction false} ActivateKeepsKeys(
    side: SideView, nickname: string, details: string, hp: HpObservation, status: Option<string>, eventIndex: int)
    requires KeysDistinct(side.pokemon)
    ensures KeysDistinct(ActivatePokemon(side, nickname, details, hp, status, eventIndex).pokemon)
  {
    hide EndAbilitySuppression;
    var benched := DeactivateAll(side.pokemon, eventIndex);
    assert forall i :: 0 <= i < |benched| ==> SameKey(benched[i], side.pokemon[i]);
    EmptyDetails();
    assert NewPokemon(nickname, details).switchIdentity == Normalize(details);
    hide Normalize;
    var after := ActivatePokemon(side, nickname, details, hp, status, eventIndex).pokemon;
    assert forall i :: 0 <= i < |benched| ==> SameKey(after[i], benched[i]);
    if |after| > |benched| {
      assert forall i :: 0 <= i < |benched| ==> !SameKey(after[i], after[|benched|]);
    }
  }

  lemma EmptyDetails()
    ensures Normalize("") == ""
  {
    assert Split("") == [""];
    KeptOfKept([""]);
  }

  lemma {:induction false} SwitchKeepsKeys(state: ObservedState, ref: PokemonRef, details: string, token: HpToken)
    requires StateKeysDistinct(state)
    requires SwitchIn(state, ref, details, token).Ok?
    ensures StateKeysDistinct(SwitchIn(state, ref, details, token).value)
  {
    hide KeysDistinct, ActivatePokemon, TokenToObservation;
    var hp := TokenToObservation(token, ref.side, state.ourSide).value;
    ActivateKeepsKeys(state.Side(ParseSide(ref.side).value), ref.nickname, details, hp, token.status,
                      state.eventIndex);
  }

  lemma SameMembersKeepKeys(before: seq<PokemonView>, after: seq<PokemonView>)
    requires SameMembers(before, after, false) && KeysDistinct(before)
    ensures KeysDistinct(after)
  {}

  /** Events that do not rewrite a key never make two teammates share one. */
  lemma {:induction false} ReduceKeepsKeys(state: ObservedState, eventIndex: int, body: EventBody)
    requires StateKeysDistinct(state) && !RenamesKey(body)
    requires Reduce(state, eventIndex, body).Ok?
    ensures StateKeysDistinct(Reduce(state, eventIndex, body).value)
  {
    hide Apply, KeysDistinct, SameMembers, RetryEvent, SwitchIn;
    var dated := state.(eventIndex := eventIndex);
    var after := Reduce(state, eventIndex, body).value;
    if SwitchEvent(body) {
      SwitchIsSwitchIn(dated, body);
      SwitchKeepsKeys(dated, body.ref, body.details, body.hp);
    } else {
      if RetryEvent(body) {
        RetryIsMetadata(dated, body);
        MetadataKeepsMembers(dated, body);
      } else {
        OtherEventsAreQuiet(dated, body);
      }
      SameMembersKeepKeys(state.p1.pokemon, after.p1.pokemon);
      SameMembersKeepKeys(state.p2.pokemon, after.p2.pokemon);
    }
  }

  lemma SwitchIsSwitchIn(state: ObservedState, body: EventBody)
    requires SwitchEvent(body)
    ensures Apply(state, body) == SwitchIn(state, body.ref, body.details, body.hp)
  {}

  lemma RetryIsMetadata(state: ObservedState, body: EventBody)
    requires RetryEvent(body) && !SwitchEvent(body)
    ensures Apply(state, body) == ApplyMetadata(state, body)
  {}

  /** Roster keys stay pairwise different over every run without a rewritten key. */
  lemma {:induction false} KeysStayDistinct(state: ObservedState, events: seq<(int, EventBody)>)
    requires StateKeysDistinct(state)
    requires forall i :: 0 <= i < |events| ==> !RenamesKey(events[i].1)
    requires ReduceAll(state, events).Ok?
    ensures StateKeysDistinct(ReduceAll(state, events).value)
    decreases |events|
  {
    if events != [] {
      hide StateKeysDistinct, Reduce;
      ReduceKeepsKeys(state, events[0].0, events[0].1);
      var next := Reduce(state, events[0].0, events[0].1).value;
      assert forall i :: 0 <= i < |events[1..]| ==> events[1..][i] == events[i + 1];
      KeysStayDistinct(next, events[1..]);
    }
  }

  // ----- exactly when keys stay different -----

  /** Another teammate already has this key. */
  ghost predicate KeyTaken(pokemon: seq<PokemonView>, active: nat, nickname: string, details: string) {
    exists i :: 0 <= i < |pokemon| && i != active && SwitchKey(pokemon[i], nickname, details)
  }

  lemma {:induction false} ReplacedKeys(
    pokemon: seq<PokemonView>, active: nat, pv: PokemonView, nickname: string, details: string)
    requires KeysDistinct(pokemon) && active < |pokemon| && SwitchKey(pv, nickname, details)
    ensures KeysDistinct(pokemon[active := pv]) <==> !KeyTaken(pokemon, active, nickname, details)
  {
    hide Normalize;
    var after := pokemon[active := pv];
    if KeyTaken(pokemon, active, nickname, details) {
      var i :| 0 <= i < |pokemon| && i != active && SwitchKey(pokemon[i], nickname, details);
      assert SameKey(after[i], after[active]) && SameKey(after[active], after[i]);
    } else {
      forall i, j | 0 <= i < j < |after| ensures !SameKey(after[i], after[j]) {
        assert !SameKey(pokemon[i], pokemon[j]);
        if i == active { assert !SwitchKey(pokemon[j], nickname, details); }
        if j == active { assert !SwitchKey(pokemon[i], nickname, details); }
      }
    }
  }

  /** The details text the active Pokemon's key is rewritten from. */
  function RenamedTo(body: EventBody): string
    requires RenamesKey(body)
  {
    if body.IdentityChanged? then body.details else body.edit.value
  }

  /** A rename gives the active Pokemon of its side a key no other teammate has. */
  ghost predicate FreeRename(state: ObservedState, body: EventBody)
    requires RenamesKey(body)
  {
    var id := ParseSide(body.ref.side);
    id.Ok? ==>
      var pokemon := state.Side(id.value).pokemon;
      FindActive(pokemon).Some? ==>
        !KeyTaken(pokemon, FindActive(pokemon).value, body.ref.nickname, RenamedTo(body))
  }

  /** An accepted rename replaces the active member by one with the new key, and nothing else on either roster. */
  ghost predicate Rekeyed(before: ObservedState, after: ObservedState, ref: PokemonRef, details: string) {
    var id := ParseSide(ref.side);
    && id.Ok? && FindActive(before.Side(id.value).pokemon).Some?
    && var pokemon, active := before.Side(id.value).pokemon, FindActive(before.Side(id.value).pokemon).value;
       exists pv :: && SwitchKey(pv, ref.nickname, details)
                    && after.Side(id.value).pokemon == pokemon[active := pv]
                    && after.Side(Opponent(id.value)).pokemon == before.Side(Opponent(id.value)).pokemon
  }

  function Opponent(id: SideId): SideId {
    match id case P1 => P2 case P2 => P1
  }

  lemma IdentityRekeys(state: ObservedState, ref: PokemonRef, details: string, token: HpToken)
    requires ChangeIdentity(state, ref, details, token).Ok?
    ensures Rekeyed(state, ChangeIdentity(state, ref, details, token).value, ref, details)
  {
    hide TokenToObservation, OpenInterval, Normalize;
    var id := ParseSide(ref.side).value;
    var active := FindActive(state.Side(id).pokemon).value;
    var after := ChangeIdentity(state, ref, details, token).value;
    assert SwitchKey(after.Side(id).pokemon[active], ref.nickname, details);
  }

  lemma FormShape(pv: PokemonView, edit: Edit, side: string, ourSide: Option<SideId>, eventIndex: int)
    requires edit.ChangeForm? && edit.kind.PersistentDetails? && EditPokemon(pv, edit, side, ourSide, eventIndex).Ok?
    ensures SwitchKey(EditPokemon(pv, edit, side, ourSide, eventIndex).value, pv.nickname, edit.value)
  {
    hide TokenToObservation, Normalize;
  }

  lemma FormRekeys(state: ObservedState, ref: PokemonRef, edit: Edit)
    requires edit.ChangeForm? && edit.kind.PersistentDetails? && EditActive(state, ref, edit).Ok?
    ensures Rekeyed(state, EditActive(state, ref, edit).value, ref, edit.value)
  {
    hide EditPokemon, Normalize;
    var id := ParseSide(ref.side).value;
    var active := RequireActive(state.Side(id), ref.nickname).value;
    FormShape(state.Side(id).pokemon[active], edit, ref.side, state.ourSide, state.eventIndex);
    var after := EditActive(state, ref, edit).value;
    assert SwitchKey(after.Side(id).pokemon[active], ref.nickname, edit.value);
  }

  lemma {:induction false} RekeyedRoster(before: ObservedState, after: ObservedState, ref: PokemonRef, details: string)
    requires Rekeyed(before, after, ref, details) && KeysDistinct(before.Side(ParseSide(ref.side).value).pokemon)
    ensures var id := ParseSide(ref.side).value;
            var pokemon := before.Side(id).pokemon;
            && FindActive(pokemon).Some?
            && (KeysDistinct(after.Side(id).pokemon)
                <==> !KeyTaken(pokemon, FindActive(pokemon).value, ref.nickname, details))
            && after.Side(Opponent(id)).pokemon == before.Side(Opponent(id)).pokemon
  {
    hide KeysDistinct, KeyTaken, SwitchKey;
    var id := ParseSide(ref.side).value;
    var pokemon, active := before.Side(id).pokemon, FindActive(before.Side(id).pokemon).value;
    var pv :| && SwitchKey(pv, ref.nickname, details) && after.Side(id).pokemon == pokemon[active := pv]
              && after.Side(Opponent(id)).pokemon == before.Side(Opponent(id)).pokemon;
    ReplacedKeys(pokemon, active, pv, ref.nickname, details);
  }

  lemma {:induction false} RekeyedKeys(before: ObservedState, after: ObservedState, ref: PokemonRef, details: string)
    requires StateKeysDistinct(before) && Rekeyed(before, after, ref, details)
    ensures var pokemon := before.Side(ParseSide(ref.side).value).pokemon;
            StateKeysDistinct(after) <==> !KeyTaken(pokemon, FindActive(pokemon).value, ref.nickname, details)
  {
    RekeyedRoster(before, after, ref, details);
    hide KeysDistinct, KeyTaken, Rekeyed;
  }

  /** An identity change keeps a roster's keys different exactly when no other teammate has the new key. */
  lemma {:induction false} RenameKeepsKeysIffFree(
    state: ObservedState, ref: PokemonRef, details: string, token: HpToken, id: SideId)
    requires ParseSide(ref.side) == Ok(id) && KeysDistinct(state.Side(id).pokemon)
    requires ChangeIdentity(state, ref, details, token).Ok?
    ensures FindActive(state.Side(id).pokemon).Some?
    ensures var active := FindActive(state.Side(id).pokemon).value;
            KeysDistinct(ChangeIdentity(state, ref, details, token).value.Side(id).pokemon)
            <==> !KeyTaken(state.Side(id).pokemon, active, ref.nickname, details)
  {
    IdentityRekeys(state, ref, details, token);
    hide ChangeIdentity, KeysDistinct, KeyTaken, SwitchKey;
    RekeyedRoster(state, ChangeIdentity(state, ref, details, token).value, ref, details);
  }

  /** A persistent form change keeps a roster's keys different exactly when no other teammate has the new key. */
  lemma {:induction false} FormKeepsKeysIffFree(state: ObservedState, ref: PokemonRef, edit: Edit, id: SideId)
    requires ParseSide(ref.side) == Ok(id) && KeysDistinct(state.Side(id).pokemon)
    requires edit.ChangeForm? && edit.kind.PersistentDetails? && EditActive(state, ref, edit).Ok?
    ensures FindActive(state.Side(id).pokemon).Some?
    ensures var active := FindActive(state.Side(id).pokemon).value;
            KeysDistinct(EditActive(state, ref, edit).value.Side(id).pokemon)
            <==> !KeyTaken(state.Side(id).pokemon, active, ref.nickname, edit.value)
  {
    FormRekeys(state, ref, edit);
    hide EditActive, KeysDistinct, KeyTaken, SwitchKey;
    RekeyedRoster(state, EditActive(state, ref, edit).value, ref, edit.value);
  }

  /** An accepted event keeps every roster's keys different if and only if it rewrites no key, or rewrites one to a key
      that no other teammate has. */
  lemma {:induction false} EventKeepsKeysIff(state: ObservedState, eventIndex: int, body: EventBody)
    requires StateKeysDistinct(state) && Reduce(state, eventIndex, body).Ok?
    ensures StateKeysDistinct(Reduce(state, eventIndex, body).value)
            <==> (RenamesKey(body) ==> FreeRename(state, body))
  {
    hide StateKeysDistinct, KeyTaken, Rekeyed, Normalize;
    if RenamesKey(body) {
      var dated := state.(eventIndex := eventIndex);
      RenameIsApplied(dated, body);
      hide Apply;
      var after := Reduce(state, eventIndex, body).value;
      DatedRosters(state, eventIndex);
      RekeyedKeys(dated, after, body.ref, RenamedTo(body));
      RekeyedSide(dated, after, body.ref, RenamedTo(body));
    } else {
      hide Reduce, RenamesKey;
      ReduceKeepsKeys(state, eventIndex, body);
    }
  }

  lemma RenameIsApplied(state: ObservedState, body: EventBody)
    requires RenamesKey(body) && Apply(state, body).Ok?
    ensures Rekeyed(state, Apply(state, body).value, body.ref, RenamedTo(body))
  {
    hide Rekeyed, ChangeIdentity, EditActive;
    if body.IdentityChanged? {
      IdentityRekeys(state, body.ref, body.details, body.hp);
    } else {
      FormRekeys(state, body.ref, body.edit);
    }
  }

  lemma DatedRosters(state: ObservedState, eventIndex: int)
    ensures StateKeysDistinct(state) <==> StateKeysDistinct(state.(eventIndex := eventIndex))
  {
    hide KeysDistinct;
  }

  lemma RekeyedSide(before: ObservedState, after: ObservedState, ref: PokemonRef, details: string)
    requires Rekeyed(before, after, ref, details)
    ensures ParseSide(ref.side).Ok? && FindActive(before.Side(ParseSide(ref.side).value).pokemon).Some?
  {
    hide FindActive;
  }

  /** Teammates' keys differ in every state of the run. */
  ghost predicate DistinctThroughout(state: ObservedState, events: seq<(int, EventBody)>)
    decreases |events|
  {
    StateKeysDistinct(state)
    && (events != [] ==>
          var next := Reduce(state, events[0].0, events[0].1);
          next.Ok? ==> DistinctThroughout(next.value, events[1..]))
  }

  /** Every rename the run accepts is to a key that is free in the state it meets. */
  ghost predicate RenamesFreely(state: ObservedState, events: seq<(int, EventBody)>)
    decreases |events|
  {
    events != [] ==>
      var next := Reduce(state, events[0].0, events[0].1);
      next.Ok? ==>
        (RenamesKey(events[0].1) ==> FreeRename(state, events[0].1)) && RenamesFreely(next.value, events[1..])
  }

  /** Over any run that starts with different keys, they differ in every state if and only if every accepted rename was
      to a free key. */
  lemma {:induction false} KeysDifferIffRenamesAreFree(state: ObservedState, events: seq<(int, EventBody)>)
    requires StateKeysDistinct(state)
    ensures DistinctThroughout(state, events) <==> RenamesFreely(state, events)
    decreases |events|
  {
    hide StateKeysDistinct, FreeRename, Reduce, RenamesKey;
    if events != [] && Reduce(state, events[0].0, events[0].1).Ok? {
      EventKeepsKeysIff(state, events[0].0, events[0].1);
      var next := Reduce(state, events[0].0, events[0].1).value;
      if StateKeysDistinct(next) {
        KeysDifferIffRenamesAreFree(next, events[1..]);
      }
    }
  }

  const FULL: HpToken := HpToken(100, 100, None, false)

  /** Two Pokemon on one team, and the event that gives the active one the other's key. */
  function AliasingRun(): seq<(int, EventBody)> {
    [(0, PokemonSwitched(PokemonRef("p1", 1, "Ada"), "Zoroark", FULL)),
     (1, PokemonSwitched(PokemonRef("p1", 1, "Bob"), "Zoroark", FULL)),
     (2, IdentityChanged(PokemonRef("p1", 1, "Ada"), "Zoroark", FULL))]
  }

  /** The roster after the first two events: Ada on the bench, Bob active, one details key. */
  ghost predicate AdaAndBob(state: ObservedState) {
    && |state.p1.pokemon| == 2 && state.eventIndex == 1 && state.ourSide.None?
    && state.p1.pokemon[0].nickname == "Ada" && !state.p1.pokemon[0].active
    && state.p1.pokemon[0].switchIdentity == Normalize("Zoroark")
    && state.p1.pokemon[1].active
  }

  lemma AdaEnters(ourUserId: string)
    ensures var s1 := Reduce(InitialState(ourUserId), 0, AliasingRun()[0].1);
            && s1.Ok? && |s1.value.p1.pokemon| == 1 && s1.value.eventIndex == 0 && s1.value.ourSide.None?
            && s1.value.p1.pokemon[0].nickname == "Ada" && s1.value.p1.pokemon[0].active
            && s1.value.p1.pokemon[0].switchIdentity == Normalize("Zoroark")
  {
    hide Normalize;
  }

  lemma BobEnters(state: ObservedState)
    requires |state.p1.pokemon| == 1 && state.eventIndex == 0 && state.ourSide.None?
    requires state.p1.pokemon[0].nickname == "Ada" && state.p1.pokemon[0].active
    requires state.p1.pokemon[0].switchIdentity == Normalize("Zoroark")
    ensures Reduce(state, 1, AliasingRun()[1].1).Ok? && AdaAndBob(Reduce(state, 1, AliasingRun()[1].1).value)
  {
    hide Normalize, EndAbilitySuppression;
    assert "Ada" != "Bob" by { assert "Ada"[0] != "Bob"[0]; }
  }

  lemma BobBecomesAda(state: ObservedState)
    requires AdaAndBob(state)
    ensures Reduce(state, 2, AliasingRun()[2].1).Ok?
    ensures !StateKeysDistinct(Reduce(state, 2, AliasingRun()[2].1).value)
  {
    hide Normalize, OpenInterval;
    var after := Reduce(state, 2, AliasingRun()[2].1);
    assert after.Ok? && SameKey(after.value.p1.pokemon[0], after.value.p1.pokemon[1]);
  }

  /** Key distinctness is not an invariant of all runs: this one is accepted and leaves two equal keys. */
  lemma RenamingCanAlias(ourUserId: string)
    ensures var run := ReduceAll(InitialState(ourUserId), AliasingRun());
            run.Ok? && !StateKeysDistinct(run.value)
  {
    hide Reduce, Normalize, StateKeysDistinct, AdaAndBob;
    var s0 := InitialState(ourUserId);
    var events := AliasingRun();
    AdaEnters(ourUserId);
    var s1 := Reduce(s0, 0, events[0].1).value;
    BobEnters(s1);
    var s2 := Reduce(s1, 1, events[1].1).value;
    BobBecomesAda(s2);
    var s3 := Reduce(s2, 2, events[2].1).value;
    assert events[1..][1..] == [events[2]] && [events[2]][1..] == [];
    assert ReduceAll(s0, events) == ReduceAll(s1, events[1..]);
    assert ReduceAll(s1, events[1..]) == ReduceAll(s2, [events[2]]);
    assert ReduceAll(s2, [events[2]]) == ReduceAll(s3, []);
  }
}
