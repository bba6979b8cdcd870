/** The immutable public battle state and the canonical events that advance it. */
module ObservedStates {
  import opened Basics

  datatype SideId = P1 | P2

  function SideText(side: SideId): string {
    match side case P1 => "p1" case P2 => "p2"
  }

  datatype HpPrecision = Exact | Percent | Pixel

  datatype HpObservation = HpObservation(current: int, maximum: int, precision: HpPrecision, fainted: bool)

  datatype HpToken = HpToken(current: int, maximum: int, status: Option<string>, fainted: bool)

  datatype EvidenceInterval =
    EvidenceInterval(value: Option<string>, source: int, validFrom: int, validUntil: Option<int>)

  datatype PreviewPokemon = PreviewPokemon(details: string, hasItem: bool)

  datatype VisibleEvidence = VisibleEvidence(
    eventIndex: int,
    kind: string,
    side: Option<string>,
    slot: Option<int>,
    nickname: Option<string>,
    effect: Option<string>,
    annotations: seq<string>)

  const BOOST_STATS: seq<string> := ["atk", "def", "spa", "spd", "spe", "acc", "eva"]
  const ZERO_BOOSTS: seq<int> := [0, 0, 0, 0, 0, 0, 0]

  datatype PokemonView = PokemonView(
    nickname: string,
    identityIntervals: seq<EvidenceInterval>,
    previewDetails: Option<string>,
    switchIdentity: string,
    currentDetails: Option<string>,
    active: bool,
    hp: Option<HpObservation>,
    status: Option<string>,
    fainted: bool,
    revealedMoves: seq<string>,
    itemIntervals: seq<EvidenceInterval>,
    abilityIntervals: seq<EvidenceInterval>,
    teraType: Option<string>,
    boosts: seq<int>,
    volatiles: seq<string>,
    recharging: bool,
    transformTarget: Option<string>)

  datatype SideView = SideView(
    userId: Option<string>,
    displayName: Option<string>,
    teamSize: Option<int>,
    previewRoster: seq<PreviewPokemon>,
    activeSlot: Option<int>,
    pokemon: seq<PokemonView>,
    sideConditions: seq<(string, int)>)

  datatype ObservedState = ObservedState(
    ourUserId: string,
    eventIndex: int,
    roomInitialized: bool,
    generation: Option<int>,
    gameType: Option<string>,
    tier: Option<string>,
    rated: Option<bool>,
    rules: seq<string>,
    turn: int,
    battleStarted: bool,
    teamPreviewStarted: bool,
    winner: Option<string>,
    tied: bool,
    ourSide: Option<SideId>,
    p1: SideView,
    p2: SideView,
    weather: Option<string>,
    fieldConditions: seq<string>,
    visibleEvidence: seq<VisibleEvidence>,
    ignoredDisplayCount: int)
  {
    function Side(id: SideId): SideView {
      match id case P1 => p1 case P2 => p2
    }

    function WithSide(id: SideId, side: SideView): ObservedState {
      match id case P1 => this.(p1 := side) case P2 => this.(p2 := side)
    }
  }

  const EMPTY_SIDE := SideView(None, None, None, [], None, [], [])

  function InitialState(ourUserId: string): ObservedState {
    ObservedState(ourUserId, -1, false, None, None, None, None, [], 0, false, false, None, false, None,
                  EMPTY_SIDE, EMPTY_SIDE, None, [], [], 0)
  }

  datatype PokemonRef = PokemonRef(side: string, slot: int, nickname: string)

  datatype BoostMode = Delta | Absolute

  datatype FormKind = PersistentDetails | TemporarySpecies

  datatype Action = Start | Upkeep | End | Set | OtherAction

  /** A change to the active Pokemon an event names. */
  datatype Edit =
    | Faint
    | UseMove(moveId: string, annotations: seq<string>)
    | SetStatus(status: Option<string>)
    | ChangeBoost(stat: string, mode: BoostMode, amount: int)
    | ClearBoosts(scope: string)
    | InvertBoosts
    | ChangeItem(item: Option<string>, itemAction: Action)
    | ChangeAbility(ability: Option<string>, abilityAction: Action)
    | ChangeForm(kind: FormKind, value: string, formHp: HpToken)
    | Transform(targetNickname: string)
    | Terastallize(teraType: string)
    | ChangeVolatile(volatile: string, volatileAction: Action)
    | SetRecharge(recharging: bool)

  /** A canonical event without its index. `Targeted` gathers the events that edit one named active Pokemon. */
  datatype EventBody =
    | BattleInit(room: string)
    | PlayerDeclared(playerSide: string, userId: string, displayName: string)
    | TeamSizeDeclared(sizeSide: string, size: int)
    | GenerationDeclared(generation: int)
    | GameTypeDeclared(gameType: string)
    | TierDeclared(tier: string)
    | BattleRated(rated: bool)
    | RuleDeclared(rule: string)
    | PreviewPokemonDeclared(previewSide: string, previewDetails: string, hasItem: bool)
    | PreviewCleared
    | TeamPreviewStarted
    | BattleStarted
    | TurnStarted(turn: int)
    | BattleWon(winner: string)
    | BattleTied
    | PokemonSwitched(ref: PokemonRef, details: string, hp: HpToken)
    | PokemonDragged(ref: PokemonRef, details: string, hp: HpToken)
    | MovePrevented(ref: PokemonRef, reason: string, moveId: Option<string>)
    | HealthChanged(healthSide: string, slot: Option<int>, nickname: string, hp: HpToken)
    | TeamStatusCured(curedSide: string)
    | BoostsSwapped(ref: PokemonRef, other: PokemonRef, stats: seq<string>)
    | BoostsCopied(ref: PokemonRef, other: PokemonRef, stats: seq<string>)
    | AllBoostsCleared
    | IdentityChanged(ref: PokemonRef, details: string, hp: HpToken)
    | Targeted(ref: PokemonRef, edit: Edit)
    | WeatherChanged(weather: Option<string>, action: Action)
    | FieldConditionChanged(condition: string, action: Action)
    | SideConditionChanged(conditionSide: string, condition: string, action: Action)
    | SideConditionsSwapped
    | EvidenceSeen(kind: string, evidenceSide: Option<string>, evidenceSlot: Option<int>,
                   evidenceNickname: Option<string>, effect: Option<string>, annotations: seq<string>)
    | IgnoredDisplay
}
