// The state of one player in each phase of the game, as plain values:
// `LobbyPlayer`, `SelectingCharactersPlayer`, `RoundPlayer`,
// `BankerTargetPlayer` and `ResultsPlayer` (game/src/player/*.rs). The
// classes that update these fields in place snapshot themselves into these
// records, and the conversions between phases are functions on them.
module PlayerRecords {
  import opened Wrappers
  import opened Vocabulary

  datatype LobbyPlayerData = LobbyPlayerData(id: PlayerId, name: string, isHuman: bool)

  datatype SelectingPlayerData = SelectingPlayerData(
    id: PlayerId,
    name: string,
    cash: nat,
    assets: seq<Asset>,
    liabilities: seq<Liability>,
    character: Option<Character>,
    hand: seq<Card>,
    isHuman: bool)

  datatype RoundPlayerData = RoundPlayerData(
    id: PlayerId,
    name: string,
    cash: nat,
    assets: seq<Asset>,
    liabilities: seq<Liability>,
    character: Character,
    hand: seq<Card>,
    /** Hand positions of the cards drawn this turn. */
    cardsDrawn: seq<nat>,
    bonusDrawCards: nat,
    assetsToPlay: nat,
    playableAssets: PlayableAssets,
    liabilitiesToPlay: nat,
    totalCardsDrawn: nat,
    totalCardsGivenBack: nat,
    hasUsedAbility: bool,
    hasGottenBonusCash: bool,
    wasFirstToSixAssets: bool,
    isHuman: bool)

  datatype BankerTargetPlayerData = BankerTargetPlayerData(
    id: PlayerId,
    name: string,
    cash: nat,
    assets: seq<Asset>,
    liabilities: seq<Liability>,
    character: Character,
    hand: seq<Card>,
    liabilitiesToPlay: nat,
    wasFirstToSixAssets: bool)

  /** What the silver-into-gold ability last changed: the asset and its values afterwards. */
  datatype SilverIntoGoldData = SilverIntoGoldData(assetIdx: nat, goldValue: nat, silverValue: nat)

  /** What the change-colour ability last changed: the asset and a colour. */
  datatype ChangeAssetColorData = ChangeAssetColorData(assetIdx: nat, color: Color)

  datatype ResultsPlayerData = ResultsPlayerData(
    id: PlayerId,
    name: string,
    cash: nat,
    assets: seq<Asset>,
    liabilities: seq<Liability>,
    hand: seq<Card>,
    market: Market,
    oldSilverIntoGold: Option<SilverIntoGoldData>,
    oldChangeAssetColor: Option<ChangeAssetColorData>,
    confirmedAssetAbilityIdxs: seq<nat>)
}
