// The value types shared by the whole game: colours, market cards, events,
// asset and liability cards, characters and their rule tables, player ids
// and the public view of a player (game/src/player/mod.rs and
// game/src/game/mod.rs). Behaviour on these types lives in PlayerRules and
// MarketRules.
module Vocabulary {
  import opened Wrappers

  /**
   * A `u8` value, used where the model keeps the source's byte range: the
   * market's rates, the rule-table constants and the `as u8` casts of error
   * payloads. Cash, counters and card values are `u8` in the source too but
   * are unbounded here.
   */
  type U8 = x: int | 0 <= x < 256

  /** `PlayerId(u8)`: a player's id, which is also its index in the player list. */
  type PlayerId = x: int | 0 <= x < 256

  datatype Color = Red | Green | Purple | Yellow | Blue

  /** `Color::COLORS` */
  const COLORS: seq<Color> := [Red, Green, Purple, Yellow, Blue]

  /** A colour's market condition; `Zero` is the default. */
  datatype MarketCondition = Plus | Minus | Zero

  /** A market card: risk-free rate, market risk premium and one condition per colour. */
  datatype Market = Market(
    title: string,
    rfr: U8,
    mrp: U8,
    yellow: MarketCondition,
    blue: MarketCondition,
    green: MarketCondition,
    purple: MarketCondition,
    red: MarketCondition)

  /** `Market::default()` */
  const DEFAULT_MARKET: Market := Market("", 0, 0, Zero, Zero, Zero, Zero, Zero)

  /** An event card, interleaved with market cards in the market deck. */
  datatype Event = Event(
    title: string,
    description: string,
    plusGold: set<Color>,
    minusGold: set<Color>,
    skipTurn: Option<Character>)

  datatype AssetPowerup = MinusIntoPlus | SilverIntoGold | CountAsAnyColor

  datatype Asset = Asset(
    title: string,
    goldValue: nat,
    silverValue: nat,
    color: Color,
    ability: Option<AssetPowerup>,
    imageFrontUrl: string,
    imageBackUrl: string)

  datatype LiabilityType = TradeCredit | BankLoan | Bonds

  datatype Liability = Liability(
    value: nat,
    rfrType: LiabilityType,
    imageFrontUrl: string,
    imageBackUrl: string)

  datatype CardType = AssetCard | LiabilityCard

  /** A card in a player's hand: `Either<Asset, Liability>`. */
  type Card = Either<Asset, Liability>

  /** The eight characters, declared in call order; the derived `Ord` follows this order. */
  datatype Character = Shareholder | Banker | Regulator | CEO | CFO | CSO | HeadRnD | Stakeholder

  /** `Character::CHARACTERS`, in call order. */
  const CHARACTERS: seq<Character> :=
    [Shareholder, Banker, Regulator, CEO, CFO, CSO, HeadRnD, Stakeholder]

  /** How many assets a character may buy in one turn, and what each colour costs of that. */
  datatype PlayableAssets = PlayableAssets(
    total: U8,
    redCost: U8,
    greenCost: U8,
    purpleCost: U8,
    yellowCost: U8,
    blueCost: U8)

  /** `PlayableAssets::default()` */
  const DEFAULT_PLAYABLE_ASSETS: PlayableAssets := PlayableAssets(1, 1, 1, 1, 1, 1)

  /** What every player may see about a player: the hand only as card kinds. */
  datatype PlayerInfo = PlayerInfo(
    name: string,
    id: PlayerId,
    hand: seq<CardType>,
    assets: seq<Asset>,
    liabilities: seq<Liability>,
    cash: nat,
    character: Option<Character>)

  /** `PlayerInfo::default()` */
  const DEFAULT_PLAYER_INFO: PlayerInfo := PlayerInfo("", 0, [], [], [], 0, None)

  /** A player the regulator may swap hands with, with the size of that hand. */
  datatype RegulatorSwapPlayer = RegulatorSwapPlayer(playerId: PlayerId, assetCount: nat, liabilityCount: nat)

  datatype DivestAsset = DivestAsset(asset: Asset, divestCost: nat, isDivestable: bool)

  /** A player the stakeholder may force to divest, with that player's assets. */
  datatype DivestPlayer = DivestPlayer(playerId: PlayerId, assets: seq<DivestAsset>)

  /** The events drawn and the new market, when a purchase refreshes the market. */
  datatype MarketChange = MarketChange(events: seq<Event>, newMarket: Market)

  /** What playing a card did: the card, and the market change it caused, if any. */
  datatype PlayerPlayedCard = PlayerPlayedCard(market: Option<MarketChange>, usedCard: Card)

  datatype TurnEnded = TurnEnded(nextPlayer: Option<PlayerId>, gameEnded: bool)

  /** The two hands after a regulator swapped with a player. */
  datatype HandsAfterSwap = HandsAfterSwap(regulatorNewHand: seq<Card>, targetNewHand: seq<Card>)

  /** What a picker may choose from, and the closed character when it is revealed. */
  datatype PickableCharacters = PickableCharacters(characters: seq<Character>, closedCharacter: Option<Character>)

  /** The kind of a card, forgetting its contents. */
  function KindOf(c: Card): (k: CardType)
    ensures k == AssetCard <==> c.Left?
  {
    if c.Left? then AssetCard else LiabilityCard
  }
}
