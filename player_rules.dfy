// Rule tables and card arithmetic of game/src/player/mod.rs: an asset's
// market value and divest cost, a liability's interest rate, the character
// tables (colour, call order, playable assets and liabilities, draws,
// abilities), the per-colour cost of buying an asset, and the public view of
// a hand.
module PlayerRules {
  import opened Wrappers
  import opened Vocabulary
  import opened MarketRules

  // ---------------------------------------------------------------- assets

  /**
   * `Asset::market_value`: gold plus silver counted +1, 0 or -1 times for the
   * market condition of the asset's colour. The source computes in `i8`; the
   * model uses unbounded integers.
   */
  function MarketValue(a: Asset, market: Market): (r: int)
    ensures ColorCondition(market, a.color) == Plus ==> r == a.goldValue + a.silverValue
    ensures ColorCondition(market, a.color) == Zero ==> r == a.goldValue
    ensures ColorCondition(market, a.color) == Minus ==> r == a.goldValue - a.silverValue
  {
    var mul := match ColorCondition(market, a.color)
      case Plus => 1
      case Minus => -1
      case Zero => 0;
    a.goldValue + a.silverValue * mul
  }

  /** `Asset::divest_cost`: one less than the market value, and never below zero. */
  function DivestCost(a: Asset, market: Market): (r: nat)
    ensures r == 0 <==> MarketValue(a, market) <= 1
    ensures r > 0 ==> r == MarketValue(a, market) - 1
    ensures r <= a.goldValue + a.silverValue
  {
    var mv := MarketValue(a, market);
    if mv <= 1 then 0 else mv - 1
  }

  // ----------------------------------------------------------- liabilities

  /** `Liability::rfr_percentage` */
  function RfrPercentage(l: Liability): (r: nat)
    ensures 1 <= r <= 3
    ensures r == 1 <==> l.rfrType == TradeCredit
    ensures r == 2 <==> l.rfrType == BankLoan
    ensures r == 3 <==> l.rfrType == Bonds
  {
    match l.rfrType
    case TradeCredit => 1
    case BankLoan => 2
    case Bonds => 3
  }

  // ------------------------------------------------------------ characters

  /** A character's position in `CHARACTERS`, which is also its rank under the derived order. */
  function Index(c: Character): (i: nat)
    ensures i < |CHARACTERS| && CHARACTERS[i] == c
  {
    match c
    case Shareholder => 0
    case Banker => 1
    case Regulator => 2
    case CEO => 3
    case CFO => 4
    case CSO => 5
    case HeadRnD => 6
    case Stakeholder => 7
  }

  /** The derived `Ord` on characters: declaration (call) order. */
  predicate Before(a: Character, b: Character)
  {
    Index(a) < Index(b)
  }

  /** Distinct characters have distinct positions. */
  lemma IndexInjective(a: Character, b: Character)
    ensures Index(a) == Index(b) ==> a == b
  {
  }

  /** `Character::color`: the colourless characters are Shareholder, Banker and Regulator. */
  function ColorOf(c: Character): (r: Option<Color>)
    ensures r.None? <==> Index(c) < 3
  {
    match c
    case Shareholder => None
    case Banker => None
    case Regulator => None
    case CEO => Some(Yellow)
    case CFO => Some(Blue)
    case CSO => Some(Green)
    case HeadRnD => Some(Purple)
    case Stakeholder => Some(Red)
  }

  /** Every colour belongs to exactly one character. */
  lemma ColorOwnersUnique(a: Character, b: Character)
    requires ColorOf(a).Some? && ColorOf(a) == ColorOf(b)
    ensures a == b
  {
  }

  /** `Character::next` */
  function Next(c: Character): Option<Character>
  {
    match c
    case Shareholder => Some(Banker)
    case Banker => Some(Regulator)
    case Regulator => Some(CEO)
    case CEO => Some(CFO)
    case CFO => Some(CSO)
    case CSO => Some(HeadRnD)
    case HeadRnD => Some(Stakeholder)
    case Stakeholder => None
  }

  /** `next` is the character immediately after `c` in call order, and None only for the last one. */
  lemma NextIsSuccessor(c: Character)
    ensures Next(c).None? <==> c == Stakeholder
    ensures Next(c).Some? ==> Index(Next(c).value) == Index(c) + 1
    ensures Next(c).Some? ==> Next(c).value == CHARACTERS[Index(c) + 1]
  {
    match c
    case Shareholder =>
    case Banker =>
    case Regulator =>
    case CEO =>
    case CFO =>
    case CSO =>
    case HeadRnD =>
    case Stakeholder =>
  }

  /** `Character::first`: the smallest character of a list, if any. */
  function First(cs: seq<Character>): (r: Option<Character>)
    ensures r.None? <==> cs == []
    ensures r.Some? ==> r.value in cs && forall x :: x in cs ==> Index(r.value) <= Index(x)
  {
    if cs == [] then None
    else
      var rest := First(cs[1..]);
      if rest.Some? && Before(rest.value, cs[0]) then rest else Some(cs[0])
  }

  /** `Character::playable_assets` */
  function PlayableAssetsOf(c: Character): (r: PlayableAssets)
  {
    match c
    case CEO => DEFAULT_PLAYABLE_ASSETS.(total := 3)
    case CSO => PlayableAssets(2, 1, 1, 2, 2, 2)
    case _ => DEFAULT_PLAYABLE_ASSETS
  }

  /** `PlayableAssets::color_cost`: what buying one asset of a colour takes from the allowance. */
  function ColorCost(pa: PlayableAssets, color: Color): (cost: U8)
    ensures color == Red ==> cost == pa.redCost
    ensures color == Green ==> cost == pa.greenCost
    ensures color == Purple ==> cost == pa.purpleCost
    ensures color == Yellow ==> cost == pa.yellowCost
    ensures color == Blue ==> cost == pa.blueCost
  {
    match color
    case Red => pa.redCost
    case Green => pa.greenCost
    case Purple => pa.purpleCost
    case Yellow => pa.yellowCost
    case Blue => pa.blueCost
  }

  /**
   * The playable-asset tables: the CEO may buy three assets, the CSO two red
   * or green or one other, everyone else one.
   */
  lemma PlayableAssetsTable(c: Character, color: Color)
    ensures c == CEO ==> PlayableAssetsOf(c).total == 3 && ColorCost(PlayableAssetsOf(c), color) == 1
    ensures c == CSO ==> PlayableAssetsOf(c).total == 2
    ensures c == CSO ==> ColorCost(PlayableAssetsOf(c), color) == if color in {Red, Green} then 1 else 2
    ensures c != CEO && c != CSO ==> PlayableAssetsOf(c).total == 1 && ColorCost(PlayableAssetsOf(c), color) == 1
  {
  }

  /**
   * The debug assertions in `color_cost` always hold for the characters'
   * tables: every cost is positive and divides the total.
   */
  lemma {:induction false} ColorCostDividesTotal(c: Character, color: Color)
    ensures ColorCost(PlayableAssetsOf(c), color) > 0
    ensures PlayableAssetsOf(c).total % ColorCost(PlayableAssetsOf(c), color) == 0
  {
    match c {
      case CEO =>
      case CSO =>
        match color {
          case Red =>
          case Green =>
          case Purple =>
          case Yellow =>
          case Blue =>
        }
      case _ =>
    }
  }

  /** `Character::playable_liabilities` */
  function PlayableLiabilities(c: Character): (r: U8)
    ensures r == (if c == CFO then 3 else 1)
  {
    match c
    case CFO => 3
    case _ => 1
  }

  /** `Character::draws_n_cards` */
  function DrawsNCards(c: Character): (r: U8)
    ensures r == (if c == HeadRnD then 6 else 3)
    ensures r % 3 == 0
  {
    match c
    case HeadRnD => 6
    case _ => 3
  }

  /** `Character::can_redeem_liabilities`: only the CFO. */
  predicate CanRedeemLiabilities(c: Character)
  {
    c == CFO
  }

  /** `Character::can_be_fired` */
  predicate CanBeFired(c: Character)
  {
    c in {CEO, CSO, CFO, HeadRnD, Stakeholder}
  }

  /** `Character::can_be_forced_to_divest` */
  predicate CanBeForcedToDivest(c: Character)
  {
    c != CSO
  }

  /** The characters that can be fired are exactly the coloured ones. */
  lemma CanBeFiredIffColored(c: Character)
    ensures CanBeFired(c) <==> ColorOf(c).Some?
    ensures CanBeFired(c) <==> Index(c) >= 3
  {
  }

  // ------------------------------------------------------------ the hand

  /** `PlayerInfo::hand`: what the others see of a hand, the kind of each card. */
  function HandKinds(hand: seq<Card>): (r: seq<CardType>)
    ensures |r| == |hand|
    ensures forall i :: 0 <= i < |hand| ==> (r[i] == AssetCard <==> hand[i].Left?)
  {
    seq(|hand|, i requires 0 <= i < |hand| => KindOf(hand[i]))
  }

  /** The view of a hand forgets contents: hands with cards of the same kinds look the same. */
  lemma HandKindsForgetsContents(h1: seq<Card>, h2: seq<Card>)
    requires |h1| == |h2|
    requires forall i :: 0 <= i < |h1| ==> h1[i].Left? == h2[i].Left?
    ensures HandKinds(h1) == HandKinds(h2)
  {
  }

  /** The view of a hand is taken card by card, so it distributes over concatenation. */
  lemma HandKindsAppend(h1: seq<Card>, h2: seq<Card>)
    ensures HandKinds(h1 + h2) == HandKinds(h1) + HandKinds(h2)
  {
  }
}
