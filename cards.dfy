// The card catalogue and its conversion into the three playing decks
// (game/src/cards.rs). Reading and parsing the JSON file is not modelled:
// the parsed catalogue is the input.
module Cards {
  import opened Wrappers
  import opened Vocabulary
  import opened Decks
  import opened RoundRules

  /** `AssetCard`: one catalogue entry standing for `copies` identical assets. */
  datatype AssetEntry = AssetEntry(
    title: string,
    color: Color,
    goldValue: U8,
    silverValue: U8,
    copies: nat,
    cardImageUrl: string,
    ability: Option<AssetPowerup>)

  /** `LiabilityCard`: one catalogue entry standing for `copies` identical liabilities. */
  datatype LiabilityEntry = LiabilityEntry(
    liabilityType: LiabilityType,
    goldValue: U8,
    copies: nat,
    cardImageUrl: string)

  /** `MarketEventDetails`: the fields only a market, or only an event, has. */
  datatype MarketEventDetails =
    | MarketStatus(rfr: U8, mrp: U8, yellow: MarketCondition, blue: MarketCondition,
                   green: MarketCondition, purple: MarketCondition, red: MarketCondition)
    | EventDetails(description: string, effect: string)

  /** `MarketEventCard`: one catalogue entry of the market deck. */
  datatype MarketEventEntry = MarketEventEntry(
    title: string,
    copies: nat,
    cardImageUrl: string,
    details: MarketEventDetails)

  /** A catalogue deck as it is loaded: the back image and the entries. */
  datatype CardList<E> = CardList(imageBackUrl: string, cards: seq<E>)

  /** `DeckList`: the three catalogue decks. */
  datatype DeckList = DeckList(
    assetDeck: CardList<AssetEntry>,
    liabilityDeck: CardList<LiabilityEntry>,
    marketEventsDeck: CardList<MarketEventEntry>)

  /** `GameData`: the three playing decks. */
  datatype GameData = GameData(
    assets: DeckData<Asset>,
    liabilities: DeckData<Liability>,
    marketDeck: DeckData<MarketCard>)

  // ------------------------------------------------------- expanding copies

  /** The number of cards a list of entries stands for. */
  function TotalCopies<E>(entries: seq<E>, copies: E -> nat): (n: nat)
  {
    if entries == [] then 0 else TotalCopies(entries[..|entries| - 1], copies) + copies(entries[|entries| - 1])
  }

  /**
   * The `flat_map` of the conversions: every entry in turn, repeated
   * `copies` times. The length is the sum of the copies.
   */
  function Expand<E, T>(entries: seq<E>, copies: E -> nat, make: E -> T): (r: seq<T>)
    ensures |r| == TotalCopies(entries, copies)
  {
    if entries == [] then []
    else
      var e := entries[|entries| - 1];
      Expand(entries[..|entries| - 1], copies, make) + seq(copies(e), _ => make(e))
  }

  /**
   * Expansion is in entry order: the cards of entry `j` are exactly the
   * `copies` positions after those of the entries before it.
   */
  lemma {:induction false} ExpandBlock<E, T>(entries: seq<E>, copies: E -> nat, make: E -> T, j: nat, k: nat)
    requires j < |entries| && k < copies(entries[j])
    ensures TotalCopies(entries[..j], copies) + k < |Expand(entries, copies, make)|
    ensures Expand(entries, copies, make)[TotalCopies(entries[..j], copies) + k] == make(entries[j])
    decreases |entries|
  {
    var n := |entries| - 1;
    var front := entries[..n];
    assert entries[..n + 1] == entries;
    if j < n {
      assert front[..j] == entries[..j];
      ExpandBlock(front, copies, make, j, k);
      TotalCopiesPrefix(entries, copies, j);
    } else {
      assert entries[..j] == front;
    }
  }

  /** The entries before `j` stand for no more cards than all of them. */
  lemma {:induction false} TotalCopiesPrefix<E>(entries: seq<E>, copies: E -> nat, j: nat)
    requires j < |entries|
    ensures TotalCopies(entries[..j], copies) + copies(entries[j]) <= TotalCopies(entries, copies)
    decreases |entries|
  {
    var n := |entries| - 1;
    if j < n {
      assert entries[..n][..j] == entries[..j];
      assert entries[..n][j] == entries[j];
      TotalCopiesPrefix(entries[..n], copies, j);
    } else {
      assert entries[..j] == entries[..n];
    }
  }

  /** Every card of the expansion is made from one of the entries. */
  lemma {:induction false} ExpandMember<E, T>(entries: seq<E>, copies: E -> nat, make: E -> T, k: nat) returns (j: nat)
    requires k < |Expand(entries, copies, make)|
    ensures j < |entries| && Expand(entries, copies, make)[k] == make(entries[j])
    decreases |entries|
  {
    var n := |entries| - 1;
    var front := Expand(entries[..n], copies, make);
    if k < |front| {
      j := ExpandMember(entries[..n], copies, make, k);
      assert entries[..n][j] == entries[j];
    } else {
      j := n;
    }
  }

  // ------------------------------------------------------ the three decks

  function AssetCopies(c: AssetEntry): nat { c.copies }
  function LiabilityCopies(c: LiabilityEntry): nat { c.copies }
  function MarketEventCopies(c: MarketEventEntry): nat { c.copies }

  /** One asset of an asset entry; the back image is the deck's. */
  function AssetOf(url: string): AssetEntry -> Asset
  {
    (c: AssetEntry) => Asset(c.title, c.goldValue, c.silverValue, c.color, c.ability, c.cardImageUrl, url)
  }

  /** One liability of a liability entry: its value is the entry's gold value. */
  function LiabilityOf(url: string): LiabilityEntry -> Liability
  {
    (c: LiabilityEntry) => Liability(c.goldValue, c.liabilityType, c.cardImageUrl, url)
  }

  /**
   * One card of a market-deck entry: a market status becomes a market with
   * the same rates and conditions, an event becomes an event that raises and
   * lowers nothing and makes nobody skip a turn.
   */
  function MarketCardOf(c: MarketEventEntry): MarketCard
  {
    match c.details
    case MarketStatus(rfr, mrp, yellow, blue, green, purple, red) =>
      Left(Market(c.title, rfr, mrp, yellow, blue, green, purple, red))
    case EventDetails(description, _) =>
      Right(Event(c.title, description, {}, {}, None))
  }

  /** `From<Deck<AssetCard>> for Deck<Asset>` */
  function AssetDeckFrom(list: CardList<AssetEntry>): (d: DeckData<Asset>)
  {
    var cards := Expand(list.cards, AssetCopies, AssetOf(list.imageBackUrl));
    DeckData(list.imageBackUrl, cards, cards)
  }

  /** `From<Deck<LiabilityCard>> for Deck<Liability>` */
  function LiabilityDeckFrom(list: CardList<LiabilityEntry>): (d: DeckData<Liability>)
  {
    var cards := Expand(list.cards, LiabilityCopies, LiabilityOf(list.imageBackUrl));
    DeckData(list.imageBackUrl, cards, cards)
  }

  /** `From<Deck<MarketEventCard>> for Deck<Either<Market, Event>>` */
  function MarketDeckFrom(list: CardList<MarketEventEntry>): (d: DeckData<MarketCard>)
  {
    var cards := Expand(list.cards, MarketEventCopies, MarketCardOf);
    DeckData(list.imageBackUrl, cards, cards)
  }

  /** `From<LoadedCards> for GameData`: each deck is converted on its own. */
  function GameDataFrom(decks: DeckList): (g: GameData)
  {
    GameData(AssetDeckFrom(decks.assetDeck), LiabilityDeckFrom(decks.liabilityDeck), MarketDeckFrom(decks.marketEventsDeck))
  }

  // ---------------------------------------------------------------- lemmas

  /**
   * The asset deck has one card per copy, in entry order, each with the
   * entry's values and the deck's back image; the backup equals the deck
   * and the back image is carried over.
   */
  lemma AssetDeckFromEntries(list: CardList<AssetEntry>, j: nat, k: nat)
    requires j < |list.cards| && k < list.cards[j].copies
    ensures var d := AssetDeckFrom(list); var c := list.cards[j];
      && |d.deck| == TotalCopies(list.cards, AssetCopies)
      && d.backup == d.deck && d.imageBackUrl == list.imageBackUrl
      && TotalCopies(list.cards[..j], AssetCopies) + k < |d.deck|
      && d.deck[TotalCopies(list.cards[..j], AssetCopies) + k]
         == Asset(c.title, c.goldValue, c.silverValue, c.color, c.ability, c.cardImageUrl, list.imageBackUrl)
  {
    ExpandBlock(list.cards, AssetCopies, AssetOf(list.imageBackUrl), j, k);
  }

  /** Every asset of the deck carries the deck's back image. */
  lemma AssetDeckBackImage(list: CardList<AssetEntry>, k: nat)
    requires k < |AssetDeckFrom(list).deck|
    ensures AssetDeckFrom(list).deck[k].imageBackUrl == list.imageBackUrl
  {
    var j := ExpandMember(list.cards, AssetCopies, AssetOf(list.imageBackUrl), k);
  }

  /**
   * The liability deck has one card per copy, in entry order; a liability's
   * value is the entry's gold value and its type the entry's type.
   */
  lemma LiabilityDeckFromEntries(list: CardList<LiabilityEntry>, j: nat, k: nat)
    requires j < |list.cards| && k < list.cards[j].copies
    ensures var d := LiabilityDeckFrom(list); var c := list.cards[j];
      && |d.deck| == TotalCopies(list.cards, LiabilityCopies)
      && d.backup == d.deck && d.imageBackUrl == list.imageBackUrl
      && TotalCopies(list.cards[..j], LiabilityCopies) + k < |d.deck|
      && d.deck[TotalCopies(list.cards[..j], LiabilityCopies) + k].value == c.goldValue
      && d.deck[TotalCopies(list.cards[..j], LiabilityCopies) + k].rfrType == c.liabilityType
  {
    ExpandBlock(list.cards, LiabilityCopies, LiabilityOf(list.imageBackUrl), j, k);
  }

  /**
   * The market deck has one card per copy, in entry order: a market for a
   * market-status entry and an event for an event entry.
   */
  lemma MarketDeckFromEntries(list: CardList<MarketEventEntry>, j: nat, k: nat)
    requires j < |list.cards| && k < list.cards[j].copies
    ensures var d := MarketDeckFrom(list);
      && |d.deck| == TotalCopies(list.cards, MarketEventCopies)
      && d.backup == d.deck && d.imageBackUrl == list.imageBackUrl
      && TotalCopies(list.cards[..j], MarketEventCopies) + k < |d.deck|
      && (d.deck[TotalCopies(list.cards[..j], MarketEventCopies) + k].Left? <==> list.cards[j].details.MarketStatus?)
  {
    ExpandBlock(list.cards, MarketEventCopies, MarketCardOf, j, k);
  }

  /** Every event of the market deck raises and lowers nothing and makes nobody skip a turn. */
  lemma MarketDeckEventsAreBlank(list: CardList<MarketEventEntry>, k: nat)
    requires k < |MarketDeckFrom(list).deck| && MarketDeckFrom(list).deck[k].Right?
    ensures var e := MarketDeckFrom(list).deck[k].right;
      e.plusGold == {} && e.minusGold == {} && e.skipTurn.None?
  {
    var j := ExpandMember(list.cards, MarketEventCopies, MarketCardOf, k);
  }
}
