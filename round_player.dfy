// `RoundPlayer` (game/src/player/round.rs): a player during a round. Each
// operation of the source is a function from the player's record (and its
// arguments) to the outcome, and a method of the class `RoundPlayer` that
// updates the fields in place and is proved to produce that outcome.
module RoundPlayers {
  import opened Wrappers
  import opened Vocabulary
  import opened Errors
  import opened MarketRules
  import opened PlayerRules
  import opened Sequences
  import opened Decks
  import opened PlayerRecords
  import opened SelectingPlayers

  /**
   * What holds of every round player: its buying table is its character's,
   * and the allowances never exceed what the character starts a turn with.
   */
  ghost predicate PlayerInv(p: RoundPlayerData)
  {
    && p.playableAssets == PlayableAssetsOf(p.character)
    && p.assetsToPlay <= p.playableAssets.total
    && p.liabilitiesToPlay <= PlayableLiabilities(p.character)
  }

  // ------------------------------------------------------------ conversions

  /**
   * `TryFrom<SelectingCharactersPlayer>`: a player without a character cannot
   * enter the round; otherwise the turn state starts afresh from the
   * character's tables.
   */
  function RoundFromSelecting(s: SelectingPlayerData): (r: Result<RoundPlayerData, GameError>)
    ensures r.Err? <==> s.character.None?
    ensures r.Err? ==> r.error == PlayerMissingCharacter
    ensures r.Ok? ==> var p := r.value;
      && PlayerInv(p)
      && p.character == s.character.value
      && p.id == s.id && p.name == s.name && p.cash == s.cash && p.isHuman == s.isHuman
      && p.assets == s.assets && p.liabilities == s.liabilities && p.hand == s.hand
      && p.assetsToPlay == PlayableAssetsOf(p.character).total
      && p.liabilitiesToPlay == PlayableLiabilities(p.character)
      && p.cardsDrawn == [] && p.totalCardsDrawn == 0 && p.bonusDrawCards == 0 && p.totalCardsGivenBack == 0
      && !p.hasUsedAbility && !p.hasGottenBonusCash && !p.wasFirstToSixAssets
  {
    match s.character
    case None => Err(PlayerMissingCharacter)
    case Some(character) =>
      var playable := PlayableAssetsOf(character);
      Ok(RoundPlayerData(s.id, s.name, s.cash, s.assets, s.liabilities, character, s.hand, [], 0,
                         playable.total, playable, PlayableLiabilities(character), 0, 0,
                         false, false, false, s.isHuman))
  }

  /**
   * Entering a round and going back to the draft returns the player as it
   * was, without its character.
   */
  lemma SelectingRoundTrip(s: SelectingPlayerData)
    requires s.character.Some?
    ensures SelectingFromRound(RoundFromSelecting(s).value) == s.(character := None)
  {
  }

  /** `PlayerInfo::from(&RoundPlayer)` */
  function RoundInfo(p: RoundPlayerData): (r: PlayerInfo)
    ensures r.hand == HandKinds(p.hand) && r.character == Some(p.character)
    ensures r.name == p.name && r.id == p.id && r.cash == p.cash
    ensures r.assets == p.assets && r.liabilities == p.liabilities
  {
    PlayerInfo(p.name, p.id, HandKinds(p.hand), p.assets, p.liabilities, p.cash, Some(p.character))
  }

  /** `From<&RoundPlayer> for BankerTargetPlayer`: the turn counters are dropped. */
  function BankerTargetFromRound(p: RoundPlayerData): (r: BankerTargetPlayerData)
    ensures r.id == p.id && r.name == p.name && r.cash == p.cash && r.character == p.character
    ensures r.assets == p.assets && r.liabilities == p.liabilities && r.hand == p.hand
    ensures r.liabilitiesToPlay == p.liabilitiesToPlay && r.wasFirstToSixAssets == p.wasFirstToSixAssets
  {
    BankerTargetPlayerData(p.id, p.name, p.cash, p.assets, p.liabilities, p.character, p.hand,
                           p.liabilitiesToPlay, p.wasFirstToSixAssets)
  }

  // ------------------------------------------------------- buying and issuing

  /** `update_cards_drawn`: forgets that a card at `cardIdx` was drawn this turn. */
  function UpdateCardsDrawn(cardsDrawn: seq<nat>, cardIdx: nat): (r: seq<nat>)
    ensures |r| <= |cardsDrawn|
    ensures forall i :: i in r <==> i in cardsDrawn && i != cardIdx
  {
    if cardsDrawn == [] then []
    else (if cardsDrawn[0] == cardIdx then [] else [cardsDrawn[0]]) + UpdateCardsDrawn(cardsDrawn[1..], cardIdx)
  }

  /** `can_play_asset`: enough of the turn's buying allowance is left for the colour. */
  predicate CanPlayAsset(p: RoundPlayerData, color: Color)
  {
    p.assetsToPlay >= ColorCost(p.playableAssets, color)
  }

  predicate CanAffordAsset(p: RoundPlayerData, a: Asset)
  {
    p.cash >= a.goldValue
  }

  predicate CanPlayLiability(p: RoundPlayerData)
  {
    p.liabilitiesToPlay > 0
  }

  /** Whether `play_card` accepts a card: an asset must be allowed and affordable, a liability allowed. */
  predicate Playable(p: RoundPlayerData, card: Card)
  {
    match card
    case Left(a) => CanPlayAsset(p, a.color) && CanAffordAsset(p, a)
    case Right(_) => CanPlayLiability(p)
  }

  /**
   * `play_card`: buys the asset or issues the liability at `cardIdx` of the
   * hand. A purchase costs its gold and the colour's share of the buying
   * allowance; an issue brings its value in cash and uses one liability.
   */
  function Played(p: RoundPlayerData, cardIdx: nat): (r: Result<(RoundPlayerData, Card), PlayCardError>)
    ensures r.Ok? <==> cardIdx < |p.hand| && Playable(p, p.hand[cardIdx])
    ensures cardIdx >= |p.hand| ==> r == Err(InvalidCardIndex(AsU8(cardIdx)))
    ensures cardIdx < |p.hand| && p.hand[cardIdx].Left? && !CanPlayAsset(p, p.hand[cardIdx].left.color) ==>
      r == Err(ExceedsMaximumAssets)
    ensures (cardIdx < |p.hand| && p.hand[cardIdx].Left? && CanPlayAsset(p, p.hand[cardIdx].left.color)
             && !CanAffordAsset(p, p.hand[cardIdx].left)) ==>
      r == Err(CannotAffordAsset(p.cash, p.hand[cardIdx].left.goldValue))
    ensures cardIdx < |p.hand| && p.hand[cardIdx].Right? && !CanPlayLiability(p) ==> r == Err(ExceedsMaximumLiabilities)
    ensures r.Ok? ==>
      r.value.1 == p.hand[cardIdx]
      && r.value.0.hand == RemoveAt(p.hand, cardIdx)
      && r.value.0.cardsDrawn == UpdateCardsDrawn(p.cardsDrawn, cardIdx)
    ensures r.Ok? && r.value.1.Left? ==> var q, a := r.value.0, r.value.1.left;
      && q.assets == p.assets + [a] && q.liabilities == p.liabilities
      && q.cash + a.goldValue == p.cash
      && q.assetsToPlay + ColorCost(p.playableAssets, a.color) == p.assetsToPlay
      && q.liabilitiesToPlay == p.liabilitiesToPlay
    ensures r.Ok? && r.value.1.Right? ==> var q, l := r.value.0, r.value.1.right;
      && q.liabilities == p.liabilities + [l] && q.assets == p.assets
      && q.cash == p.cash + l.value
      && q.liabilitiesToPlay + 1 == p.liabilitiesToPlay
      && q.assetsToPlay == p.assetsToPlay
    ensures r.Ok? ==> r.value.0.(hand := p.hand, cardsDrawn := p.cardsDrawn, cash := p.cash, assets := p.assets,
                                 liabilities := p.liabilities, assetsToPlay := p.assetsToPlay,
                                 liabilitiesToPlay := p.liabilitiesToPlay) == p
  {
    if cardIdx >= |p.hand| then Err(InvalidCardIndex(AsU8(cardIdx)))
    else
      var rest := RemoveAt(p.hand, cardIdx);
      var drawn := UpdateCardsDrawn(p.cardsDrawn, cardIdx);
      match p.hand[cardIdx]
      case Left(a) =>
        if CanPlayAsset(p, a.color) && CanAffordAsset(p, a) then
          Ok((p.(hand := rest, cash := p.cash - a.goldValue,
                 assetsToPlay := p.assetsToPlay - ColorCost(p.playableAssets, a.color),
                 assets := p.assets + [a], cardsDrawn := drawn), Left(a)))
        else if !CanPlayAsset(p, a.color) then Err(ExceedsMaximumAssets)
        else Err(CannotAffordAsset(p.cash, a.goldValue))
      case Right(l) =>
        if CanPlayLiability(p) then
          Ok((p.(hand := rest, cash := p.cash + l.value, liabilitiesToPlay := p.liabilitiesToPlay - 1,
                 liabilities := p.liabilities + [l], cardsDrawn := drawn), Right(l)))
        else Err(ExceedsMaximumLiabilities)
  }

  /**
   * Playing a card moves it from the hand to the holdings: no card is lost or
   * made, and the cash moves by exactly the card's value.
   */
  lemma PlayedMovesCard(p: RoundPlayerData, cardIdx: nat)
    requires Played(p, cardIdx).Ok?
    ensures var (q, card) := Played(p, cardIdx).value;
      && multiset(q.hand) + multiset{card} == multiset(p.hand)
      && |q.hand| + |q.assets| + |q.liabilities| == |p.hand| + |p.assets| + |p.liabilities|
      && (card.Left? ==> q.cash == p.cash - card.left.goldValue && q.assets[|q.assets| - 1] == card.left)
      && (card.Right? ==> q.cash == p.cash + card.right.value && q.liabilities[|q.liabilities| - 1] == card.right)
  {
    RemoveAtMultiset(p.hand, cardIdx);
  }

  // ---------------------------------------------------------------- drawing

  /** `can_draw_cards`: fewer cards drawn than the character's draws plus the bonus draws. */
  predicate CanDrawCards(p: RoundPlayerData)
  {
    p.totalCardsDrawn < DrawsNCards(p.character) + p.bonusDrawCards
  }

  /** `draw_card`: the card goes on the end of the hand and its position is recorded. */
  function WithCardDrawn(p: RoundPlayerData, card: Card): (r: RoundPlayerData)
    ensures r.hand == p.hand + [card] && r.hand[|p.hand|] == card
    ensures r.cardsDrawn == p.cardsDrawn + [|p.hand|]
    ensures r.totalCardsDrawn == p.totalCardsDrawn + 1
    ensures r.(hand := p.hand, cardsDrawn := p.cardsDrawn, totalCardsDrawn := p.totalCardsDrawn) == p
  {
    p.(totalCardsDrawn := p.totalCardsDrawn + 1, cardsDrawn := p.cardsDrawn + [|p.hand|], hand := p.hand + [card])
  }

  /**
   * `draw_asset` / `draw_liability` once the card is taken from its deck:
   * allowed only while the draw limit is not reached.
   */
  function Drew(p: RoundPlayerData, card: Card): (r: Result<RoundPlayerData, DrawCardError>)
    ensures r.Ok? <==> CanDrawCards(p)
    ensures r.Ok? ==> r.value == WithCardDrawn(p, card)
    ensures r.Err? ==> r.error == MaximumCardsDrawn(p.totalCardsDrawn)
  {
    if CanDrawCards(p) then Ok(WithCardDrawn(p, card)) else Err(MaximumCardsDrawn(p.totalCardsDrawn))
  }

  /** Drawing the cards of a list one after another, stopping at the first refusal. */
  function DrawAll(p: RoundPlayerData, cards: seq<Card>): (r: Result<RoundPlayerData, DrawCardError>)
    decreases |cards|
  {
    if cards == [] then Ok(p)
    else match Drew(p, cards[0])
      case Err(e) => Err(e)
      case Ok(q) => DrawAll(q, cards[1..])
  }

  /**
   * Without bonus draws a player draws at most the character's number of
   * cards in a turn (3, or 6 for the head of R&D); every accepted card is
   * appended to the hand and counted once.
   */
  lemma {:induction false} DrawLimit(p: RoundPlayerData, cards: seq<Card>)
    requires p.bonusDrawCards == 0
    requires p.totalCardsDrawn <= DrawsNCards(p.character)
    ensures DrawAll(p, cards).Ok? <==> p.totalCardsDrawn + |cards| <= DrawsNCards(p.character)
    ensures DrawAll(p, cards).Ok? ==>
      && DrawAll(p, cards).value.hand == p.hand + cards
      && DrawAll(p, cards).value.totalCardsDrawn == p.totalCardsDrawn + |cards|
    decreases |cards|
  {
    if cards != [] {
      if CanDrawCards(p) {
        var q := WithCardDrawn(p, cards[0]);
        DrawLimit(q, cards[1..]);
        assert p.hand + cards == q.hand + cards[1..];
      }
    }
  }

  // ------------------------------------------------------------- giving back

  /** `saturating_sub` */
  function SatSub(a: nat, b: nat): (r: nat)
    ensures r == if a >= b then a - b else 0
  {
    if a >= b then a - b else 0
  }

  /**
   * `should_give_back_cards`: one card is owed for every three drawn beyond
   * the bonus draws, and the player still owes one while fewer have been
   * given back.
   */
  function ShouldGiveBackCards(p: RoundPlayerData): (r: bool)
    ensures r <==> SatSub(p.totalCardsDrawn, p.bonusDrawCards) / 3 > p.totalCardsGivenBack
  {
    var owed := SatSub(p.totalCardsDrawn, p.bonusDrawCards) / 3;
    if owed >= p.totalCardsGivenBack then owed - p.totalCardsGivenBack > 0 else false
  }

  /** `gives_back_n_cards`: one card for every three the character draws. */
  function GivesBackNCards(p: RoundPlayerData): (r: nat)
    ensures r == (if p.character == HeadRnD then 2 else 1)
  {
    DrawsNCards(p.character) / 3
  }

  /**
   * After drawing its full allowance, without bonus draws, a player owes
   * exactly `gives_back_n_cards` cards: one for most characters and two for
   * the head of R&D.
   */
  lemma OwedAfterFullDraw(p: RoundPlayerData)
    requires p.bonusDrawCards == 0 && p.totalCardsDrawn == DrawsNCards(p.character)
    ensures ShouldGiveBackCards(p) <==> p.totalCardsGivenBack < GivesBackNCards(p)
  {
  }

  /**
   * `give_back_card`: while a card is owed, removes the card at `cardIdx`
   * from the hand and counts it as given back.
   */
  function GivenBack(p: RoundPlayerData, cardIdx: nat): (r: Result<(RoundPlayerData, Card), GiveBackCardError>)
    ensures r.Ok? <==> ShouldGiveBackCards(p) && cardIdx < |p.hand|
    ensures !ShouldGiveBackCards(p) ==> r == Err(Unnecessary)
    ensures ShouldGiveBackCards(p) && cardIdx >= |p.hand| ==> r == Err(GiveBackInvalidCardIndex(AsU8(cardIdx)))
    ensures r.Ok? ==>
      && r.value.1 == p.hand[cardIdx]
      && r.value.0.hand == RemoveAt(p.hand, cardIdx)
      && r.value.0.totalCardsGivenBack == p.totalCardsGivenBack + 1
      && r.value.0.cardsDrawn == UpdateCardsDrawn(p.cardsDrawn, cardIdx)
      && r.value.0.(hand := p.hand, totalCardsGivenBack := p.totalCardsGivenBack, cardsDrawn := p.cardsDrawn) == p
  {
    if ShouldGiveBackCards(p) then
      if cardIdx < |p.hand| then
        Ok((p.(totalCardsGivenBack := p.totalCardsGivenBack + 1,
               cardsDrawn := UpdateCardsDrawn(p.cardsDrawn, cardIdx),
               hand := RemoveAt(p.hand, cardIdx)), p.hand[cardIdx]))
      else Err(GiveBackInvalidCardIndex(AsU8(cardIdx)))
    else Err(Unnecessary)
  }

  /**
   * Giving back settles the debt one card at a time: a player who owes a
   * single card owes nothing after giving it back.
   */
  lemma {:induction false} GiveBackSettles(p: RoundPlayerData, cardIdx: nat)
    requires GivenBack(p, cardIdx).Ok?
    requires SatSub(p.totalCardsDrawn, p.bonusDrawCards) / 3 == p.totalCardsGivenBack + 1
    ensures !ShouldGiveBackCards(GivenBack(p, cardIdx).value.0)
    ensures GivenBack(GivenBack(p, cardIdx).value.0, 0) == Err(Unnecessary)
  {
    var q := GivenBack(p, cardIdx).value.0;
    assert q.totalCardsDrawn == p.totalCardsDrawn && q.bonusDrawCards == p.bonusDrawCards;
  }

  // ---------------------------------------------------------------- redeeming

  /**
   * `redeem_liability`: only the CFO, with a liability still allowed, may pay
   * back a liability it holds, and only with enough cash. The checks are
   * made in that order.
   */
  function Redeemed(p: RoundPlayerData, liabilityIdx: nat): (r: Result<(RoundPlayerData, Liability), RedeemLiabilityError>)
    ensures r.Ok? <==> (CanRedeemLiabilities(p.character) && CanPlayLiability(p)
                        && liabilityIdx < |p.liabilities| && p.liabilities[liabilityIdx].value <= p.cash)
    ensures !CanRedeemLiabilities(p.character) ==> r == Err(NotAllowedToRedeemLiability(p.character))
    ensures CanRedeemLiabilities(p.character) && !CanPlayLiability(p) ==> r == Err(RedeemExceedsMaximumLiabilities)
    ensures CanRedeemLiabilities(p.character) && CanPlayLiability(p) && liabilityIdx >= |p.liabilities| ==>
      r == Err(InvalidLiabilityIndex(AsU8(liabilityIdx)))
    ensures (CanRedeemLiabilities(p.character) && CanPlayLiability(p) && liabilityIdx < |p.liabilities|
             && p.liabilities[liabilityIdx].value > p.cash) ==>
      r == Err(NotEnoughCash(p.cash, p.liabilities[liabilityIdx].value))
    ensures r.Ok? ==> var (q, l) := r.value;
      && l == p.liabilities[liabilityIdx]
      && q.liabilities == RemoveAt(p.liabilities, liabilityIdx)
      && q.cash + l.value == p.cash
      && q.liabilitiesToPlay + 1 == p.liabilitiesToPlay
      && q.(liabilities := p.liabilities, cash := p.cash, liabilitiesToPlay := p.liabilitiesToPlay) == p
  {
    if !CanRedeemLiabilities(p.character) then Err(NotAllowedToRedeemLiability(p.character))
    else if !CanPlayLiability(p) then Err(RedeemExceedsMaximumLiabilities)
    else if liabilityIdx >= |p.liabilities| then Err(InvalidLiabilityIndex(AsU8(liabilityIdx)))
    else
      var l := p.liabilities[liabilityIdx];
      if l.value <= p.cash then
        Ok((p.(liabilitiesToPlay := p.liabilitiesToPlay - 1, cash := p.cash - l.value,
               liabilities := RemoveAt(p.liabilities, liabilityIdx)), l))
      else Err(NotEnoughCash(p.cash, l.value))
  }

  // ------------------------------------------------------ firing, terminating

  /**
   * `fire_character`: the shareholder, once per turn, names a character that
   * can be fired.
   */
  function Fired(p: RoundPlayerData, c: Character): (r: Result<(RoundPlayerData, Character), FireCharacterError>)
    ensures r.Ok? <==> p.character == Shareholder && !p.hasUsedAbility && CanBeFired(c)
    ensures p.character != Shareholder ==> r == Err(FireInvalidPlayerCharacter)
    ensures p.character == Shareholder && p.hasUsedAbility ==> r == Err(AlreadyFiredThisTurn)
    ensures p.character == Shareholder && !p.hasUsedAbility && !CanBeFired(c) ==> r == Err(FireInvalidCharacter)
    ensures r.Ok? ==> r.value == (p.(hasUsedAbility := true), c)
  {
    if p.character == Shareholder then
      if !p.hasUsedAbility then
        if CanBeFired(c) then Ok((p.(hasUsedAbility := true), c)) else Err(FireInvalidCharacter)
      else Err(AlreadyFiredThisTurn)
    else Err(FireInvalidPlayerCharacter)
  }

  /**
   * `terminate_credit`: the banker, once per turn, names a character that can
   * be fired (the same characters as for the shareholder).
   */
  function Terminated(p: RoundPlayerData, c: Character): (r: Result<(RoundPlayerData, Character), TerminateCreditCharacterError>)
    ensures r.Ok? <==> p.character == Banker && !p.hasUsedAbility && CanBeFired(c)
    ensures p.character != Banker ==> r == Err(TerminateInvalidPlayerCharacter)
    ensures p.character == Banker && p.hasUsedAbility ==> r == Err(TerminateAlreadyFiredThisTurn)
    ensures p.character == Banker && !p.hasUsedAbility && !CanBeFired(c) ==> r == Err(TerminateInvalidCharacter)
    ensures r.Ok? ==> r.value == (p.(hasUsedAbility := true), c)
  {
    if p.character == Banker then
      if !p.hasUsedAbility then
        if CanBeFired(c) then Ok((p.(hasUsedAbility := true), c)) else Err(TerminateInvalidCharacter)
      else Err(TerminateAlreadyFiredThisTurn)
    else Err(TerminateInvalidPlayerCharacter)
  }

  /** The shareholder fires and the banker terminates at most once per turn. */
  lemma AbilityOncePerTurn(p: RoundPlayerData, c: Character, d: Character)
    ensures Fired(p, c).Ok? ==> Fired(Fired(p, c).value.0, d) == Err(AlreadyFiredThisTurn)
    ensures Terminated(p, c).Ok? ==> Terminated(Terminated(p, c).value.0, d) == Err(TerminateAlreadyFiredThisTurn)
  {
  }

  // ------------------------------------------------------- swapping with the deck

  /**
   * The check `swap_with_deck` makes, as written: after sorting, the last
   * (largest) index may be up to and including the hand's length.
   */
  predicate SwapIdxsAcceptedAsWritten(hand: seq<Card>, cardIdxs: seq<nat>)
  {
    (forall k :: k in cardIdxs ==> k <= |hand|) && AllUnique(cardIdxs)
  }

  /** The check as intended: every index names a card of the hand. */
  predicate SwapIdxsValid(hand: seq<Card>, cardIdxs: seq<nat>)
  {
    (forall k :: k in cardIdxs ==> k < |hand|) && AllUnique(cardIdxs)
  }

  /**
   * What `swap_with_deck` demands of its caller: once the regulator's checks
   * pass, an index equal to the hand's length makes `Vec::remove` panic, so
   * no such index may be asked for.
   */
  predicate SwapDoesNotPanic(p: RoundPlayerData, cardIdxs: seq<nat>)
  {
    !(cardIdxs != [] && p.character == Regulator && !p.hasUsedAbility
      && SwapIdxsAcceptedAsWritten(p.hand, cardIdxs) && |p.hand| in cardIdxs)
  }

  /** Where no panic arises, the bound test as written accepts exactly the valid indices. */
  lemma SwapChecksAgree(p: RoundPlayerData, cardIdxs: seq<nat>)
    requires SwapDoesNotPanic(p, cardIdxs)
    requires cardIdxs != [] && p.character == Regulator && !p.hasUsedAbility
    ensures SwapIdxsAcceptedAsWritten(p.hand, cardIdxs) <==> SwapIdxsValid(p.hand, cardIdxs)
  {
  }

  /**
   * The bound test as written lets the index equal to the hand's length through,
   * although there is no card there: the removal that follows panics. The
   * intended check rejects it.
   */
  lemma SwapBoundOffByOne(hand: seq<Card>)
    ensures SwapIdxsAcceptedAsWritten(hand, [|hand|])
    ensures !SwapIdxsValid(hand, [|hand|])
  {
    var idxs: seq<nat> := [|hand|];
    assert forall k :: k in idxs ==> k == |hand|;
    assert idxs[0] in idxs;
  }

  /** The chosen assets at positions `j..`, in hand order. */
  function TakenAssetsFrom(h: seq<Card>, chosen: set<nat>, j: nat): (r: seq<Asset>)
    decreases |h| - j
  {
    if j >= |h| then [] else (if j in chosen && h[j].Left? then [h[j].left] else []) + TakenAssetsFrom(h, chosen, j + 1)
  }

  /** The chosen liabilities at positions `j..`, in hand order. */
  function TakenLiabilitiesFrom(h: seq<Card>, chosen: set<nat>, j: nat): (r: seq<Liability>)
    decreases |h| - j
  {
    if j >= |h| then [] else (if j in chosen && h[j].Right? then [h[j].right] else []) + TakenLiabilitiesFrom(h, chosen, j + 1)
  }

  /** Positions from `a` to `b` that are not chosen add nothing taken. */
  lemma {:induction false} UnchosenStretch(h: seq<Card>, chosen: set<nat>, a: nat, b: nat)
    requires a <= b <= |h|
    requires forall k :: a <= k < b ==> k !in chosen
    ensures TakenAssetsFrom(h, chosen, a) == TakenAssetsFrom(h, chosen, b)
    ensures TakenLiabilitiesFrom(h, chosen, a) == TakenLiabilitiesFrom(h, chosen, b)
    decreases b - a
  {
    if a < b {
      UnchosenStretch(h, chosen, a + 1, b);
    }
  }

  /** The cards taken from positions `j..` are exactly the chosen ones. */
  lemma {:induction false} TakenCount(h: seq<Card>, chosen: set<nat>, j: nat)
    requires j <= |h|
    ensures |TakenAssetsFrom(h, chosen, j)| + |TakenLiabilitiesFrom(h, chosen, j)| == |GoneFrom(h, chosen, j)|
    decreases |h| - j
  {
    if j < |h| {
      TakenCount(h, chosen, j + 1);
      if j in chosen {
        assert GoneFrom(h, chosen, j) == GoneFrom(h, chosen, j + 1) + {j};
      } else {
        assert GoneFrom(h, chosen, j) == GoneFrom(h, chosen, j + 1);
      }
    } else {
      assert GoneFrom(h, chosen, j) == {};
    }
  }

  /**
   * One step of `swap_with_deck`'s loop: when `j` is the highest chosen
   * position below `t`, the card there is the next one to go under its deck.
   */
  lemma SwapStep(h: seq<Card>, chosen: set<nat>, j: nat, t: nat)
    requires j < t <= |h| && j in chosen
    requires forall k :: j < k < t ==> k !in chosen
    ensures (h[..t] + Without(h, chosen, t))[j] == h[j]
    ensures RemoveAt(h[..t] + Without(h, chosen, t), j) == h[..j] + Without(h, chosen, j)
    ensures TakenAssetsFrom(h, chosen, j) == (if h[j].Left? then [h[j].left] else []) + TakenAssetsFrom(h, chosen, t)
    ensures TakenLiabilitiesFrom(h, chosen, j) == (if h[j].Right? then [h[j].right] else []) + TakenLiabilitiesFrom(h, chosen, t)
  {
    WithoutStep(h, chosen, j, t);
    UnchosenStretch(h, chosen, j + 1, t);
  }

  /**
   * The same step seen from the decks: putting the card at `j` under decks
   * that hold the cards taken from `t..` leaves decks holding those taken
   * from `j..`.
   */
  lemma PutBackStep(h: seq<Card>, chosen: set<nat>, j: nat, t: nat, a0: seq<Asset>, l0: seq<Liability>)
    requires j < t <= |h| && j in chosen
    requires forall k :: j < k < t ==> k !in chosen
    ensures (if h[j].Left? then [h[j].left] else []) + (TakenAssetsFrom(h, chosen, t) + a0) == TakenAssetsFrom(h, chosen, j) + a0
    ensures (if h[j].Right? then [h[j].right] else []) + (TakenLiabilitiesFrom(h, chosen, t) + l0) == TakenLiabilitiesFrom(h, chosen, j) + l0
    ensures |TakenAssetsFrom(h, chosen, j)| == |TakenAssetsFrom(h, chosen, t)| + (if h[j].Left? then 1 else 0)
    ensures |TakenLiabilitiesFrom(h, chosen, j)| == |TakenLiabilitiesFrom(h, chosen, t)| + (if h[j].Right? then 1 else 0)
  {
    SwapStep(h, chosen, j, t);
  }

  /**
   * `swap_with_deck`: the regulator, once per turn, puts the chosen cards
   * of its hand back under the matching decks and may draw that many extra
   * cards. The result holds the player, the assets and the liabilities put
   * back, each in hand order, which is the order they end up in at the
   * bottom of their deck. An empty choice changes nothing. The bounds check
   * is the one written, with the index it lets through wrongly excluded by
   * `SwapDoesNotPanic`.
   */
  function SwappedWithDeck(p: RoundPlayerData, cardIdxs: seq<nat>): (r: Result<(RoundPlayerData, seq<Asset>, seq<Liability>), SwapError>)
    requires SwapDoesNotPanic(p, cardIdxs)
    ensures cardIdxs == [] ==> r == Ok((p, [], []))
    ensures r.Ok? <==> cardIdxs == [] || (p.character == Regulator && !p.hasUsedAbility && SwapIdxsValid(p.hand, cardIdxs))
    ensures cardIdxs != [] && (p.character != Regulator || p.hasUsedAbility) ==> r == Err(AlreadySwapedThisTurn)
    ensures cardIdxs != [] && p.character == Regulator && !p.hasUsedAbility && !SwapIdxsValid(p.hand, cardIdxs) ==>
      r == Err(InvalidCardIdxs)
    ensures r.Ok? && cardIdxs != [] ==> var (q, assets, liabilities) := r.value;
      && q.hand == Without(p.hand, Elems(cardIdxs), 0)
      && assets == TakenAssetsFrom(p.hand, Elems(cardIdxs), 0)
      && liabilities == TakenLiabilitiesFrom(p.hand, Elems(cardIdxs), 0)
      && |assets| + |liabilities| == |cardIdxs|
      && |q.hand| == |p.hand| - |cardIdxs|
      && q.bonusDrawCards == p.bonusDrawCards + |cardIdxs|
      && q.hasUsedAbility
      && q.(hand := p.hand, bonusDrawCards := p.bonusDrawCards, hasUsedAbility := p.hasUsedAbility) == p
  {
    if cardIdxs == [] then Ok((p, [], []))
    else if p.character != Regulator || p.hasUsedAbility then Err(AlreadySwapedThisTurn)
    else if !SwapIdxsAcceptedAsWritten(p.hand, cardIdxs) then Err(InvalidCardIdxs)
    else
      var chosen := Elems(cardIdxs);
      WithoutLength(p.hand, chosen, 0);
      TakenCount(p.hand, chosen, 0);
      UniqueCardinality(cardIdxs);
      assert GoneFrom(p.hand, chosen, 0) == chosen;
      Ok((p.(hand := Without(p.hand, chosen, 0), hasUsedAbility := true,
             bonusDrawCards := p.bonusDrawCards + |cardIdxs|),
          TakenAssetsFrom(p.hand, chosen, 0), TakenLiabilitiesFrom(p.hand, chosen, 0)))
  }

  /** Assets as hand cards, in order. */
  function AssetCards(a: seq<Asset>): (r: seq<Card>)
    ensures |r| == |a|
  {
    if a == [] then [] else [Left(a[0])] + AssetCards(a[1..])
  }

  /** Liabilities as hand cards, in order. */
  function LiabilityCards(l: seq<Liability>): (r: seq<Card>)
    ensures |r| == |l|
  {
    if l == [] then [] else [Right(l[0])] + LiabilityCards(l[1..])
  }

  /** The cards at positions `j..` that the removal loop keeps, and those it sends to the decks, as one multiset. */
  ghost function KeptAndTaken(h: seq<Card>, chosen: set<nat>, j: nat): multiset<Card>
  {
    multiset(Without(h, chosen, j)) + multiset(AssetCards(TakenAssetsFrom(h, chosen, j)))
      + multiset(LiabilityCards(TakenLiabilitiesFrom(h, chosen, j)))
  }

  /** One position more: the card at `j` is either kept or taken, so it joins the multiset once. */
  lemma KeptAndTakenStep(h: seq<Card>, chosen: set<nat>, j: nat)
    requires j < |h|
    ensures KeptAndTaken(h, chosen, j) == KeptAndTaken(h, chosen, j + 1) + multiset{h[j]}
  {
    var mw := multiset(Without(h, chosen, j + 1));
    var ma := multiset(AssetCards(TakenAssetsFrom(h, chosen, j + 1)));
    var ml := multiset(LiabilityCards(TakenLiabilitiesFrom(h, chosen, j + 1)));
    var x := multiset{h[j]};
    assert KeptAndTaken(h, chosen, j + 1) == mw + ma + ml;
    UnionAddsToPart(mw, ma, ml, x);
    if j !in chosen {
      KeptStep(h, chosen, j);
      assert KeptAndTaken(h, chosen, j) == (mw + x) + ma + ml;
    } else if h[j].Left? {
      TakenAssetStep(h, chosen, j);
      assert KeptAndTaken(h, chosen, j) == mw + (ma + x) + ml;
    } else {
      TakenLiabilityStep(h, chosen, j);
      assert KeptAndTaken(h, chosen, j) == mw + ma + (ml + x);
    }
  }

  /** A position not chosen keeps its card and takes nothing. */
  lemma KeptStep(h: seq<Card>, chosen: set<nat>, j: nat)
    requires j < |h| && j !in chosen
    ensures multiset(Without(h, chosen, j)) == multiset(Without(h, chosen, j + 1)) + multiset{h[j]}
    ensures TakenAssetsFrom(h, chosen, j) == TakenAssetsFrom(h, chosen, j + 1)
    ensures TakenLiabilitiesFrom(h, chosen, j) == TakenLiabilitiesFrom(h, chosen, j + 1)
  {
    assert Without(h, chosen, j) == [h[j]] + Without(h, chosen, j + 1);
  }

  /** A chosen asset goes to the asset deck and leaves the rest as it was. */
  lemma TakenAssetStep(h: seq<Card>, chosen: set<nat>, j: nat)
    requires j < |h| && j in chosen && h[j].Left?
    ensures Without(h, chosen, j) == Without(h, chosen, j + 1)
    ensures multiset(AssetCards(TakenAssetsFrom(h, chosen, j))) == multiset(AssetCards(TakenAssetsFrom(h, chosen, j + 1))) + multiset{h[j]}
    ensures TakenLiabilitiesFrom(h, chosen, j) == TakenLiabilitiesFrom(h, chosen, j + 1)
  {
    var a := TakenAssetsFrom(h, chosen, j + 1);
    assert TakenAssetsFrom(h, chosen, j) == [h[j].left] + a;
    assert ([h[j].left] + a)[1..] == a;
    assert AssetCards([h[j].left] + a) == [h[j]] + AssetCards(a);
  }

  /** A chosen liability goes to the liability deck and leaves the rest as it was. */
  lemma TakenLiabilityStep(h: seq<Card>, chosen: set<nat>, j: nat)
    requires j < |h| && j in chosen && h[j].Right?
    ensures Without(h, chosen, j) == Without(h, chosen, j + 1)
    ensures TakenAssetsFrom(h, chosen, j) == TakenAssetsFrom(h, chosen, j + 1)
    ensures multiset(LiabilityCards(TakenLiabilitiesFrom(h, chosen, j))) == multiset(LiabilityCards(TakenLiabilitiesFrom(h, chosen, j + 1))) + multiset{h[j]}
  {
    var l := TakenLiabilitiesFrom(h, chosen, j + 1);
    assert TakenLiabilitiesFrom(h, chosen, j) == [h[j].right] + l;
    assert ([h[j].right] + l)[1..] == l;
    assert LiabilityCards([h[j].right] + l) == [h[j]] + LiabilityCards(l);
  }

  /** From position `j` on, the cards kept and the cards taken are together the cards that were there. */
  lemma {:induction false} TakenAndKeptFrom(h: seq<Card>, chosen: set<nat>, j: nat)
    requires j <= |h|
    ensures KeptAndTaken(h, chosen, j) == multiset(h[j..])
    decreases |h| - j
  {
    if j < |h| {
      TakenAndKeptFrom(h, chosen, j + 1);
      KeptAndTakenStep(h, chosen, j);
      SuffixMultiset(h, j);
    }
  }

  /**
   * A swap with the deck loses no card and makes none up: the hand kept
   * and the cards put back under the two decks are a permutation of the
   * hand before.
   */
  lemma SwapKeepsCards(p: RoundPlayerData, cardIdxs: seq<nat>)
    requires SwapDoesNotPanic(p, cardIdxs) && SwappedWithDeck(p, cardIdxs).Ok?
    ensures var (q, assets, liabilities) := SwappedWithDeck(p, cardIdxs).value;
      multiset(q.hand) + multiset(AssetCards(assets)) + multiset(LiabilityCards(liabilities)) == multiset(p.hand)
  {
    if cardIdxs != [] {
      TakenAndKeptFrom(p.hand, Elems(cardIdxs), 0);
      assert p.hand[0..] == p.hand;
      assert KeptAndTaken(p.hand, Elems(cardIdxs), 0) == multiset(p.hand);
    }
  }

  /** `regulator_swap_with_player`: the regulator, once per turn, exchanges hands with the target. */
  function RegulatorSwapped(p: RoundPlayerData, target: RoundPlayerData): (r: Result<(RoundPlayerData, RoundPlayerData), SwapError>)
    ensures r.Ok? <==> p.character == Regulator && !p.hasUsedAbility
    ensures r.Err? ==> r.error == AlreadySwapedThisTurn
    ensures r.Ok? ==> r.value.0.hand == target.hand && r.value.1.hand == p.hand
    ensures r.Ok? ==> r.value.0 == p.(hand := target.hand, hasUsedAbility := true) && r.value.1 == target.(hand := p.hand)
  {
    if p.character == Regulator && !p.hasUsedAbility
    then Ok((p.(hasUsedAbility := true, hand := target.hand), target.(hand := p.hand)))
    else Err(AlreadySwapedThisTurn)
  }

  /** Swapping twice in one turn is refused, so the hands cannot be swapped back. */
  lemma RegulatorSwapOnce(p: RoundPlayerData, target: RoundPlayerData, other: RoundPlayerData)
    requires RegulatorSwapped(p, target).Ok?
    ensures RegulatorSwapped(RegulatorSwapped(p, target).value.0, other) == Err(AlreadySwapedThisTurn)
    ensures SwappedWithDeck(RegulatorSwapped(p, target).value.0, [0]) == Err(AlreadySwapedThisTurn)
  {
  }

  // ---------------------------------------------------------------- divesting

  /** `remove_asset` */
  function RemovedAsset(p: RoundPlayerData, assetIdx: nat): (r: Result<(RoundPlayerData, Asset), DivestAssetError>)
    ensures r.Ok? <==> assetIdx < |p.assets|
    ensures r.Err? ==> r.error == InvalidCardIdx
    ensures r.Ok? ==> r.value == (p.(assets := RemoveAt(p.assets, assetIdx)), p.assets[assetIdx])
  {
    if assetIdx < |p.assets| then Ok((p.(assets := RemoveAt(p.assets, assetIdx)), p.assets[assetIdx]))
    else Err(InvalidCardIdx)
  }

  /**
   * `divest_asset`: the stakeholder, once per turn, pays the divest cost of a
   * non-red, non-green asset of a target that can be forced to divest. The
   * checks are made in that order. Only the stakeholder changes here; the
   * asset is removed from the target by `remove_asset`.
   */
  function Divested(p: RoundPlayerData, target: RoundPlayerData, assetIdx: nat, market: Market): (r: Result<(RoundPlayerData, nat), DivestAssetError>)
    ensures r.Ok? <==> (p.character == Stakeholder && !p.hasUsedAbility && CanBeForcedToDivest(target.character)
                        && assetIdx < |target.assets| && target.assets[assetIdx].color !in {Red, Green}
                        && DivestCost(target.assets[assetIdx], market) <= p.cash)
    ensures p.character != Stakeholder ==> r == Err(DivestInvalidPlayerCharacter)
    ensures p.character == Stakeholder && p.hasUsedAbility ==> r == Err(AlreadyDivestedThisTurn)
    ensures p.character == Stakeholder && !p.hasUsedAbility && !CanBeForcedToDivest(target.character) ==>
      r == Err(DivestInvalidCharacter)
    ensures (p.character == Stakeholder && !p.hasUsedAbility && CanBeForcedToDivest(target.character)
             && assetIdx >= |target.assets|) ==> r == Err(InvalidCardIdx)
    ensures r.Ok? ==> var cost := DivestCost(target.assets[assetIdx], market);
      r.value == (p.(hasUsedAbility := true, cash := p.cash - cost), cost)
  {
    if p.character != Stakeholder then Err(DivestInvalidPlayerCharacter)
    else if p.hasUsedAbility then Err(AlreadyDivestedThisTurn)
    else if !CanBeForcedToDivest(target.character) then Err(DivestInvalidCharacter)
    else if assetIdx >= |target.assets| then Err(InvalidCardIdx)
    else
      var asset := target.assets[assetIdx];
      if asset.color != Red && asset.color != Green then
        var cost := DivestCost(asset, market);
        if cost <= p.cash then Ok((p.(hasUsedAbility := true, cash := p.cash - cost), cost))
        else Err(DivestNotEnoughCash)
      else Err(CantDivestAssetType)
  }

  // ---------------------------------------------------------------- cash

  /** How many of the assets have the given colour. */
  function CountOfColor(assets: seq<Asset>, color: Color): (n: nat)
    ensures n <= |assets|
    ensures n == 0 <==> forall i :: 0 <= i < |assets| ==> assets[i].color != color
  {
    if assets == [] then 0
    else (if assets[0].color == color then 1 else 0) + CountOfColor(assets[1..], color)
  }

  /** `asset_bonus`: the number of owned assets of the character's colour; 0 for colourless characters. */
  function AssetBonus(p: RoundPlayerData): (r: nat)
    ensures r <= |p.assets|
    ensures ColorOf(p.character).None? ==> r == 0
    ensures ColorOf(p.character).Some? ==> r == CountOfColor(p.assets, ColorOf(p.character).value)
  {
    match ColorOf(p.character)
    case Some(color) => CountOfColor(p.assets, color)
    case None => 0
  }

  /** `market_condition_bonus`: +1, 0 or -1 for the condition of the character's colour; 0 if colourless. */
  function MarketConditionBonus(p: RoundPlayerData, market: Market): (r: int)
    ensures -1 <= r <= 1
    ensures ColorOf(p.character).None? ==> r == 0
    ensures ColorOf(p.character).Some? ==> r == Rank(ColorCondition(market, ColorOf(p.character).value))
  {
    match ColorOf(p.character)
    case Some(color) =>
      (match ColorCondition(market, color)
       case Plus => 1
       case Zero => 0
       case Minus => -1)
    case None => 0
  }

  /** `turn_start_cash` */
  function TurnStartCash(p: RoundPlayerData): (r: nat)
    ensures r == 1
  {
    1
  }

  /** `turn_cash`: every character gets the same cash at the start of a turn. */
  function TurnCash(p: RoundPlayerData): (r: nat)
    ensures r == TurnStartCash(p) && r == 1
  {
    TurnStartCash(p)
  }

  /** `start_turn`: only the cash changes, by `turn_cash`. Nothing stops it being applied twice. */
  function TurnStarted(p: RoundPlayerData): (r: RoundPlayerData)
    ensures r.cash == p.cash + 1
    ensures r.(cash := p.cash) == p
  {
    p.(cash := p.cash + TurnCash(p))
  }

  /**
   * `get_bonus_cash_character`: once per turn a coloured character collects
   * one coin per asset of its colour plus the market bonus for that colour,
   * or nothing when that sum is negative. The flag is set either way.
   */
  function GotBonusCash(p: RoundPlayerData, market: Market): (r: Result<(RoundPlayerData, nat), GetBonusCashError>)
    ensures r.Ok? <==> !p.hasGottenBonusCash && ColorOf(p.character).Some?
    ensures p.hasGottenBonusCash ==> r == Err(AlreadyGottenBonusCashThisTurn)
    ensures !p.hasGottenBonusCash && ColorOf(p.character).None? ==> r == Err(BonusInvalidCharacter)
    ensures r.Ok? ==> var bonus := AssetBonus(p) + MarketConditionBonus(p, market);
      && r.value.1 == (if bonus < 0 then 0 else bonus)
      && r.value.0 == p.(hasGottenBonusCash := true, cash := p.cash + r.value.1)
  {
    if p.hasGottenBonusCash then Err(AlreadyGottenBonusCashThisTurn)
    else if ColorOf(p.character).None? then Err(BonusInvalidCharacter)
    else
      var bonus := AssetBonus(p) + MarketConditionBonus(p, market);
      if bonus < 0 then Ok((p.(hasGottenBonusCash := true), 0))
      else Ok((p.(hasGottenBonusCash := true, cash := p.cash + bonus), bonus))
  }

  /**
   * The bonus is one per asset of the colour, moved one up by a Plus and one
   * down by a Minus market; it is 0 only with no such asset under Zero or
   * Minus, or one such asset under Minus. A second call in the turn fails.
   */
  lemma BonusCashAmount(p: RoundPlayerData, market: Market)
    requires GotBonusCash(p, market).Ok?
    ensures var n := CountOfColor(p.assets, ColorOf(p.character).value);
      var cond := ColorCondition(market, ColorOf(p.character).value);
      && (cond == Plus ==> GotBonusCash(p, market).value.1 == n + 1)
      && (cond == Zero ==> GotBonusCash(p, market).value.1 == n)
      && (cond == Minus ==> GotBonusCash(p, market).value.1 == SatSub(n, 1))
    ensures GotBonusCash(GotBonusCash(p, market).value.0, market) == Err(AlreadyGottenBonusCashThisTurn)
  {
  }

  // ---------------------------------------------------------------- invariant

  /** Buying, issuing, drawing, giving back and redeeming keep the player invariant. */
  lemma CardOperationsKeepPlayerInv(p: RoundPlayerData, idx: nat, card: Card)
    requires PlayerInv(p)
    ensures Played(p, idx).Ok? ==> PlayerInv(Played(p, idx).value.0)
    ensures Drew(p, card).Ok? ==> PlayerInv(Drew(p, card).value)
    ensures GivenBack(p, idx).Ok? ==> PlayerInv(GivenBack(p, idx).value.0)
    ensures Redeemed(p, idx).Ok? ==> PlayerInv(Redeemed(p, idx).value.0)
  {
  }

  /** The character abilities keep the player invariant. */
  lemma AbilitiesKeepPlayerInv(p: RoundPlayerData, c: Character, idxs: seq<nat>, target: RoundPlayerData, idx: nat, market: Market)
    requires PlayerInv(p)
    ensures Fired(p, c).Ok? ==> PlayerInv(Fired(p, c).value.0)
    ensures Terminated(p, c).Ok? ==> PlayerInv(Terminated(p, c).value.0)
    ensures SwapDoesNotPanic(p, idxs) && SwappedWithDeck(p, idxs).Ok? ==> PlayerInv(SwappedWithDeck(p, idxs).value.0)
    ensures RegulatorSwapped(p, target).Ok? ==> PlayerInv(RegulatorSwapped(p, target).value.0)
    ensures Divested(p, target, idx, market).Ok? ==> PlayerInv(Divested(p, target, idx, market).value.0)
  {
  }

  /** Losing an asset, collecting bonus cash and starting a turn keep the player invariant. */
  lemma CashOperationsKeepPlayerInv(p: RoundPlayerData, idx: nat, market: Market)
    requires PlayerInv(p)
    ensures RemovedAsset(p, idx).Ok? ==> PlayerInv(RemovedAsset(p, idx).value.0)
    ensures GotBonusCash(p, market).Ok? ==> PlayerInv(GotBonusCash(p, market).value.0)
    ensures PlayerInv(TurnStarted(p))
  {
  }

  // ---------------------------------------------------------------- the class

  /**
   * How a method of `RoundPlayer` realises an operation: on success it
   * returns the result's second part and the player becomes its first; on
   * failure it returns the same error and the player is unchanged.
   */
  predicate Applied<T(==), E(==)>(outcome: Result<(RoundPlayerData, T), E>, r: Result<T, E>, before: RoundPlayerData, after: RoundPlayerData)
  {
    match outcome
    case Ok((q, t)) => r == Ok(t) && after == q
    case Err(e) => r == Err(e) && after == before
  }

  class RoundPlayer {
    const id: PlayerId
    const name: string
    var cash: nat
    var assets: seq<Asset>
    var liabilities: seq<Liability>
    const character: Character
    var hand: seq<Card>
    var cardsDrawn: seq<nat>
    var bonusDrawCards: nat
    var assetsToPlay: nat
    const playableAssets: PlayableAssets
    var liabilitiesToPlay: nat
    var totalCardsDrawn: nat
    var totalCardsGivenBack: nat
    var hasUsedAbility: bool
    var hasGottenBonusCash: bool
    var wasFirstToSixAssets: bool
    var isHuman: bool

    constructor FromData(d: RoundPlayerData)
      ensures Data() == d
    {
      id, name, cash, assets, liabilities, character, hand := d.id, d.name, d.cash, d.assets, d.liabilities, d.character, d.hand;
      cardsDrawn, bonusDrawCards, assetsToPlay, playableAssets := d.cardsDrawn, d.bonusDrawCards, d.assetsToPlay, d.playableAssets;
      liabilitiesToPlay, totalCardsDrawn, totalCardsGivenBack := d.liabilitiesToPlay, d.totalCardsDrawn, d.totalCardsGivenBack;
      hasUsedAbility, hasGottenBonusCash, wasFirstToSixAssets, isHuman := d.hasUsedAbility, d.hasGottenBonusCash, d.wasFirstToSixAssets, d.isHuman;
    }

    function Data(): RoundPlayerData
      reads this
    {
      RoundPlayerData(id, name, cash, assets, liabilities, character, hand, cardsDrawn, bonusDrawCards,
                      assetsToPlay, playableAssets, liabilitiesToPlay, totalCardsDrawn, totalCardsGivenBack,
                      hasUsedAbility, hasGottenBonusCash, wasFirstToSixAssets, isHuman)
    }

    /** `enable_first_to_six_assets_bonus` */
    method EnableFirstToSixAssetsBonus()
      modifies this
      ensures Data() == old(Data()).(wasFirstToSixAssets := true)
    {
      wasFirstToSixAssets := true;
    }

    /** `set_is_human` */
    method SetIsHuman(human: bool)
      modifies this
      ensures Data() == old(Data()).(isHuman := human)
    {
      isHuman := human;
    }

    /** `play_card`; on failure nothing changes. */
    method PlayCard(cardIdx: nat) returns (r: Result<Card, PlayCardError>)
      modifies this
      ensures Applied(Played(old(Data()), cardIdx), r, old(Data()), Data())
    {
      var q;
      q, r := PlayOn(Data(), cardIdx);
      hand, cash, assets, liabilities, assetsToPlay, liabilitiesToPlay, cardsDrawn :=
        q.hand, q.cash, q.assets, q.liabilities, q.assetsToPlay, q.liabilitiesToPlay, q.cardsDrawn;
    }

    /** `play_card` on a copy of the player. */
    static method PlayOn(d: RoundPlayerData, cardIdx: nat) returns (q: RoundPlayerData, r: Result<Card, PlayCardError>)
      ensures Applied(Played(d, cardIdx), r, d, q)
      ensures q == d.(hand := q.hand, cash := q.cash, assets := q.assets, liabilities := q.liabilities,
                      assetsToPlay := q.assetsToPlay, liabilitiesToPlay := q.liabilitiesToPlay, cardsDrawn := q.cardsDrawn)
    {
      q := d;
      if cardIdx >= |d.hand| {
        return q, Err(InvalidCardIndex(AsU8(cardIdx)));
      }
      match d.hand[cardIdx] {
        case Left(a) =>
          if CanPlayAsset(d, a.color) && CanAffordAsset(d, a) {
            q := d.(hand := RemoveAt(d.hand, cardIdx), cash := d.cash - a.goldValue,
                    assetsToPlay := d.assetsToPlay - ColorCost(d.playableAssets, a.color),
                    assets := d.assets + [a], cardsDrawn := UpdateCardsDrawn(d.cardsDrawn, cardIdx));
            r := Ok(Left(a));
          } else if !CanPlayAsset(d, a.color) {
            r := Err(ExceedsMaximumAssets);
          } else {
            r := Err(CannotAffordAsset(d.cash, a.goldValue));
          }
        case Right(l) =>
          if CanPlayLiability(d) {
            q := d.(hand := RemoveAt(d.hand, cardIdx), cash := d.cash + l.value,
                    liabilitiesToPlay := d.liabilitiesToPlay - 1,
                    liabilities := d.liabilities + [l], cardsDrawn := UpdateCardsDrawn(d.cardsDrawn, cardIdx));
            r := Ok(Right(l));
          } else {
            r := Err(ExceedsMaximumLiabilities);
          }
      }
    }

    /** `draw_card` */
    method DrawCard(card: Card)
      modifies this
      ensures Data() == WithCardDrawn(old(Data()), card)
    {
      totalCardsDrawn := totalCardsDrawn + 1;
      cardsDrawn := cardsDrawn + [|hand|];
      hand := hand + [card];
    }

    /** `draw_asset`: takes the top of the asset deck, if the player may still draw. */
    method DrawAsset(deck: Deck<Asset>) returns (r: Result<Asset, DrawCardError>)
      requires deck.deck != [] || deck.backup != []
      modifies this, deck`deck
      ensures CanDrawCards(old(Data())) ==>
                r.Ok? && (r.value, deck.deck) == Drawn(old(deck.deck), deck.backup)
                && Data() == WithCardDrawn(old(Data()), Left(r.value))
      ensures !CanDrawCards(old(Data())) ==>
                r == Err(MaximumCardsDrawn(old(totalCardsDrawn))) && Data() == old(Data()) && deck.deck == old(deck.deck)
    {
      if totalCardsDrawn < DrawsNCards(character) + bonusDrawCards {
        var asset := deck.Draw();
        DrawCard(Left(asset));
        return Ok(asset);
      }
      return Err(MaximumCardsDrawn(totalCardsDrawn));
    }

    /** `draw_liability`: takes the top of the liability deck, if the player may still draw. */
    method DrawLiability(deck: Deck<Liability>) returns (r: Result<Liability, DrawCardError>)
      requires deck.deck != [] || deck.backup != []
      modifies this, deck`deck
      ensures CanDrawCards(old(Data())) ==>
                r.Ok? && (r.value, deck.deck) == Drawn(old(deck.deck), deck.backup)
                && Data() == WithCardDrawn(old(Data()), Right(r.value))
      ensures !CanDrawCards(old(Data())) ==>
                r == Err(MaximumCardsDrawn(old(totalCardsDrawn))) && Data() == old(Data()) && deck.deck == old(deck.deck)
    {
      if totalCardsDrawn < DrawsNCards(character) + bonusDrawCards {
        var liability := deck.Draw();
        DrawCard(Right(liability));
        return Ok(liability);
      }
      return Err(MaximumCardsDrawn(totalCardsDrawn));
    }

    /** `give_back_card`; on failure nothing changes. */
    method GiveBackCard(cardIdx: nat) returns (r: Result<Card, GiveBackCardError>)
      modifies this
      ensures Applied(GivenBack(old(Data()), cardIdx), r, old(Data()), Data())
    {
      if ShouldGiveBackCards(Data()) {
        if cardIdx < |hand| {
          totalCardsGivenBack := totalCardsGivenBack + 1;
          cardsDrawn := UpdateCardsDrawn(cardsDrawn, cardIdx);
          var card := hand[cardIdx];
          hand := RemoveAt(hand, cardIdx);
          return Ok(card);
        }
        return Err(GiveBackInvalidCardIndex(AsU8(cardIdx)));
      }
      return Err(Unnecessary);
    }

    /** `redeem_liability`; on failure nothing changes. */
    method RedeemLiability(liabilityIdx: nat) returns (r: Result<Liability, RedeemLiabilityError>)
      modifies this
      ensures Applied(Redeemed(old(Data()), liabilityIdx), r, old(Data()), Data())
    {
      if !CanRedeemLiabilities(character) {
        return Err(NotAllowedToRedeemLiability(character));
      }
      if liabilitiesToPlay == 0 {
        return Err(RedeemExceedsMaximumLiabilities);
      }
      if liabilityIdx >= |liabilities| {
        return Err(InvalidLiabilityIndex(AsU8(liabilityIdx)));
      }
      var liability := liabilities[liabilityIdx];
      if liability.value <= cash {
        liabilitiesToPlay := liabilitiesToPlay - 1;
        cash := cash - liability.value;
        liabilities := RemoveAt(liabilities, liabilityIdx);
        return Ok(liability);
      }
      return Err(NotEnoughCash(cash, liability.value));
    }

    /** `fire_character` */
    method FireCharacter(c: Character) returns (r: Result<Character, FireCharacterError>)
      modifies this
      ensures Applied(Fired(old(Data()), c), r, old(Data()), Data())
    {
      if character == Shareholder {
        if !hasUsedAbility {
          if CanBeFired(c) {
            hasUsedAbility := true;
            return Ok(c);
          }
          return Err(FireInvalidCharacter);
        }
        return Err(AlreadyFiredThisTurn);
      }
      return Err(FireInvalidPlayerCharacter);
    }

    /** `terminate_credit` */
    method TerminateCredit(c: Character) returns (r: Result<Character, TerminateCreditCharacterError>)
      modifies this
      ensures Applied(Terminated(old(Data()), c), r, old(Data()), Data())
    {
      if character == Banker {
        if !hasUsedAbility {
          if CanBeFired(c) {
            hasUsedAbility := true;
            return Ok(c);
          }
          return Err(TerminateInvalidCharacter);
        }
        return Err(TerminateAlreadyFiredThisTurn);
      }
      return Err(TerminateInvalidPlayerCharacter);
    }

    /** `swap_with_deck` */
    method SwapWithDeck(cardIdxs: seq<nat>, assetDeck: Deck<Asset>, liabilityDeck: Deck<Liability>) returns (r: Result<seq<nat>, SwapError>)
      requires SwapDoesNotPanic(Data(), cardIdxs)
      modifies this, assetDeck`deck, liabilityDeck`deck
      ensures match SwappedWithDeck(old(Data()), cardIdxs)
        case Ok((q, taken, given)) =>
          r == Ok([|taken|, |given|]) && Data() == q
          && assetDeck.deck == taken + old(assetDeck.deck) && liabilityDeck.deck == given + old(liabilityDeck.deck)
        case Err(e) =>
          r == Err(e) && Data() == old(Data())
          && assetDeck.deck == old(assetDeck.deck) && liabilityDeck.deck == old(liabilityDeck.deck)
    {
      if cardIdxs == [] {
        return Ok([0, 0]);
      }
      if character != Regulator || hasUsedAbility {
        return Err(AlreadySwapedThisTurn);
      }
      if !SwapIdxsAcceptedAsWritten(hand, cardIdxs) {
        return Err(InvalidCardIdxs);
      }
      var h, assetCount, liabilityCount := PutBackChosen(hand, Elems(cardIdxs), assetDeck, liabilityDeck);
      hand := h;
      hasUsedAbility := true;
      bonusDrawCards := bonusDrawCards + |cardIdxs|;
      return Ok([assetCount, liabilityCount]);
    }

    /** Puts a card under the deck of its kind. */
    static method PutBackCard(card: Card, assetDeck: Deck<Asset>, liabilityDeck: Deck<Liability>)
      modifies assetDeck`deck, liabilityDeck`deck
      ensures assetDeck.deck == (if card.Left? then [card.left] else []) + old(assetDeck.deck)
      ensures liabilityDeck.deck == (if card.Right? then [card.right] else []) + old(liabilityDeck.deck)
    {
      match card {
        case Left(a) => assetDeck.PutBack(a);
        case Right(l) => liabilityDeck.PutBack(l);
      }
    }

    /**
     * The loop of `swap_with_deck`: visits the chosen positions from the
     * highest down, as the source walks its sorted list backwards, so that
     * each removal leaves the lower positions in place, and puts each card
     * removed under its deck.
     */
    static method PutBackChosen(h0: seq<Card>, chosen: set<nat>, assetDeck: Deck<Asset>, liabilityDeck: Deck<Liability>)
      returns (h: seq<Card>, assetCount: nat, liabilityCount: nat)
      requires forall k :: k in chosen ==> k < |h0|
      modifies assetDeck`deck, liabilityDeck`deck
      ensures h == Without(h0, chosen, 0)
      ensures assetDeck.deck == TakenAssetsFrom(h0, chosen, 0) + old(assetDeck.deck)
      ensures liabilityDeck.deck == TakenLiabilitiesFrom(h0, chosen, 0) + old(liabilityDeck.deck)
      ensures assetCount == |TakenAssetsFrom(h0, chosen, 0)| && liabilityCount == |TakenLiabilitiesFrom(h0, chosen, 0)|
    {
      ghost var a0, l0 := assetDeck.deck, liabilityDeck.deck;
      var remaining := chosen;
      h := h0;
      ghost var t: nat := |h0|;
      assetCount, liabilityCount := 0, 0;
      while remaining != {}
        invariant t <= |h0|
        invariant forall k :: k in remaining <==> k in chosen && k < t
        invariant h == h0[..t] + Without(h0, chosen, t)
        invariant assetDeck.deck == TakenAssetsFrom(h0, chosen, t) + a0
        invariant liabilityDeck.deck == TakenLiabilitiesFrom(h0, chosen, t) + l0
        invariant assetCount == |TakenAssetsFrom(h0, chosen, t)|
        invariant liabilityCount == |TakenLiabilitiesFrom(h0, chosen, t)|
        decreases remaining
      {
        SetHasMax(remaining);
        var j :| j in remaining && forall k :: k in remaining ==> k <= j;
        assert forall k :: j < k < t ==> k !in chosen;
        SwapStep(h0, chosen, j, t);
        PutBackStep(h0, chosen, j, t, a0, l0);
        var card := h[j];
        h := RemoveAt(h, j);
        PutBackCard(card, assetDeck, liabilityDeck);
        if card.Left? {
          assetCount := assetCount + 1;
        } else {
          liabilityCount := liabilityCount + 1;
        }
        remaining := remaining - {j};
        t := j;
      }
      UnchosenStretch(h0, chosen, 0, t);
      WithoutStretch(h0, chosen, 0, t);
      assert h0[..t] == h0[0..t];
    }

    /** `regulator_swap_with_player` */
    method RegulatorSwapWithPlayer(target: RoundPlayer) returns (r: Result<(), SwapError>)
      requires target != this
      modifies this, target
      ensures match RegulatorSwapped(old(Data()), old(target.Data()))
        case Ok(players) => r.Ok? && (Data(), target.Data()) == players
        case Err(e) => r == Err(e) && Data() == old(Data()) && target.Data() == old(target.Data())
    {
      if character == Regulator && !hasUsedAbility {
        hasUsedAbility := true;
        hand, target.hand := target.hand, hand;
        return Ok(());
      }
      return Err(AlreadySwapedThisTurn);
    }

    /** `remove_asset` */
    method RemoveAsset(assetIdx: nat) returns (r: Result<Asset, DivestAssetError>)
      modifies this
      ensures Applied(RemovedAsset(old(Data()), assetIdx), r, old(Data()), Data())
    {
      if assetIdx < |assets| {
        var asset := assets[assetIdx];
        assets := RemoveAt(assets, assetIdx);
        return Ok(asset);
      }
      return Err(InvalidCardIdx);
    }

    /** `divest_asset`: charges the stakeholder; the target is only read. */
    method DivestAsset(target: RoundPlayer, assetIdx: nat, market: Market) returns (r: Result<nat, DivestAssetError>)
      requires target != this
      modifies this
      ensures Applied(Divested(old(Data()), old(target.Data()), assetIdx, market), r, old(Data()), Data())
    {
      if character == Stakeholder {
        if !hasUsedAbility {
          if CanBeForcedToDivest(target.character) {
            if assetIdx < |target.assets| {
              var asset := target.assets[assetIdx];
              if asset.color != Red && asset.color != Green {
                var cost := DivestCost(asset, market);
                if cost <= cash {
                  hasUsedAbility := true;
                  cash := cash - cost;
                  return Ok(cost);
                }
                return Err(DivestNotEnoughCash);
              }
              return Err(CantDivestAssetType);
            }
            return Err(InvalidCardIdx);
          }
          return Err(DivestInvalidCharacter);
        }
        return Err(AlreadyDivestedThisTurn);
      }
      return Err(DivestInvalidPlayerCharacter);
    }

    /** `get_bonus_cash_character` */
    method GetBonusCashCharacter(market: Market) returns (r: Result<nat, GetBonusCashError>)
      modifies this
      ensures Applied(GotBonusCash(old(Data()), market), r, old(Data()), Data())
    {
      if hasGottenBonusCash {
        return Err(AlreadyGottenBonusCashThisTurn);
      }
      if ColorOf(character).None? {
        return Err(BonusInvalidCharacter);
      }
      var bonus := AssetBonus(Data()) + MarketConditionBonus(Data(), market);
      if bonus < 0 {
        hasGottenBonusCash := true;
        return Ok(0);
      }
      hasGottenBonusCash := true;
      cash := cash + bonus;
      return Ok(bonus);
    }

    /** `start_turn` */
    method StartTurn()
      modifies this
      ensures Data() == TurnStarted(old(Data()))
    {
      cash := cash + TurnCash(Data());
    }
  }
}
