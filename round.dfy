// The round phase as the source holds it (game/src/game/round.rs): a
// `Round` owns its players and its three decks and updates them in place.
// Every operation is proved to have exactly the outcome the function of the
// same operation in RoundRules describes, and to keep the round invariant.
module Rounds {
  import opened Wrappers
  import opened Vocabulary
  import opened Errors
  import opened PlayerRules
  import opened Decks
  import opened PlayerRecords
  import opened RoundPlayers
  import opened Draft
  import opened RoundRules

  class Round {
    var currentPlayer: PlayerId
    var players: seq<RoundPlayerData>
    const assets: Deck<Asset>
    const liabilities: Deck<Liability>
    const markets: Deck<MarketCard>
    const chairman: PlayerId
    var currentMarket: Market
    var currentEvents: seq<Event>
    const openCharacters: seq<Character>
    var firedCharacters: seq<Character>
    var isFinalRound: bool

    /** A round over these players and decks, in the given state otherwise. */
    constructor (ps: seq<RoundPlayerData>, assetDeck: Deck<Asset>, liabilityDeck: Deck<Liability>, marketDeck: Deck<MarketCard>,
                 first: PlayerId, chairmanId: PlayerId, market: Market, events: seq<Event>, open: seq<Character>)
      ensures assets == assetDeck && liabilities == liabilityDeck && markets == marketDeck
      ensures Data() == RoundData(first, ps, assetDeck.Data(), liabilityDeck.Data(), marketDeck.Data(),
                                  chairmanId, market, events, open, [], false)
    {
      currentPlayer, players, assets, liabilities, markets := first, ps, assetDeck, liabilityDeck, marketDeck;
      chairman, currentMarket, currentEvents, openCharacters := chairmanId, market, events, open;
      firedCharacters, isFinalRound := [], false;
    }

    /** A round in the given state, over fresh deck objects. */
    constructor FromData(d: RoundData)
      ensures Data() == d
      ensures fresh(assets) && fresh(liabilities) && fresh(markets)
    {
      currentPlayer, players, chairman := d.currentPlayer, d.players, d.chairman;
      assets := new Deck.FromData(d.assets);
      liabilities := new Deck.FromData(d.liabilities);
      markets := new Deck.FromData(d.markets);
      currentMarket, currentEvents, openCharacters := d.currentMarket, d.currentEvents, d.openCharacters;
      firedCharacters, isFinalRound := d.firedCharacters, d.isFinalRound;
    }

    function Data(): RoundData
      reads this, assets, liabilities, markets
    {
      RoundData(currentPlayer, players, assets.Data(), liabilities.Data(), markets.Data(), chairman,
                currentMarket, currentEvents, openCharacters, firedCharacters, isFinalRound)
    }

    ghost predicate Valid()
      reads this, assets, liabilities, markets
    {
      RoundInv(Data())
    }

    /**
     * `refresh_market`: draws from the market deck until it reaches a
     * market, which becomes the current one; every event drawn on the way is
     * added to the current events. The deck holds a market, so the draws end.
     */
    method RefreshMarket() returns (change: MarketChange)
      requires HasMarket(markets.deck) || HasMarket(markets.backup)
      modifies this`currentMarket, this`currentEvents, markets`deck
      ensures var (events, m, pile) := Refreshed(old(markets.deck), markets.backup);
        && change == MarketChange(events, m)
        && currentMarket == m && currentEvents == old(currentEvents) + events && markets.deck == pile
    {
      change := DrawUntilMarket(markets);
      currentMarket := change.newMarket;
      currentEvents := currentEvents + change.events;
    }

    /** The loop of `refresh_market`: the events drawn, in draw order, and the market that ends it. */
    static method DrawUntilMarket(markets: Deck<MarketCard>) returns (change: MarketChange)
      requires HasMarket(markets.deck) || HasMarket(markets.backup)
      modifies markets`deck
      ensures var (events, m, pile) := Refreshed(old(markets.deck), markets.backup);
        && change.events == events && change.newMarket == m && markets.deck == pile
    {
      ghost var backup := markets.backup;
      ghost var target := Refreshed(markets.deck, backup);
      var events: seq<Event> := [];
      while true
        invariant markets.backup == backup
        invariant HasMarket(markets.deck) || HasMarket(backup)
        invariant target.0 == events + Refreshed(markets.deck, backup).0
        invariant target.1 == Refreshed(markets.deck, backup).1 && target.2 == Refreshed(markets.deck, backup).2
        decreases RefreshMeasure(markets.deck, backup)
      {
        ghost var before := markets.deck;
        RefreshedStep(before, backup);
        var card := markets.Draw();
        match card {
          case Left(m) =>
            return MarketChange(events, m);
          case Right(e) =>
            ghost var rest := Refreshed(markets.deck, backup).0;
            assert events + ([e] + rest) == (events + [e]) + rest;
            events := events + [e];
        }
      }
    }

    /**
     * `player_redeem_liability`: the current CFO pays off a liability,
     * which goes to the bottom of the liability deck.
     */
    method PlayerRedeemLiability(id: PlayerId, liabilityIdx: nat) returns (res: Result<(), GameError>)
      requires Valid()
      modifies this`players, liabilities`deck
      ensures Valid()
      ensures Settled(RedeemedInRound(old(Data()), id, liabilityIdx), res, old(Data()), Data())
    {
      ghost var d := Data();
      RedeemKeepsRoundInv(d, id, liabilityIdx);
      if id >= |players| {
        return Err(InvalidPlayerIndex(id));
      }
      if players[id].id != currentPlayer {
        return Err(NotPlayersTurn);
      }
      var p := new RoundPlayer.FromData(players[id]);
      var r := p.RedeemLiability(liabilityIdx);
      match r {
        case Err(e) =>
          assert Data() == d;
          res := Err(RedeemLiabilityErr(e));
        case Ok(l) =>
          ghost var (q, l') := Redeemed(d.players[id], liabilityIdx).value;
          assert p.Data() == q && l == l';
          players := players[id := p.Data()];
          liabilities.PutBack(l);
          res := Ok(());
          assert Data() == RedeemedInRound(d, id, liabilityIdx).value.0;
      }
    }

    /**
     * `player_play_card`: the current player plays a card from its hand,
     * then, for an asset, the round checks whether it is now final, rewards
     * the first player to six assets and refreshes the market when the
     * buyer is the first to own this many assets.
     */
    method PlayerPlayCard(id: PlayerId, cardIdx: nat) returns (res: Result<PlayerPlayedCard, GameError>)
      requires Valid()
      modifies this`players, this`isFinalRound, this`currentMarket, this`currentEvents, markets`deck
      ensures Valid()
      ensures Settled(PlayedInRound(old(Data()), id, cardIdx), res, old(Data()), Data())
    {
      ghost var d := Data();
      if PlayedInRound(d, id, cardIdx).Ok? {
        PlayKeepsRoundInv(d, id, cardIdx);
      }
      var oldMax := MaxBoughtAssets(players);
      if id >= |players| {
        return Err(InvalidPlayerIndex(id));
      }
      if players[id].id != currentPlayer {
        return Err(NotPlayersTurn);
      }
      var q, r := RoundPlayer.PlayOn(players[id], cardIdx);
      if r.Err? {
        return Err(PlayCardErr(r.error));
      }
      var card := r.value;
      players := players[id := q];
      if card.Right? {
        return Ok(PlayerPlayedCard(None, card));
      }
      var p := new RoundPlayer.FromData(q);
      var change := AfterAssetBought(p, oldMax);
      return Ok(PlayerPlayedCard(change, card));
    }

    /**
     * The round's part of buying an asset, after `p`, the player at its own
     * position, bought it: see `AfterPurchase`.
     */
    method AfterAssetBought(p: RoundPlayer, oldMax: nat) returns (change: Option<MarketChange>)
      requires p.id < |players| && players[p.id] == p.Data()
      requires HasMarket(markets.deck) || HasMarket(markets.backup)
      modifies p, this`players, this`isFinalRound, this`currentMarket, this`currentEvents, markets`deck
      ensures (Data(), change) == AfterPurchase(old(Data()), p.id, oldMax)
    {
      ghost var d := Data();
      if !isFinalRound && FinalRoundReached(players) {
        p.EnableFirstToSixAssetsBonus();
        players := players[p.id := p.Data()];
      }
      MaxBoughtAssetsSameCounts(d.players, players);
      isFinalRound := FinalRoundReached(players);
      if ShouldRefreshMarket(MaxBoughtAssets(players), oldMax) {
        var refreshed := RefreshMarket();
        return Some(refreshed);
      }
      return None;
    }

    /**
     * `player_draw_card`: the current player draws from the asset or the
     * liability deck, if it may still draw, and gets the card.
     */
    method PlayerDrawCard(id: PlayerId, kind: CardType) returns (res: Result<Card, GameError>)
      requires Valid()
      modifies this`players, assets`deck, liabilities`deck
      ensures Valid()
      ensures Settled(DrewInRound(old(Data()), id, kind), res, old(Data()), Data())
    {
      if id >= |players| {
        return Err(InvalidPlayerIndex(id));
      }
      if players[id].id != currentPlayer {
        return Err(NotPlayersTurn);
      }
      if kind == AssetCard {
        res := DrawAssetFor(id);
      } else {
        res := DrawLiabilityFor(id);
      }
    }

    /** The asset branch of `player_draw_card`, once the turn is checked. */
    method DrawAssetFor(id: PlayerId) returns (res: Result<Card, GameError>)
      requires Valid() && id < |players| && players[id].id == currentPlayer
      modifies this`players, assets`deck
      ensures Valid()
      ensures Settled(DrewInRound(old(Data()), id, AssetCard), res, old(Data()), Data())
    {
      ghost var d := Data();
      DrawKeepsRoundInv(d, id, AssetCard);
      var p := new RoundPlayer.FromData(players[id]);
      var r := p.DrawAsset(assets);
      if r.Err? {
        assert Data() == d;
        return Err(DrawCardErr(r.error));
      }
      players := players[id := p.Data()];
      res := Ok(Left(r.value));
      ghost var e := DrewInRound(d, id, AssetCard).value;
      assert e.1 == Left(r.value) && assets.Data() == e.0.assets;
      assert Data() == e.0;
    }

    /** The liability branch of `player_draw_card`, once the turn is checked. */
    method DrawLiabilityFor(id: PlayerId) returns (res: Result<Card, GameError>)
      requires Valid() && id < |players| && players[id].id == currentPlayer
      modifies this`players, liabilities`deck
      ensures Valid()
      ensures Settled(DrewInRound(old(Data()), id, LiabilityCard), res, old(Data()), Data())
    {
      ghost var d := Data();
      DrawKeepsRoundInv(d, id, LiabilityCard);
      var p := new RoundPlayer.FromData(players[id]);
      var r := p.DrawLiability(liabilities);
      if r.Err? {
        assert Data() == d;
        return Err(DrawCardErr(r.error));
      }
      players := players[id := p.Data()];
      res := Ok(Right(r.value));
      ghost var e := DrewInRound(d, id, LiabilityCard).value;
      assert e.1 == Right(r.value) && liabilities.Data() == e.0.liabilities;
      assert Data() == e.0;
    }

    /**
     * `player_give_back_card`: the current player gives back a card,
     * which goes under the deck of its kind; the kind is returned.
     */
    method PlayerGiveBackCard(id: PlayerId, cardIdx: nat) returns (res: Result<CardType, GameError>)
      requires Valid()
      modifies this`players, assets`deck, liabilities`deck
      ensures Valid()
      ensures Settled(GaveBackInRound(old(Data()), id, cardIdx), res, old(Data()), Data())
    {
      ghost var d := Data();
      GiveBackKeepsRoundInv(d, id, cardIdx);
      if id >= |players| {
        return Err(InvalidPlayerIndex(id));
      }
      if players[id].id != currentPlayer {
        return Err(NotPlayersTurn);
      }
      var p := new RoundPlayer.FromData(players[id]);
      var r := p.GiveBackCard(cardIdx);
      match r {
        case Err(e) =>
          assert Data() == d;
          res := Err(GiveBackCardErr(e));
        case Ok(Left(a)) =>
          assert p.Data() == GivenBack(d.players[id], cardIdx).value.0;
          players := players[id := p.Data()];
          assets.PutBack(a);
          res := Ok(AssetCard);
          assert Data() == GaveBackInRound(d, id, cardIdx).value.0;
        case Ok(Right(l)) =>
          assert p.Data() == GivenBack(d.players[id], cardIdx).value.0;
          players := players[id := p.Data()];
          liabilities.PutBack(l);
          res := Ok(LiabilityCard);
          assert Data() == GaveBackInRound(d, id, cardIdx).value.0;
      }
    }

    /** `player_fire_character`: the shareholder fires a character, which is recorded as fired. */
    method PlayerFireCharacter(id: PlayerId, c: Character) returns (res: Result<Character, GameError>)
      requires Valid()
      modifies this`players, this`firedCharacters
      ensures Valid()
      ensures Settled(FiredInRound(old(Data()), id, c), res, old(Data()), Data())
    {
      ghost var d := Data();
      FireKeepsRoundInv(d, id, c);
      if id >= |players| {
        return Err(InvalidPlayerIndex(id));
      }
      if players[id].id != currentPlayer {
        return Err(NotPlayersTurn);
      }
      var p := new RoundPlayer.FromData(players[id]);
      var r := p.FireCharacter(c);
      match r {
        case Err(e) =>
          assert Data() == d;
          res := Err(FireCharacterErr(e));
        case Ok(fired) =>
          assert p.Data() == Fired(d.players[id], c).value.0;
          players := players[id := p.Data()];
          firedCharacters := firedCharacters + [fired];
          res := Ok(fired);
          assert Data() == FiredInRound(d, id, c).value.0;
      }
    }

    /**
     * `player_swap_with_deck`: the current regulator puts the chosen cards
     * under the decks and may draw as many again.
     */
    method PlayerSwapWithDeck(id: PlayerId, cardIdxs: seq<nat>) returns (res: Result<seq<nat>, GameError>)
      requires Valid() && SwapInRoundDoesNotPanic(Data(), id, cardIdxs)
      modifies this`players, assets`deck, liabilities`deck
      ensures Valid()
      ensures Settled(SwappedWithDeckInRound(old(Data()), id, cardIdxs), res, old(Data()), Data())
    {
      ghost var d := Data();
      SwapWithDeckKeepsRoundInv(d, id, cardIdxs);
      if id >= |players| {
        return Err(InvalidPlayerIndex(id));
      }
      if players[id].id != currentPlayer {
        return Err(NotPlayersTurn);
      }
      var p := new RoundPlayer.FromData(players[id]);
      var r := p.SwapWithDeck(cardIdxs, assets, liabilities);
      match r {
        case Err(e) =>
          assert Data() == d;
          res := Err(SwapErr(e));
        case Ok(counts) =>
          players := players[id := p.Data()];
          res := Ok(counts);
          assert Data() == SwappedWithDeckInRound(d, id, cardIdxs).value.0;
      }
    }

    /**
     * `player_swap_with_player`: the regulator and another player exchange
     * hands; both new hands are returned.
     */
    method PlayerSwapWithPlayer(id: PlayerId, targetId: PlayerId) returns (res: Result<HandsAfterSwap, GameError>)
      requires Valid()
      modifies this`players
      ensures Valid()
      ensures Settled(SwappedWithPlayerInRound(old(Data()), id, targetId), res, old(Data()), Data())
    {
      ghost var d := Data();
      SwapWithPlayerKeepsRoundInv(d, id, targetId);
      if id == targetId || id >= |players| || targetId >= |players| {
        return Err(SwapErr(InvalidTargetPlayer));
      }
      var regulator := new RoundPlayer.FromData(players[id]);
      var target := new RoundPlayer.FromData(players[targetId]);
      var r := regulator.RegulatorSwapWithPlayer(target);
      match r {
        case Err(e) =>
          assert Data() == d;
          res := Err(SwapErr(e));
        case Ok(_) =>
          players := players[id := regulator.Data()][targetId := target.Data()];
          res := Ok(HandsAfterSwap(regulator.hand, target.hand));
          assert Data() == SwappedWithPlayerInRound(d, id, targetId).value.0;
      }
    }

    /**
     * `player_divest_asset`: the stakeholder pays to make another player
     * give up an asset; the cost is returned. The removal cannot fail once
     * the stakeholder's part succeeded, so its result is not inspected.
     */
    method PlayerDivestAsset(id: PlayerId, targetId: PlayerId, assetIdx: nat) returns (res: Result<nat, GameError>)
      requires Valid()
      modifies this`players
      ensures Valid()
      ensures Settled(DivestedInRound(old(Data()), id, targetId, assetIdx), res, old(Data()), Data())
    {
      ghost var d := Data();
      DivestKeepsRoundInv(d, id, targetId, assetIdx);
      if id == targetId || id >= |players| || targetId >= |players| {
        return Err(DivestAssetErr(DivestInvalidCharacter));
      }
      var stakeholder := new RoundPlayer.FromData(players[id]);
      var target := new RoundPlayer.FromData(players[targetId]);
      var r := stakeholder.DivestAsset(target, assetIdx, currentMarket);
      match r {
        case Err(e) =>
          assert Data() == d;
          res := Err(DivestAssetErr(e));
        case Ok(cost) =>
          var _ := target.RemoveAsset(assetIdx);
          players := players[id := stakeholder.Data()][targetId := target.Data()];
          res := Ok(cost);
          assert Data() == DivestedInRound(d, id, targetId, assetIdx).value.0;
      }
    }

    /**
     * `end_player_turn`: the next player starts its turn, or, after the
     * last one, the round hands over to the next draft or to the results.
     */
    method EndPlayerTurn(id: PlayerId) returns (res: Result<Either<TurnEnded, NextPhase>, GameError>)
      requires Valid()
      modifies this`players, this`currentPlayer
      ensures Valid()
      ensures Settled(EndedTurn(old(Data()), id), res, old(Data()), Data())
    {
      if EndedTurn(Data(), id).Ok? {
        EndTurnKeepsRoundInv(Data(), id);
      }
      if id >= |players| {
        return Err(InvalidPlayerIndex(id));
      }
      if players[id].id != currentPlayer {
        return Err(NotPlayersTurn);
      }
      if ShouldGiveBackCards(players[id]) {
        return Err(PlayerShouldGiveBackCard);
      }
      var next := NextPlayer(Data());
      if next.Some? {
        var p := new RoundPlayer.FromData(players[next.value]);
        p.StartTurn();
        players := players[next.value := p.Data()];
        currentPlayer := p.id;
        return Ok(Left(TurnEnded(Some(currentPlayer), false)));
      }
      if !isFinalRound {
        var chairmanId := NextChairman(Data());
        var characters := ObtainingCharacters.New(|players|, chairmanId);
        if characters.Err? {
          return Err(characters.error);
        }
        var draft := characters.value.Data();
        return Ok(Right(ToSelecting(ToSelectingPlayers(players), draft, assets.Data(), liabilities.Data(), markets.Data(),
                                    chairmanId, currentMarket, currentEvents)));
      }
      return Ok(Right(ToResults(ToResultsPlayers(players, currentMarket), currentEvents)));
    }
  }
}
