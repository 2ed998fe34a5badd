// The round and the character draft of the older single-file snapshot
// (game/src/game.rs). The older `Round` is the newer one without the
// final-round flag and the first-to-six mark: it decides whether the game
// ends only when the last turn of a round ends, from the asset counts at
// that moment, and it pays each player the older market-dependent turn cash
// when its turn starts. Every query and every operation not defined here is
// the same code in both snapshots and is modelled once, in `RoundRules`
// and `SelectingPhase`; the older round is a `RoundData` whose flag stays
// false.
module LegacyRounds {
  import opened Wrappers
  import opened Vocabulary
  import opened Errors
  import opened PlayerRules
  import opened Sequences
  import opened Decks
  import opened PlayerRecords
  import opened SelectingPlayers
  import opened RoundPlayers
  import opened Draft
  import opened ResultsPlayers
  import opened RoundRules
  import opened Rounds
  import opened SelectingPhase
  import opened LegacyPlayers

  // ------------------------------------------------------------ playing a card

  /**
   * The older round's part of buying an asset: the market is refreshed when
   * the purchase makes a new largest asset count other than six; nothing
   * else changes.
   */
  function OldAfterPurchase(r: RoundData, oldMax: nat): (res: (RoundData, Option<MarketChange>))
    requires HasMarket(r.markets.deck) || HasMarket(r.markets.backup)
    ensures res.1.Some? <==> ShouldRefreshMarket(MaxBoughtAssets(r.players), oldMax)
    ensures res.1.None? ==> res.0 == r
    ensures res.0.players == r.players && res.0.isFinalRound == r.isFinalRound
  {
    if ShouldRefreshMarket(MaxBoughtAssets(r.players), oldMax) then
      var refreshed := Refreshed(r.markets.deck, r.markets.backup);
      (r.(markets := r.markets.(deck := refreshed.2), currentMarket := refreshed.1,
          currentEvents := r.currentEvents + refreshed.0),
       Some(MarketChange(refreshed.0, refreshed.1)))
    else (r, None)
  }

  /**
   * The older `player_play_card`: the current player plays a card; an asset
   * may refresh the market, a liability changes nothing else.
   */
  function OldPlayedInRound(r: RoundData, id: PlayerId, cardIdx: nat): (res: Result<(RoundData, PlayerPlayedCard), GameError>)
    requires RoundInv(r)
    ensures AsCurrent(r, id).Err? ==> res == Err(AsCurrent(r, id).error)
    ensures AsCurrent(r, id).Ok? && Played(r.players[id], cardIdx).Err? ==>
      res == Err(PlayCardErr(Played(r.players[id], cardIdx).error))
  {
    match AsCurrent(r, id)
    case Err(e) => Err(e)
    case Ok(p) =>
      match Played(p, cardIdx)
      case Err(e) => Err(PlayCardErr(e))
      case Ok((q, card)) =>
        var bought := r.(players := r.players[id := q]);
        if card.Right? then Ok((bought, PlayerPlayedCard(None, card)))
        else
          var after := OldAfterPurchase(bought, MaxBoughtAssets(r.players));
          Ok((after.0, PlayerPlayedCard(after.1, card)))
  }

  /**
   * Playing a card in the older round succeeds exactly when it does in the
   * newer one, with the same answer (the card and the market change) and
   * the same round, except that the older one never touches the
   * final-round flag and never marks the buyer as first to six assets.
   */
  lemma OldPlayMatchesNewer(r: RoundData, id: PlayerId, cardIdx: nat)
    requires RoundInv(r)
    ensures OldPlayedInRound(r, id, cardIdx).Ok? <==> PlayedInRound(r, id, cardIdx).Ok?
    ensures OldPlayedInRound(r, id, cardIdx).Err? ==> OldPlayedInRound(r, id, cardIdx) == PlayedInRound(r, id, cardIdx)
    ensures OldPlayedInRound(r, id, cardIdx).Ok? ==>
      var o := OldPlayedInRound(r, id, cardIdx).value;
      var n := PlayedInRound(r, id, cardIdx).value;
      && o.1 == n.1
      && o.0.isFinalRound == r.isFinalRound
      && n.0 == o.0.(players := n.0.players, isFinalRound := n.0.isFinalRound)
      && |n.0.players| == |o.0.players|
      && (forall j :: 0 <= j < |o.0.players| && j != id ==> n.0.players[j] == o.0.players[j])
      && n.0.players[id] == o.0.players[id].(wasFirstToSixAssets := n.0.players[id].wasFirstToSixAssets)
  {
    if AsCurrent(r, id).Ok? && Played(r.players[id], cardIdx).Ok? {
      var (q, card) := Played(r.players[id], cardIdx).value;
      if card.Left? {
        OldAfterPurchaseMatches(r.(players := r.players[id := q]), id, MaxBoughtAssets(r.players));
      }
    }
  }

  /**
   * After a purchase the older round does what the newer one does, except
   * for the final-round flag and the mark on the buyer.
   */
  lemma OldAfterPurchaseMatches(b: RoundData, id: PlayerId, oldMax: nat)
    requires id < |b.players| && (HasMarket(b.markets.deck) || HasMarket(b.markets.backup))
    ensures var o := OldAfterPurchase(b, oldMax); var n := AfterPurchase(b, id, oldMax);
      && o.1 == n.1 && o.0.isFinalRound == b.isFinalRound
      && n.0 == o.0.(players := n.0.players, isFinalRound := n.0.isFinalRound)
      && |n.0.players| == |o.0.players|
      && (forall j :: 0 <= j < |o.0.players| && j != id ==> n.0.players[j] == o.0.players[j])
      && n.0.players[id] == o.0.players[id].(wasFirstToSixAssets := n.0.players[id].wasFirstToSixAssets)
  {
    var players2 := if !b.isFinalRound && FinalRoundReached(b.players)
      then b.players[id := b.players[id].(wasFirstToSixAssets := true)] else b.players;
    MaxBoughtAssetsSameCounts(b.players, players2);
  }

  /** Playing a card in the older round keeps the round invariant. */
  lemma OldPlayKeepsRoundInv(r: RoundData, id: PlayerId, cardIdx: nat)
    requires RoundInv(r) && OldPlayedInRound(r, id, cardIdx).Ok?
    ensures RoundInv(OldPlayedInRound(r, id, cardIdx).value.0)
  {
    var p := r.players[id];
    CardOperationsKeepPlayerInv(p, cardIdx, Left(Drawn(r.assets.deck, r.assets.backup).0));
    PlayerOperationsKeepId(p, cardIdx, Left(Drawn(r.assets.deck, r.assets.backup).0), Shareholder, [], p, r.currentMarket);
    ReplacedPlayerKeepsRoundInv(r, id, Played(p, cardIdx).value.0);
  }

  // ------------------------------------------------------------ ending a turn

  /**
   * The older `end_player_turn`: a player who owes cards may not end the
   * turn. Otherwise the next player starts its turn with the older turn
   * cash on the current market; after the last player the round hands over
   * to the results when somebody owns six assets by now (`is_last_round`),
   * and to the next draft, chaired by the CEO, otherwise. The round is left
   * as it is when it hands over.
   */
  function OldEndedTurn(r: RoundData, id: PlayerId): (res: Result<(RoundData, Either<TurnEnded, NextPhase>), GameError>)
    requires RoundInv(r)
    ensures AsCurrent(r, id).Err? ==> res == Err(AsCurrent(r, id).error)
    ensures AsCurrent(r, id).Ok? && ShouldGiveBackCards(r.players[id]) ==> res == Err(PlayerShouldGiveBackCard)
    ensures res.Ok? && res.value.1.Right? ==> res.value.0 == r
  {
    match AsCurrent(r, id)
    case Err(e) => Err(e)
    case Ok(p) =>
      if ShouldGiveBackCards(p) then Err(PlayerShouldGiveBackCard)
      else match NextPlayer(r)
        case Some(n) =>
          Ok((r.(players := r.players[n := OldTurnStarted(r.players[n], r.currentMarket)], currentPlayer := r.players[n].id),
              Left(TurnEnded(Some(r.players[n].id), false))))
        case None =>
          if !FinalRoundReached(r.players) then
            var chairman := NextChairman(r);
            match NewDraft(|r.players|, chairman)
            case Err(e) => Err(e)
            case Ok(draft) =>
              Ok((r, Right(ToSelecting(ToSelectingPlayers(r.players), draft, r.assets, r.liabilities, r.markets,
                                       chairman, r.currentMarket, r.currentEvents))))
          else
            Ok((r, Right(ToResults(ToResultsPlayers(r.players, r.currentMarket), r.currentEvents))))
  }

  /**
   * Ending a turn with cards settled passes the turn to the next player,
   * who alone gets the older turn cash; without a next player the phase
   * changes, to the results exactly when some player owns six assets or
   * more, each results player holding the market the game ended on.
   */
  lemma OldEndTurnEffects(r: RoundData, id: PlayerId)
    requires RoundInv(r) && OldEndedTurn(r, id).Ok?
    ensures id == r.currentPlayer && !ShouldGiveBackCards(r.players[id])
    ensures var res := OldEndedTurn(r, id).value; var q := res.0; var out := res.1;
      && (out.Left? <==> NextPlayer(r).Some?)
      && (out.Left? ==> var n := NextPlayer(r).value;
            && out.left == TurnEnded(Some(n), false) && q.currentPlayer == n
            && Upcoming(r.players[n], r.players[id].character, r.firedCharacters)
            && q.players[n].cash == r.players[n].cash + OldTurnCash(r.players[n], r.currentMarket)
            && q.players[n].(cash := r.players[n].cash) == r.players[n]
            && (forall j :: 0 <= j < |r.players| && j != n ==> q.players[j] == r.players[j]))
      && (out.Right? ==> (out.right.ToResults? <==>
            exists i :: 0 <= i < |r.players| && |r.players[i].assets| >= ASSETS_FOR_END_OF_GAME))
      && (out.Right? && out.right.ToSelecting? ==>
            && out.right.newChairman == NextChairman(r)
            && |out.right.selectingPlayers| == |r.players|)
      && (out.Right? && out.right.ToResults? ==>
            && |out.right.resultsPlayers| == |r.players|
            && (forall i :: 0 <= i < |r.players| ==> out.right.resultsPlayers[i].market == r.currentMarket)
            && out.right.finalEvents == r.currentEvents)
  {
    FinalRoundIffSixAssets(r.players);
  }

  /** Ending a turn in the older round keeps the round invariant. */
  lemma OldEndTurnKeepsRoundInv(r: RoundData, id: PlayerId)
    requires RoundInv(r) && OldEndedTurn(r, id).Ok?
    ensures RoundInv(OldEndedTurn(r, id).value.0)
  {
    if NextPlayer(r).Some? {
      var n := NextPlayer(r).value;
      OldStartTurnKeepsPlayerInv(r.players[n], r.currentMarket);
      ReplacedPlayerKeepsRoundInv(r, n, OldTurnStarted(r.players[n], r.currentMarket));
    }
  }

  /**
   * The turn of the scenario tests: the current player, fresh at the start
   * of its turn, draws an asset, a liability and an asset; it then may not
   * end its turn until it gives back one card, here the last one of its
   * hand, after which ending the turn succeeds in a game of four to seven.
   */
  lemma PlayTurnScenario(r: RoundData, id: PlayerId)
    requires RoundInv(r) && id < |r.players| && r.players[id].id == r.currentPlayer
    requires r.players[id].totalCardsDrawn == 0 && r.players[id].bonusDrawCards == 0
    requires r.players[id].totalCardsGivenBack == 0
    ensures DrewInRound(r, id, AssetCard).Ok?
    ensures var r1 := DrewInRound(r, id, AssetCard).value.0;
      && RoundInv(r1) && DrewInRound(r1, id, LiabilityCard).Ok?
      && var r2 := DrewInRound(r1, id, LiabilityCard).value.0;
      && RoundInv(r2) && DrewInRound(r2, id, AssetCard).Ok?
      && var r3 := DrewInRound(r2, id, AssetCard).value.0;
      && RoundInv(r3)
      && OldEndedTurn(r3, id) == Err(PlayerShouldGiveBackCard)
      && |r3.players[id].hand| == |r.players[id].hand| + 3
      && GaveBackInRound(r3, id, |r3.players[id].hand| - 1).Ok?
      && var r4 := GaveBackInRound(r3, id, |r3.players[id].hand| - 1).value.0;
      && RoundInv(r4)
      && (4 <= |r.players| <= 7 ==> OldEndedTurn(r4, id).Ok?)
  {
    var p := r.players[id];
    assert DrawsNCards(p.character) >= 3;
    ScenarioDraw(r, id, AssetCard);
    var r1 := DrewInRound(r, id, AssetCard).value.0;
    ScenarioDraw(r1, id, LiabilityCard);
    var r2 := DrewInRound(r1, id, LiabilityCard).value.0;
    ScenarioDraw(r2, id, AssetCard);
    var r3 := DrewInRound(r2, id, AssetCard).value.0;
    var k := |r3.players[id].hand| - 1;
    assert ShouldGiveBackCards(r3.players[id]);
    GiveBackKeepsRoundInv(r3, id, k);
    var r4 := GaveBackInRound(r3, id, k).value.0;
    assert r4.players[id].totalCardsGivenBack == 1 && r4.players[id].totalCardsDrawn == 3;
    assert !ShouldGiveBackCards(r4.players[id]);
    if 4 <= |r.players| <= 7 {
      ScenarioEnd(r4, id);
    }
  }

  /** One draw of the scenario: it succeeds, and only the drawing player changes. */
  lemma ScenarioDraw(r: RoundData, id: PlayerId, kind: CardType)
    requires RoundInv(r) && id < |r.players| && r.players[id].id == r.currentPlayer && CanDrawCards(r.players[id])
    ensures DrewInRound(r, id, kind).Ok?
    ensures var (q, card) := DrewInRound(r, id, kind).value;
      && RoundInv(q) && |q.players| == |r.players| && q.currentPlayer == r.currentPlayer
      && q.players[id] == WithCardDrawn(r.players[id], card)
  {
    DrawKeepsRoundInv(r, id, kind);
  }

  /** The end of the scenario's turn: with cards settled, a game of four to seven players moves on. */
  lemma ScenarioEnd(r: RoundData, id: PlayerId)
    requires RoundInv(r) && id < |r.players| && r.players[id].id == r.currentPlayer
    requires !ShouldGiveBackCards(r.players[id]) && 4 <= |r.players| <= 7
    ensures OldEndedTurn(r, id).Ok?
  {
    if NextPlayer(r).None? && !FinalRoundReached(r.players) {
      NewDraftOpenCharacters(|r.players|, NextChairman(r));
    }
  }

  // ------------------------------------------------- the round of a draft

  /**
   * The older round the last pick starts: as in the newer snapshot, except
   * that the first player starts its turn with the older turn cash on the
   * current market.
   */
  function OldRoundFromDraft(s: SelectingData): (res: Result<RoundData, GameError>)
    requires s.players != []
  {
    match ToRoundPlayers(s.players)
    case Err(e) => Err(e)
    case Ok(ps) =>
      var first := ps[SmallestCharacterAt(ps)].id;
      if first >= |ps| then Err(InvalidPlayerIndex(first))
      else Ok(RoundData(first, ps[first := OldTurnStarted(ps[first], s.currentMarket)], s.assets, s.liabilities, s.markets,
                        s.chairman, s.currentMarket, s.currentEvents, s.draft.open, [], false))
  }

  /**
   * Once everyone has picked, the older round starts well formed and is the
   * newer one except for the cash of the first player, who gets the older
   * turn cash instead of one coin.
   */
  lemma OldRoundFromDraftEffects(s: SelectingData)
    requires SelectingInv(s) && s.draft.drawIdx == |s.players|
    ensures OldRoundFromDraft(s).Ok? && RoundFromDraft(s).Ok?
    ensures var o := OldRoundFromDraft(s).value; var n := RoundFromDraft(s).value;
      && RoundInv(o)
      && o.currentPlayer == n.currentPlayer && |o.players| == |n.players|
      && o == n.(players := o.players)
      && (forall j :: 0 <= j < |o.players| && j != o.currentPlayer ==> o.players[j] == n.players[j])
      && o.players[o.currentPlayer] == n.players[o.currentPlayer].(cash := o.players[o.currentPlayer].cash)
      && o.players[o.currentPlayer].cash == s.players[o.currentPlayer].cash
                                            + OldTurnCash(n.players[o.currentPlayer], s.currentMarket)
  {
    OldRoundFromDraftInv(s);
    OldRoundCash(s);
  }

  /** The older round of a draft is well formed. */
  lemma OldRoundFromDraftInv(s: SelectingData)
    requires SelectingInv(s) && s.draft.drawIdx == |s.players|
    ensures RoundFromDraft(s).Ok? && OldRoundFromDraft(s).Ok? && RoundInv(OldRoundFromDraft(s).value)
  {
    RoundFromDraftEffects(s);
    OldRoundFromNewer(s);
    var n := RoundFromDraft(s).value;
    var p := ToRoundPlayers(s.players).value[n.currentPlayer];
    OldStartTurnKeepsPlayerInv(p, s.currentMarket);
    ReplacedPlayerKeepsRoundInv(n, n.currentPlayer, OldTurnStarted(p, s.currentMarket));
  }

  /** The older round of a draft differs from the newer one only in the first player's cash. */
  lemma OldRoundCash(s: SelectingData)
    requires s.players != [] && RoundFromDraft(s).Ok?
    ensures OldRoundFromDraft(s).Ok?
    ensures var o := OldRoundFromDraft(s).value; var n := RoundFromDraft(s).value;
      && o.currentPlayer == n.currentPlayer && |o.players| == |n.players| && o.currentPlayer < |s.players|
      && o == n.(players := o.players)
      && (forall j :: 0 <= j < |o.players| && j != o.currentPlayer ==> o.players[j] == n.players[j])
      && o.players[o.currentPlayer] == n.players[o.currentPlayer].(cash := o.players[o.currentPlayer].cash)
      && o.players[o.currentPlayer].cash == s.players[o.currentPlayer].cash
                                            + OldTurnCash(n.players[o.currentPlayer], s.currentMarket)
  {
    OldRoundFromNewer(s);
    var n := RoundFromDraft(s).value;
    var p := ToRoundPlayers(s.players).value[n.currentPlayer];
    OldTurnCashIgnoresCash(p, n.players[n.currentPlayer].cash, s.currentMarket);
  }

  /** The older round of a draft is the newer one with the first player's turn started the older way. */
  lemma OldRoundFromNewer(s: SelectingData)
    requires s.players != [] && RoundFromDraft(s).Ok?
    ensures OldRoundFromDraft(s).Ok?
    ensures var n := RoundFromDraft(s).value; var cur := n.currentPlayer; var ps := ToRoundPlayers(s.players).value;
      && cur < |ps| == |n.players| && n.players[cur] == TurnStarted(ps[cur])
      && OldRoundFromDraft(s).value == n.(players := n.players[cur := OldTurnStarted(ps[cur], s.currentMarket)])
  {
    var ps := ToRoundPlayers(s.players).value;
    var cur := ps[SmallestCharacterAt(ps)].id;
    assert ps[cur := TurnStarted(ps[cur])][cur := OldTurnStarted(ps[cur], s.currentMarket)] == ps[cur := OldTurnStarted(ps[cur], s.currentMarket)];
  }

  /**
   * The older `player_select_character`: the pick of the newer snapshot,
   * with the older round on the last pick.
   */
  function OldSelectedInPhase(s: SelectingData, id: PlayerId, c: Character): (res: Result<(SelectingData, Option<RoundData>), GameError>)
    requires s.draft.playerCount >= 1 && s.players != []
  {
    match PickedInPhase(s, id, c)
    case Err(e) => Err(e)
    case Ok(next) =>
      if Peek(next.draft).Ok? then Ok((next, None))
      else match OldRoundFromDraft(next)
        case Err(e) => Err(e)
        case Ok(round) => Ok((next, Some(round)))
  }

  /**
   * A pick in the older draft has the newer pick's outcome, except that the
   * round the last pick starts is the older one.
   */
  lemma OldSelectionMatchesNewer(s: SelectingData, id: PlayerId, c: Character)
    requires SelectingInv(s)
    ensures OldSelectedInPhase(s, id, c).Ok? <==> SelectedInPhase(s, id, c).Ok?
    ensures OldSelectedInPhase(s, id, c).Err? ==> OldSelectedInPhase(s, id, c) == SelectedInPhase(s, id, c)
    ensures OldSelectedInPhase(s, id, c).Ok? ==>
      var o := OldSelectedInPhase(s, id, c).value; var n := SelectedInPhase(s, id, c).value;
      && o.0 == n.0 && SelectingInv(o.0)
      && (o.1.Some? <==> n.1.Some?)
      && (o.1.Some? <==> s.draft.drawIdx + 1 == |s.players|)
      && (o.1.Some? ==> o.0.draft.drawIdx == |o.0.players| && OldRoundFromDraft(o.0) == Ok(o.1.value))
  {
    SelectionOutcomes(s, id, c);
    if SelectedInPhase(s, id, c).Ok? {
      var t := SelectedInPhase(s, id, c).value.0;
      PickRemovesOne(s.draft, c);
      if t.draft.drawIdx == |t.players| {
        OldRoundFromDraftEffects(t);
      }
    }
  }

  /** The older pick's outcomes, in the form the in-place pick needs them. */
  lemma OldSelectionOutcomes(s: SelectingData, id: PlayerId, c: Character)
    requires SelectingInv(s)
    ensures SelectingAsCurrent(s, id).Err? ==> OldSelectedInPhase(s, id, c) == Err(SelectingAsCurrent(s, id).error)
    ensures SelectingAsCurrent(s, id).Ok? && Pick(s.draft, c).Err? ==>
      OldSelectedInPhase(s, id, c) == Err(SelectingCharactersErr(Pick(s.draft, c).error))
    ensures OldSelectedInPhase(s, id, c).Ok? <==> SelectingAsCurrent(s, id).Ok? && Pick(s.draft, c).Ok?
    ensures OldSelectedInPhase(s, id, c).Ok? ==> var res := OldSelectedInPhase(s, id, c).value;
      && SelectingInv(res.0)
      && res.0 == s.(players := s.players[id := s.players[id].(character := Some(c))], draft := Pick(s.draft, c).value)
      && (res.1.Some? <==> s.draft.drawIdx + 1 == |s.players|)
      && (res.1.Some? ==> res.0.draft.drawIdx == |res.0.players| && OldRoundFromDraft(res.0) == Ok(res.1.value))
  {
    SelectionOutcomes(s, id, c);
    OldSelectionMatchesNewer(s, id, c);
  }

  // ---------------------------------------------------------------- in place

  /**
   * The older `player_play_card` on a round in place: the player plays the
   * card and, for an asset, the market may be refreshed.
   */
  method OldPlayerPlayCard(round: Round, id: PlayerId, cardIdx: nat) returns (res: Result<PlayerPlayedCard, GameError>)
    requires round.Valid()
    modifies round`players, round`currentMarket, round`currentEvents, round.markets`deck
    ensures round.Valid()
    ensures Settled(OldPlayedInRound(old(round.Data()), id, cardIdx), res, old(round.Data()), round.Data())
  {
    ghost var d := round.Data();
    if OldPlayedInRound(d, id, cardIdx).Ok? {
      OldPlayKeepsRoundInv(d, id, cardIdx);
    }
    var oldMax := MaxBoughtAssets(round.players);
    if id >= |round.players| {
      return Err(InvalidPlayerIndex(id));
    }
    if round.players[id].id != round.currentPlayer {
      return Err(NotPlayersTurn);
    }
    var p := new RoundPlayer.FromData(round.players[id]);
    var r := p.PlayCard(cardIdx);
    if r.Err? {
      return Err(PlayCardErr(r.error));
    }
    var card := r.value;
    round.players := round.players[id := p.Data()];
    if card.Right? {
      return Ok(PlayerPlayedCard(None, card));
    }
    var change := OldAfterAssetBought(round, oldMax);
    return Ok(PlayerPlayedCard(change, card));
  }

  /** The older round's part of buying an asset, in place: see `OldAfterPurchase`. */
  method OldAfterAssetBought(round: Round, oldMax: nat) returns (change: Option<MarketChange>)
    requires HasMarket(round.markets.deck) || HasMarket(round.markets.backup)
    modifies round`currentMarket, round`currentEvents, round.markets`deck
    ensures (round.Data(), change) == OldAfterPurchase(old(round.Data()), oldMax)
  {
    if ShouldRefreshMarket(MaxBoughtAssets(round.players), oldMax) {
      var refreshed := round.RefreshMarket();
      return Some(refreshed);
    }
    return None;
  }

  /**
   * The older `end_player_turn` on a round in place: the next player starts
   * its turn with the older turn cash, or the round hands over.
   */
  method OldEndPlayerTurn(round: Round, id: PlayerId) returns (res: Result<Either<TurnEnded, NextPhase>, GameError>)
    requires round.Valid()
    modifies round`players, round`currentPlayer
    ensures round.Valid()
    ensures Settled(OldEndedTurn(old(round.Data()), id), res, old(round.Data()), round.Data())
  {
    if OldEndedTurn(round.Data(), id).Ok? {
      OldEndTurnKeepsRoundInv(round.Data(), id);
    }
    if id >= |round.players| {
      return Err(InvalidPlayerIndex(id));
    }
    if round.players[id].id != round.currentPlayer {
      return Err(NotPlayersTurn);
    }
    if ShouldGiveBackCards(round.players[id]) {
      return Err(PlayerShouldGiveBackCard);
    }
    var next := NextPlayer(round.Data());
    if next.Some? {
      var p := new RoundPlayer.FromData(round.players[next.value]);
      StartTurnWithMarket(p, round.currentMarket);
      round.players := round.players[next.value := p.Data()];
      round.currentPlayer := p.id;
      return Ok(Left(TurnEnded(Some(round.currentPlayer), false)));
    }
    if MaxBoughtAssets(round.players) < ASSETS_FOR_END_OF_GAME {
      var chairmanId := NextChairman(round.Data());
      var characters := ObtainingCharacters.New(|round.players|, chairmanId);
      if characters.Err? {
        return Err(characters.error);
      }
      var draft := characters.value.Data();
      return Ok(Right(ToSelecting(ToSelectingPlayers(round.players), draft, round.assets.Data(), round.liabilities.Data(),
                                  round.markets.Data(), chairmanId, round.currentMarket, round.currentEvents)));
    }
    return Ok(Right(ToResults(ToResultsPlayers(round.players, round.currentMarket), round.currentEvents)));
  }

  /** Builds the older round of a completed draft, starting the first player's turn on the current market. */
  method OldStartRound(s: SelectingCharacters) returns (round: Round)
    requires s.Valid() && s.characters.drawIdx == |s.players|
    ensures fresh(round) && round.Valid() && Ok(round.Data()) == OldRoundFromDraft(s.Data())
    ensures round.assets == s.assets && round.liabilities == s.liabilities && round.markets == s.markets
  {
    OldRoundFromDraftEffects(s.Data());
    var ps := ToRoundPlayers(s.players).value;
    var first := ps[SmallestCharacterAt(ps)].id;
    var p := new RoundPlayer.FromData(ps[first]);
    StartTurnWithMarket(p, s.currentMarket);
    round := new Round(ps[first := p.Data()], s.assets, s.liabilities, s.markets, first, s.chairman,
                       s.currentMarket, s.currentEvents, s.characters.openCharacters);
  }

  /**
   * The older `player_select_character` on a draft in place: on the last
   * pick the older round is returned, taking over the draft's decks.
   */
  method OldPlayerSelectCharacter(s: SelectingCharacters, id: PlayerId, c: Character) returns (res: Result<Option<Round>, GameError>)
    requires s.Valid()
    modifies s`players, s.characters, s.characters.availableCharacters
    ensures s.Valid() && s.characters.availableCharacters == old(s.characters.availableCharacters)
    ensures OldSelectedInPhase(old(s.Data()), id, c).Err? ==>
      res == Err(OldSelectedInPhase(old(s.Data()), id, c).error) && s.Data() == old(s.Data())
    ensures OldSelectedInPhase(old(s.Data()), id, c).Ok? ==>
      var outcome := OldSelectedInPhase(old(s.Data()), id, c).value;
      && s.Data() == outcome.0 && res.Ok? && (res.value.Some? <==> outcome.1.Some?)
      && (outcome.1.Some? ==> var round := res.value.value;
            && fresh(round) && round.Valid() && round.Data() == outcome.1.value
            && round.assets == s.assets && round.liabilities == s.liabilities && round.markets == s.markets)
  {
    OldSelectionOutcomes(s.Data(), id, c);
    var taken := s.TakeCharacter(id, c);
    if taken.Err? {
      return Err(taken.error);
    }
    var round := OldCloseSelection(s);
    return Ok(round);
  }

  /** After a pick: the older round when nobody is left to pick, nothing otherwise. */
  method OldCloseSelection(s: SelectingCharacters) returns (round: Option<Round>)
    requires s.Valid()
    ensures round.Some? <==> s.characters.drawIdx == |s.players|
    ensures round.Some? ==>
      && fresh(round.value) && round.value.Valid() && Ok(round.value.Data()) == OldRoundFromDraft(s.Data())
      && round.value.assets == s.assets && round.value.liabilities == s.liabilities && round.value.markets == s.markets
  {
    if s.characters.PeekOffer().Ok? {
      return None;
    }
    var r := OldStartRound(s);
    return Some(r);
  }
}
