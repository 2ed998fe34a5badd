// `GameState` of the older single-file snapshot (game/src/game.rs). Its
// phases, accessors and `start_game` are those of `Games`; a pick and the
// end of a turn go through the older draft and round of `LegacyRounds`.
module LegacyGames {
  import opened Wrappers
  import opened Vocabulary
  import opened Errors
  import opened Draft
  import opened RoundRules
  import opened Rounds
  import opened SelectingPhase
  import opened Results
  import opened Games
  import opened LegacyRounds

  /**
   * The older `player_select_character`: only in the draft; the last pick
   * turns the state into the older round.
   */
  function OldSelectedState(g: GameStateData, id: PlayerId, c: Character): (res: Result<(GameStateData, ()), GameError>)
    requires GameInv(g)
    ensures !g.SelectingState? ==> res == Err(NotSelectingCharactersState)
  {
    match g
    case SelectingState(s) =>
      (match OldSelectedInPhase(s, id, c)
       case Err(e) => Err(e)
       case Ok((t, None)) => Ok((SelectingState(t), ()))
       case Ok((_, Some(r))) => Ok((RoundState(r), ())))
    case _ => Err(NotSelectingCharactersState)
  }

  /**
   * The older `end_player_turn`: only in a round; when the round hands
   * over, the state becomes the new phase and the answer is that nobody is
   * next and the game has ended.
   */
  function OldEndedTurnState(g: GameStateData, id: PlayerId): (res: Result<(GameStateData, TurnEnded), GameError>)
    requires GameInv(g)
    ensures !g.RoundState? ==> res == Err(NotRoundState)
  {
    match g
    case RoundState(r) =>
      (match OldEndedTurn(r, id)
       case Err(e) => Err(e)
       case Ok((q, Left(te))) => Ok((RoundState(q), te))
       case Ok((_, Right(next))) => Ok((Entered(r, next), TurnEnded(None, true))))
    case _ => Err(NotRoundState)
  }

  /**
   * A pick in the older game keeps it well formed; the state becomes a
   * round exactly on the last pick of the draft, and the pick fails exactly
   * when the newer one does.
   */
  lemma OldSelectKeepsGameInv(g: GameStateData, id: PlayerId, c: Character)
    requires GameInv(g)
    ensures OldSelectedState(g, id, c).Ok? <==> SelectedState(g, id, c).Ok?
    ensures OldSelectedState(g, id, c).Err? ==> OldSelectedState(g, id, c) == SelectedState(g, id, c)
    ensures OldSelectedState(g, id, c).Ok? ==> var h := OldSelectedState(g, id, c).value.0;
      && GameInv(h) && (h.SelectingState? || h.RoundState?)
      && (h.RoundState? <==> g.selecting.draft.drawIdx + 1 == |g.selecting.players|)
      && (h.SelectingState? ==> h == SelectedState(g, id, c).value.0)
  {
    if g.SelectingState? {
      OldSelectionMatchesNewer(g.selecting, id, c);
      var res := OldSelectedInPhase(g.selecting, id, c);
      if res.Ok? && res.value.1.Some? {
        OldRoundFromDraftEffects(res.value.0);
      }
    }
  }

  /**
   * Ending a turn keeps the older game well formed. The answer names a
   * next player exactly while the round goes on; when it hands over, the
   * game is in the results exactly when some player owns six assets or
   * more at that moment.
   */
  lemma OldEndTurnKeepsGameInv(g: GameStateData, id: PlayerId)
    requires GameInv(g)
    ensures OldEndedTurnState(g, id).Ok? ==> var res := OldEndedTurnState(g, id).value; var h := res.0; var te := res.1;
      && GameInv(h) && !h.LobbyState?
      && (h.RoundState? <==> te.nextPlayer.Some?)
      && (!h.RoundState? ==> te == TurnEnded(None, true))
      && (h.ResultsState? <==>
            (!h.RoundState? && exists i :: 0 <= i < |g.round.players| && |g.round.players[i].assets| >= ASSETS_FOR_END_OF_GAME))
  {
    if g.RoundState? && OldEndedTurn(g.round, id).Ok? {
      var r := g.round;
      OldEndTurnEffects(r, id);
      OldEndTurnKeepsRoundInv(r, id);
      if OldEndedTurn(r, id).value.1.Right? {
        OldHandOverKeepsGameInv(r, id);
      }
    }
  }

  /** The phase the older round hands over to is well formed. */
  lemma OldHandOverKeepsGameInv(r: RoundData, id: PlayerId)
    requires RoundInv(r) && OldEndedTurn(r, id).Ok? && OldEndedTurn(r, id).value.1.Right?
    ensures GameInv(Entered(r, OldEndedTurn(r, id).value.1.right))
  {
    match OldEndedTurn(r, id).value.1.right
    case ToSelecting(players, draft, assets, liabilities, markets, chairman, market, events) =>
      EnteredSelectingInv(SelectingData(players, draft, assets, liabilities, markets, chairman, market, events));
    case ToResults(players, events) =>
      FromRoundKeepsResultsInv(r.players, r.currentMarket, events);
  }

  /** The older game in place; it is started as the newer one is. */
  class LegacyGameState {
    var state: GameStateData

    /** A game in a given well-formed phase. */
    constructor FromData(g: GameStateData)
      requires GameInv(g)
      ensures state == g && Valid()
    {
      state := g;
    }

    ghost predicate Valid()
      reads this
    {
      GameInv(state)
    }

    /** `player_select_character`: a pick in the draft; the last one starts the older round. */
    method PlayerSelectCharacter(id: PlayerId, c: Character) returns (res: Result<(), GameError>)
      requires Valid()
      modifies this
      ensures Valid()
      ensures Settled(OldSelectedState(old(state), id, c), res, old(state), state)
    {
      OldSelectKeepsGameInv(state, id, c);
      if !state.SelectingState? {
        return Err(NotSelectingCharactersState);
      }
      var selecting := new SelectingCharacters.FromData(state.selecting);
      var picked := OldPlayerSelectCharacter(selecting, id, c);
      if picked.Err? {
        return Err(picked.error);
      }
      match picked.value {
        case Some(round) => state := RoundState(round.Data());
        case None => state := SelectingState(selecting.Data());
      }
      return Ok(());
    }

    /** `end_player_turn`: the turn passes on, or the state becomes the phase the older round hands over to. */
    method EndPlayerTurn(id: PlayerId) returns (res: Result<TurnEnded, GameError>)
      requires Valid()
      modifies this
      ensures Valid()
      ensures Settled(OldEndedTurnState(old(state), id), res, old(state), state)
    {
      OldEndTurnKeepsGameInv(state, id);
      if !state.RoundState? {
        return Err(NotRoundState);
      }
      var round := new Round.FromData(state.round);
      var ended := OldEndPlayerTurn(round, id);
      if ended.Err? {
        return Err(ended.error);
      }
      match ended.value {
        case Left(te) =>
          state := RoundState(round.Data());
          return Ok(te);
        case Right(ToSelecting(players, draft, assets, liabilities, markets, chairman, market, events)) =>
          state := SelectingState(SelectingData(players, draft, assets, liabilities, markets, chairman, market, events));
        case Right(ToResults(players, events)) =>
          state := ResultsState(ResultsData(players, round.currentMarket, events));
      }
      return Ok(TurnEnded(None, true));
    }
  }
}
