// `GameState` (game/src/game/mod.rs): the game is in one of four phases,
// and a transition replaces the whole state by the phase its operation
// returns. Each phase is kept as its value; a transition builds the phase
// object from it, runs the phase's own method and stores what comes back.
module Games {
  import opened Wrappers
  import opened Vocabulary
  import opened Errors
  import opened Decks
  import opened Draft
  import opened RoundRules
  import opened Rounds
  import opened SelectingPhase
  import opened Results
  import opened Lobbies
  import opened Cards
  import opened PlayerRecords

  /** The four phases, each with its state. */
  datatype GameStateData =
    | LobbyState(lobby: seq<LobbyPlayerData>)
    | SelectingState(selecting: SelectingData)
    | RoundState(round: RoundData)
    | ResultsState(results: ResultsData)

  /** Every phase keeps its own invariant. */
  ghost predicate GameInv(g: GameStateData)
  {
    match g
    case LobbyState(l) => LobbyInv(l)
    case SelectingState(s) => SelectingInv(s)
    case RoundState(r) => RoundInv(r)
    case ResultsState(r) => ResultsInv(r)
  }

  /** `GameState::new`: an empty lobby. */
  const NEW_GAME: GameStateData := LobbyState([])

  // -------------------------------------------------------------- accessors

  /** `lobby` / `lobby_mut` */
  function LobbyOf(g: GameStateData): (r: Result<seq<LobbyPlayerData>, GameError>)
  {
    if g.LobbyState? then Ok(g.lobby) else Err(NotLobbyState)
  }

  /** `selecting_characters` / `selecting_characters_mut` */
  function SelectingOf(g: GameStateData): (r: Result<SelectingData, GameError>)
  {
    if g.SelectingState? then Ok(g.selecting) else Err(NotSelectingCharactersState)
  }

  /** `round` / `round_mut` */
  function RoundOf(g: GameStateData): (r: Result<RoundData, GameError>)
  {
    if g.RoundState? then Ok(g.round) else Err(NotRoundState)
  }

  /** `results` / `results_mut` */
  function ResultsOf(g: GameStateData): (r: Result<ResultsData, GameError>)
  {
    if g.ResultsState? then Ok(g.results) else Err(NotResultsState)
  }

  /** The number of accessors that succeed on a state. */
  function Successes(g: GameStateData): nat
  {
    (if LobbyOf(g).Ok? then 1 else 0) + (if SelectingOf(g).Ok? then 1 else 0)
    + (if RoundOf(g).Ok? then 1 else 0) + (if ResultsOf(g).Ok? then 1 else 0)
  }

  /**
   * Exactly one accessor succeeds, the one of the current phase, and it
   * hands out that phase's state; each of the others fails with its own
   * `Not…State` error.
   */
  lemma AccessorsMatchPhase(g: GameStateData)
    ensures Successes(g) == 1
    ensures LobbyOf(g).Ok? ==> g == LobbyState(LobbyOf(g).value)
    ensures SelectingOf(g).Ok? ==> g == SelectingState(SelectingOf(g).value)
    ensures RoundOf(g).Ok? ==> g == RoundState(RoundOf(g).value)
    ensures ResultsOf(g).Ok? ==> g == ResultsState(ResultsOf(g).value)
    ensures LobbyOf(g).Err? ==> LobbyOf(g).error == NotLobbyState
    ensures SelectingOf(g).Err? ==> SelectingOf(g).error == NotSelectingCharactersState
    ensures RoundOf(g).Err? ==> RoundOf(g).error == NotRoundState
    ensures ResultsOf(g).Err? ==> ResultsOf(g).error == NotResultsState
  {
  }

  /** A new game is an empty lobby, which holds the lobby invariant. */
  lemma NewGameIsEmptyLobby()
    ensures LobbyOf(NEW_GAME) == Ok([]) && GameInv(NEW_GAME)
  {
  }

  // ------------------------------------------------------------ transitions

  /** The catalogue gives decks that can always be drawn from and a market deck with a market. */
  predicate Playable(cards: DeckList)
  {
    var data := GameDataFrom(cards);
    data.assets.backup != [] && data.liabilities.backup != [] && HasMarket(data.marketDeck.backup)
  }

  /**
   * `start_game`: only from the lobby (otherwise `NotLobbyState`); with four
   * to seven players the lobby becomes the first draft, dealt from the
   * catalogue's decks.
   */
  function StartedGameState(g: GameStateData, cards: DeckList): (res: Result<(GameStateData, ()), GameError>)
    requires GameInv(g) && Playable(cards)
    ensures !g.LobbyState? ==> res == Err(NotLobbyState)
  {
    match g
    case LobbyState(l) =>
      if !CanStart(l) then Err(InvalidPlayerCount(AsU8(|l|)))
      else
        LobbyInIdOrder(l);
        var data := GameDataFrom(cards);
        (match StartedGame(l, data.assets, data.liabilities, data.marketDeck)
         case Err(e) => Err(e)
         case Ok(s) => Ok((SelectingState(s), ())))
    case _ => Err(NotLobbyState)
  }

  /**
   * `player_select_character`: only in the draft (otherwise
   * `NotSelectingCharactersState`); the last pick turns the state into the
   * round the draft starts.
   */
  function SelectedState(g: GameStateData, id: PlayerId, c: Character): (res: Result<(GameStateData, ()), GameError>)
    requires GameInv(g)
    ensures !g.SelectingState? ==> res == Err(NotSelectingCharactersState)
  {
    match g
    case SelectingState(s) =>
      (match SelectedInPhase(s, id, c)
       case Err(e) => Err(e)
       case Ok((t, None)) => Ok((SelectingState(t), ()))
       case Ok((_, Some(r))) => Ok((RoundState(r), ())))
    case _ => Err(NotSelectingCharactersState)
  }

  /** The state a round hands over to: the next draft, or the results on the round's current market. */
  function Entered(r: RoundData, next: NextPhase): GameStateData
  {
    match next
    case ToSelecting(players, draft, assets, liabilities, markets, chairman, market, events) =>
      SelectingState(SelectingData(players, draft, assets, liabilities, markets, chairman, market, events))
    case ToResults(players, events) =>
      ResultsState(ResultsData(players, r.currentMarket, events))
  }

  /**
   * `end_player_turn`: only in a round (otherwise `NotRoundState`). When the
   * round hands over, the state becomes the new phase and the answer is
   * that nobody is next and the game has ended.
   */
  function EndedTurnState(g: GameStateData, id: PlayerId): (res: Result<(GameStateData, TurnEnded), GameError>)
    requires GameInv(g)
    ensures !g.RoundState? ==> res == Err(NotRoundState)
  {
    match g
    case RoundState(r) =>
      (match EndedTurn(r, id)
       case Err(e) => Err(e)
       case Ok((q, Left(te))) => Ok((RoundState(q), te))
       case Ok((_, Right(next))) => Ok((Entered(r, next), TurnEnded(None, true))))
    case _ => Err(NotRoundState)
  }

  // ----------------------------------------------------------------- lemmas

  /**
   * Starting succeeds exactly in a lobby of four to seven players; the
   * game then is in a well-formed first draft chaired by player 0.
   */
  lemma StartGameKeepsGameInv(g: GameStateData, cards: DeckList)
    requires GameInv(g) && Playable(cards)
    ensures StartedGameState(g, cards).Ok? <==> g.LobbyState? && 4 <= |g.lobby| <= 7
    ensures g.LobbyState? && !CanStart(g.lobby) ==> StartedGameState(g, cards) == Err(InvalidPlayerCount(AsU8(|g.lobby|)))
    ensures StartedGameState(g, cards).Ok? ==> var h := StartedGameState(g, cards).value.0;
      && GameInv(h) && h.SelectingState? && h.selecting.chairman == 0 && h.selecting.draft.drawIdx == 0
  {
    if g.LobbyState? && CanStart(g.lobby) {
      var data := GameDataFrom(cards);
      LobbyInIdOrder(g.lobby);
      StartGameOutcome(g.lobby, data.assets, data.liabilities, data.marketDeck);
    }
  }

  /**
   * A pick keeps the game well formed; the state becomes a round exactly
   * on the last pick of the draft.
   */
  lemma SelectKeepsGameInv(g: GameStateData, id: PlayerId, c: Character)
    requires GameInv(g)
    ensures SelectedState(g, id, c).Ok? ==> var h := SelectedState(g, id, c).value.0;
      && GameInv(h) && (h.SelectingState? || h.RoundState?)
      && (h.RoundState? <==> g.selecting.draft.drawIdx + 1 == |g.selecting.players|)
      && (h.SelectingState? ==> h.selecting.draft.drawIdx == g.selecting.draft.drawIdx + 1)
  {
    if g.SelectingState? {
      SelectionOutcomes(g.selecting, id, c);
      if SelectedInPhase(g.selecting, id, c).Ok? {
        var t := SelectedInPhase(g.selecting, id, c).value.0;
        PickRemovesOne(g.selecting.draft, c);
        if SelectedInPhase(g.selecting, id, c).value.1.Some? {
          RoundFromDraftEffects(t);
        }
      }
    }
  }

  /**
   * Ending a turn keeps the game well formed. The answer names a next
   * player exactly while the round goes on; when it hands over, the answer
   * is `TurnEnded { next_player: None, game_ended: true }`, and the game is
   * in the results exactly when that was the final round.
   */
  lemma EndTurnKeepsGameInv(g: GameStateData, id: PlayerId)
    requires GameInv(g)
    ensures EndedTurnState(g, id).Ok? ==> var (h, te) := EndedTurnState(g, id).value;
      && GameInv(h) && !h.LobbyState?
      && (h.RoundState? <==> te.nextPlayer.Some?)
      && (!h.RoundState? ==> te == TurnEnded(None, true))
      && (h.ResultsState? <==> !h.RoundState? && g.round.isFinalRound)
  {
    if g.RoundState? && EndedTurn(g.round, id).Ok? {
      var r := g.round;
      EndTurnEffects(r, id);
      EndTurnKeepsRoundInv(r, id);
      var out := EndedTurn(r, id).value.1;
      if out.Right? {
        match out.right
        case ToSelecting(players, draft, assets, liabilities, markets, chairman, market, events) =>
          EnteredSelectingInv(SelectingData(players, draft, assets, liabilities, markets, chairman, market, events));
        case ToResults(players, events) =>
          FromRoundKeepsResultsInv(r.players, r.currentMarket, events);
      }
    }
  }

  // ---------------------------------------------------------------- the class

  class GameState {
    var state: GameStateData

    /** `GameState::new` */
    constructor ()
      ensures state == NEW_GAME && Valid()
    {
      state := NEW_GAME;
    }

    ghost predicate Valid()
      reads this
    {
      GameInv(state)
    }

    /** `start_game`: the lobby deals from the catalogue's decks and the state becomes the draft. */
    method StartGame(cards: DeckList) returns (res: Result<(), GameError>)
      requires Valid() && Playable(cards)
      modifies this
      ensures Valid()
      ensures Settled(StartedGameState(old(state), cards), res, old(state), state)
    {
      StartGameKeepsGameInv(state, cards);
      if !state.LobbyState? {
        return Err(NotLobbyState);
      }
      var l := state.lobby;
      if !CanStart(l) {
        return Err(InvalidPlayerCount(AsU8(|l|)));
      }
      var lobby := new Lobby.FromData(l);
      var data := GameDataFrom(cards);
      var assets := new Deck.FromData(data.assets);
      var liabilities := new Deck.FromData(data.liabilities);
      var markets := new Deck.FromData(data.marketDeck);
      var started := lobby.StartGame(assets, liabilities, markets);
      if started.Err? {
        assert false;
      }
      state := SelectingState(started.value.Data());
      return Ok(());
    }

    /** `player_select_character`: a pick in the draft; the last one starts the round. */
    method PlayerSelectCharacter(id: PlayerId, c: Character) returns (res: Result<(), GameError>)
      requires Valid()
      modifies this
      ensures Valid()
      ensures Settled(SelectedState(old(state), id, c), res, old(state), state)
    {
      SelectKeepsGameInv(state, id, c);
      if !state.SelectingState? {
        return Err(NotSelectingCharactersState);
      }
      var selecting := new SelectingCharacters.FromData(state.selecting);
      var picked := selecting.PlayerSelectCharacter(id, c);
      if picked.Err? {
        return Err(picked.error);
      }
      match picked.value {
        case Some(round) => state := RoundState(round.Data());
        case None => state := SelectingState(selecting.Data());
      }
      return Ok(());
    }

    /** `end_player_turn`: the turn passes on, or the state becomes the phase the round hands over to. */
    method EndPlayerTurn(id: PlayerId) returns (res: Result<TurnEnded, GameError>)
      requires Valid()
      modifies this
      ensures Valid()
      ensures Settled(EndedTurnState(old(state), id), res, old(state), state)
    {
      EndTurnKeepsGameInv(state, id);
      if !state.RoundState? {
        return Err(NotRoundState);
      }
      ghost var r := state.round;
      var round := new Round.FromData(state.round);
      var ended := round.EndPlayerTurn(id);
      if ended.Err? {
        return Err(ended.error);
      }
      match ended.value {
        case Left(te) =>
          state := RoundState(round.Data());
          return Ok(te);
        case Right(ToSelecting(players, draft, assets, liabilities, markets, chairman, market, events)) =>
          state := SelectingState(SelectingData(players, draft, assets, liabilities, markets, chairman, market, events));
        case Right(ToResults(players, events)) =>
          state := ResultsState(ResultsData(players, round.currentMarket, events));
      }
      return Ok(TurnEnded(None, true));
    }
  }
}
