// The server's request handlers (server/src/request_handler.rs). A handler
// runs one operation of the game and answers with a direct response for the
// player who asked and a map from player id to the notifications the other
// players (or all players) receive. Each handler is a function from the game
// state to the new state and the response; the `Handle…` methods perform
// the operation on a `GameState` object and are proved to produce exactly
// that outcome. A failed operation ends the handler before any map is
// built, so a rejected action notifies nobody.
module RequestHandler {
  import opened Wrappers
  import opened Vocabulary
  import opened Errors
  import opened PlayerRules
  import opened PlayerRecords
  import opened RoundPlayers
  import opened RoundRules
  import opened Rounds
  import opened Draft
  import opened SelectingPhase
  import opened Results
  import opened Lobbies
  import opened Cards
  import opened Games
  import opened PlayerLists

  /** `UniqueResponse`: a notification one player receives. */
  datatype UniqueResponse =
    | StartGame(id: PlayerId, hand: seq<Card>, cash: nat, playerInfo: seq<PlayerInfo>, initialMarket: Market)
    | SelectingCharacters(chairmanId: PlayerId, selectableCharacters: Option<seq<Character>>,
                          openCharacters: seq<Character>, closedCharacter: Option<Character>, turnOrder: seq<PlayerId>)
    | SelectedCharacter(currentlyPickingId: Option<PlayerId>, selectableCharacters: Option<seq<Character>>,
                        closedCharacter: Option<Character>)
    | TurnStarts(playerTurn: PlayerId, playerTurnCash: nat, playerCharacter: Character, drawsNCards: U8,
                 givesBackNCards: nat, playableAssets: PlayableAssets, playableLiabilities: U8,
                 skippedCharacters: seq<Character>)
    | DrewCard(playerId: PlayerId, cardType: CardType)
    | PutBackCard(playerId: PlayerId, cardType: CardType)
    | BoughtAsset(playerId: PlayerId, cardIdx: nat, asset: Asset, marketChange: Option<MarketChange>)
    | IssuedLiability(playerId: PlayerId, cardIdx: nat, liability: Liability)
    | SwappedWithPlayer(regulatorId: PlayerId, targetId: PlayerId)
    | RegulatorSwappedYourCards(newCards: seq<Card>)
    | GameEnded(scores: seq<PlayerScore>)

  /** `DirectResponse`: the answer to the player who made the request. */
  datatype DirectResponse =
    | YouStartedGame
    | YouDrewCard(card: Card, canDrawCards: bool, canGiveBackCards: bool)
    | YouPutBackCard(cardIdx: nat, canDrawCards: bool, canGiveBackCards: bool)
    | YouBoughtAsset(asset: Asset, cardIdx: nat, marketChange: Option<MarketChange>)
    | YouIssuedLiability(liability: Liability, cardIdx: nat)
    | YouSelectedCharacter(character: Character)
    | YouSwapPlayer(newCards: seq<Card>, targetPlayerId: PlayerId)
    | YouEndedTurn
    | YouAreFiringSomeone(characters: seq<Character>, character: Character)
    | YouAreTerminatingSomeone(characters: seq<Character>, character: Character)
    | YouRegulatorOptions(options: seq<RegulatorSwapPlayer>, character: Character)
    | YouCharacterAbility(character: Character)
    | YouAreDivesting(divestOptions: seq<DivestPlayer>, character: Character)

  /** `InternalResponse`: the notifications for each player, by id. */
  type InternalResponse = map<PlayerId, seq<UniqueResponse>>

  /** `Response`: the notifications for the others and the direct answer. */
  datatype Response = Response(internal: InternalResponse, direct: DirectResponse)

  /** `InternalResponse::get_responses`: the notifications stored for `id`, or None. */
  function GetResponses(m: InternalResponse, id: PlayerId): (r: Option<seq<UniqueResponse>>)
    ensures r.Some? <==> id in m
    ensures r.Some? ==> r.value == m[id]
  {
    if id in m then Some(m[id]) else None
  }

  // ------------------------------------------------------- recipient maps

  /** `players().iter().filter(|p| p.id() != actor).map(|p| (p.id(), vec![note])).collect()` */
  function RoundOthers(players: seq<RoundPlayerData>, actor: PlayerId, note: UniqueResponse): InternalResponse
  {
    map i | 0 <= i < |players| && players[i].id != actor :: players[i].id := [note]
  }

  /** The same, leaving out two players. */
  function RoundBystanders(players: seq<RoundPlayerData>, a: PlayerId, b: PlayerId, note: UniqueResponse): InternalResponse
  {
    map i | 0 <= i < |players| && players[i].id != a && players[i].id != b :: players[i].id := [note]
  }

  /** The same notification for every player of a round. */
  function RoundEveryone(players: seq<RoundPlayerData>, note: UniqueResponse): InternalResponse
  {
    map i | 0 <= i < |players| :: players[i].id := [note]
  }

  /** The same notification for every player of the results. */
  function ResultsEveryone(players: seq<ResultsPlayerData>, note: UniqueResponse): InternalResponse
  {
    map i | 0 <= i < |players| :: players[i].id := [note]
  }

  /** The draft as the player `id` sees it: its own offer and closed character, if any. */
  function SelectingView(s: SelectingData, id: PlayerId): UniqueResponse
    requires s.draft.playerCount >= 1
  {
    SelectingCharacters(s.chairman, ResultOk(SelectableCharacters(s, id)), s.draft.open,
                        ResultOk(ClosedCharacter(s, id)), TurnOrder(s.chairman, |s.players|))
  }

  /** A pick as the player `id` sees it: who picks next, and its own offer. */
  function SelectedView(s: SelectingData, id: PlayerId): UniqueResponse
    requires s.draft.playerCount >= 1
  {
    SelectedCharacter(Some(CurrentlySelectingId(s)), ResultOk(SelectableCharacters(s, id)), ResultOk(ClosedCharacter(s, id)))
  }

  /** Every player of the draft gets its own view of it. */
  function SelectingViews(s: SelectingData): InternalResponse
    requires s.draft.playerCount >= 1
  {
    map i | 0 <= i < |s.players| :: s.players[i].id := [SelectingView(s, s.players[i].id)]
  }

  /** Every player of the draft gets its own view of the pick. */
  function SelectedViews(s: SelectingData): InternalResponse
    requires s.draft.playerCount >= 1
  {
    map i | 0 <= i < |s.players| :: s.players[i].id := [SelectedView(s, s.players[i].id)]
  }

  /** What the player at position `i` learns when the game starts. */
  function StartGameView(s: SelectingData, i: nat): UniqueResponse
    requires i < |s.players|
  {
    var p := s.players[i];
    StartGame(p.id, p.hand, p.cash, SelectingOthersInfo(s.players, p.id), s.currentMarket)
  }

  /** Every player of the first draft gets its start and its view of the draft. */
  function StartGameViews(s: SelectingData): InternalResponse
    requires SelectingInv(s)
  {
    map i | 0 <= i < |s.players| :: s.players[i].id := [StartGameView(s, i), SelectingView(s, s.players[i].id)]
  }

  /** `turn_starts`: the current player's turn, as everyone sees it. */
  function TurnStartsView(r: RoundData): UniqueResponse
    requires r.currentPlayer < |r.players|
  {
    var p := r.players[r.currentPlayer];
    TurnStarts(p.id, TurnCash(p), p.character, DrawsNCards(p.character), GivesBackNCards(p), p.playableAssets,
               PlayableLiabilities(p.character), SkippedCharacters(r))
  }

  // ------------------------------------------------- who is notified of what

  /** With ids at their positions, every player but `actor` gets the note once, and nobody else. */
  lemma RoundOthersReachOthers(players: seq<RoundPlayerData>, actor: PlayerId, note: UniqueResponse)
    requires forall i :: 0 <= i < |players| ==> players[i].id == i
    ensures forall j: PlayerId :: GetResponses(RoundOthers(players, actor, note), j)
                                  == (if j < |players| && j != actor then Some([note]) else None)
  {
    forall j: PlayerId
      ensures GetResponses(RoundOthers(players, actor, note), j) == (if j < |players| && j != actor then Some([note]) else None)
    {
      if j < |players| && j != actor {
        assert players[j].id == j;
      }
    }
  }

  /** With ids at their positions, every player but `a` and `b` gets the note once, and nobody else. */
  lemma RoundBystandersReachBystanders(players: seq<RoundPlayerData>, a: PlayerId, b: PlayerId, note: UniqueResponse)
    requires forall i :: 0 <= i < |players| ==> players[i].id == i
    ensures forall j: PlayerId :: GetResponses(RoundBystanders(players, a, b, note), j)
                                  == (if j < |players| && j != a && j != b then Some([note]) else None)
  {
    forall j: PlayerId
      ensures GetResponses(RoundBystanders(players, a, b, note), j) == (if j < |players| && j != a && j != b then Some([note]) else None)
    {
      if j < |players| && j != a && j != b {
        assert players[j].id == j;
      }
    }
  }

  /** With ids at their positions, every round player gets the note once, and nobody else. */
  lemma RoundEveryoneReachesAll(players: seq<RoundPlayerData>, note: UniqueResponse)
    requires forall i :: 0 <= i < |players| ==> players[i].id == i
    ensures forall j: PlayerId :: GetResponses(RoundEveryone(players, note), j) == (if j < |players| then Some([note]) else None)
  {
    forall j: PlayerId
      ensures GetResponses(RoundEveryone(players, note), j) == (if j < |players| then Some([note]) else None)
    {
      if j < |players| {
        assert players[j].id == j;
      }
    }
  }

  /** With ids at their positions, every player of the results gets the note once, and nobody else. */
  lemma ResultsEveryoneReachesAll(players: seq<ResultsPlayerData>, note: UniqueResponse)
    requires forall i :: 0 <= i < |players| ==> players[i].id == i
    ensures forall j: PlayerId :: GetResponses(ResultsEveryone(players, note), j) == (if j < |players| then Some([note]) else None)
  {
    forall j: PlayerId
      ensures GetResponses(ResultsEveryone(players, note), j) == (if j < |players| then Some([note]) else None)
    {
      if j < |players| {
        assert players[j].id == j;
      }
    }
  }

  /**
   * A view of the draft hides the others' options: only the current picker
   * is shown what it may choose, and only the chairman, on the first pick,
   * sees the closed character.
   */
  lemma SelectingViewIsPrivate(s: SelectingData, id: PlayerId)
    requires SelectingInv(s) && id < |s.players|
    ensures SelectingView(s, id).selectableCharacters.Some? ==> id == CurrentlySelectingId(s)
    ensures SelectingView(s, id).closedCharacter.Some? ==> id == s.chairman && s.draft.drawIdx == 0
    ensures SelectedView(s, id).selectableCharacters == SelectingView(s, id).selectableCharacters
    ensures SelectedView(s, id).closedCharacter == SelectingView(s, id).closedCharacter
  {
    if ClosedCharacter(s, id).Ok? {
      OnlyChairmanSeesClosed(s, id);
    }
  }

  /** With ids at their positions, every player of the draft gets exactly its own view. */
  lemma SelectingViewsPerPlayer(s: SelectingData)
    requires SelectingInv(s)
    ensures forall j: PlayerId :: GetResponses(SelectingViews(s), j) == (if j < |s.players| then Some([SelectingView(s, j)]) else None)
    ensures forall j: PlayerId :: GetResponses(SelectedViews(s), j) == (if j < |s.players| then Some([SelectedView(s, j)]) else None)
  {
    forall j: PlayerId
      ensures GetResponses(SelectingViews(s), j) == (if j < |s.players| then Some([SelectingView(s, j)]) else None)
      ensures GetResponses(SelectedViews(s), j) == (if j < |s.players| then Some([SelectedView(s, j)]) else None)
    {
      if j < |s.players| {
        assert s.players[j].id == j;
      }
    }
  }

  /** With ids at their positions, every player of the first draft gets its start message and its view. */
  lemma StartGameViewsPerPlayer(s: SelectingData)
    requires SelectingInv(s)
    ensures forall j: PlayerId :: GetResponses(StartGameViews(s), j)
                                  == (if j < |s.players| then Some([StartGameView(s, j), SelectingView(s, j)]) else None)
  {
    forall j: PlayerId
      ensures GetResponses(StartGameViews(s), j) == (if j < |s.players| then Some([StartGameView(s, j), SelectingView(s, j)]) else None)
    {
      if j < |s.players| {
        assert s.players[j].id == j;
      }
    }
  }

  // --------------------------------------------------------------- handlers

  /** `start_game`: the lobby becomes the first draft; everyone gets its hand and its view of the draft. */
  function StartGameHandled(g: GameStateData, cards: DeckList): (res: Result<(GameStateData, Response), GameError>)
    requires GameInv(g) && Games.Playable(cards)
  {
    match StartedGameState(g, cards)
    case Err(e) => Err(e)
    case Ok((h, _)) =>
      StartGameKeepsGameInv(g, cards);
      (match SelectingOf(h)
       case Err(e) => Err(e)
       case Ok(s) => Ok((h, Response(StartGameViews(s), YouStartedGame))))
  }

  /** The answer to a draw, once the drawn card is known. */
  function DrawCardReply(q: RoundData, id: PlayerId, kind: CardType, card: Card): Response
    requires id < |q.players|
  {
    Response(RoundOthers(q.players, id, DrewCard(id, kind)),
             YouDrewCard(card, CanDrawCards(q.players[id]), ShouldGiveBackCards(q.players[id])))
  }

  /** `draw_card` */
  function DrawCardHandled(g: GameStateData, kind: CardType, id: PlayerId): (res: Result<(GameStateData, Response), GameError>)
    requires GameInv(g)
  {
    match RoundOf(g)
    case Err(e) => Err(e)
    case Ok(r) =>
      (match DrewInRound(r, id, kind)
       case Err(e) => Err(e)
       case Ok((q, card)) => Ok((RoundState(q), DrawCardReply(q, id, kind, card))))
  }

  /** The answer to a give-back, once the kind of the card is known. */
  function PutBackCardReply(q: RoundData, id: PlayerId, cardIdx: nat, kind: CardType): Response
    requires id < |q.players|
  {
    Response(RoundOthers(q.players, id, PutBackCard(id, kind)),
             YouPutBackCard(cardIdx, CanDrawCards(q.players[id]), ShouldGiveBackCards(q.players[id])))
  }

  /** `put_back_card` */
  function PutBackCardHandled(g: GameStateData, cardIdx: nat, id: PlayerId): (res: Result<(GameStateData, Response), GameError>)
    requires GameInv(g)
  {
    match RoundOf(g)
    case Err(e) => Err(e)
    case Ok(r) =>
      (match GaveBackInRound(r, id, cardIdx)
       case Err(e) => Err(e)
       case Ok((q, kind)) => Ok((RoundState(q), PutBackCardReply(q, id, cardIdx, kind))))
  }

  /** The answer to playing a card: a bought asset or an issued liability, told to everyone. */
  function PlayCardReply(q: RoundData, id: PlayerId, cardIdx: nat, played: PlayerPlayedCard): Response
  {
    match played.usedCard
    case Left(asset) =>
      Response(RoundOthers(q.players, id, BoughtAsset(id, cardIdx, asset, played.market)),
               YouBoughtAsset(asset, cardIdx, played.market))
    case Right(liability) =>
      Response(RoundOthers(q.players, id, IssuedLiability(id, cardIdx, liability)),
               YouIssuedLiability(liability, cardIdx))
  }

  /** `play_card` */
  function PlayCardHandled(g: GameStateData, cardIdx: nat, id: PlayerId): (res: Result<(GameStateData, Response), GameError>)
    requires GameInv(g)
  {
    match RoundOf(g)
    case Err(e) => Err(e)
    case Ok(r) =>
      (match PlayedInRound(r, id, cardIdx)
       case Err(e) => Err(e)
       case Ok((q, played)) => Ok((RoundState(q), PlayCardReply(q, id, cardIdx, played))))
  }

  /** The answer to a pick, from the state the pick leads to. */
  function SelectCharacterReply(h: GameStateData, c: Character): (res: Result<Response, GameError>)
    requires GameInv(h)
  {
    match h
    case LobbyState(_) => Err(NotAvailableInLobbyState)
    case SelectingState(s) => Ok(Response(SelectedViews(s), YouSelectedCharacter(c)))
    case RoundState(r) => Ok(Response(RoundEveryone(r.players, TurnStartsView(r)), YouSelectedCharacter(c)))
    case ResultsState(_) => Err(NotAvailableInResultsState)
  }

  /** `select_character` */
  function SelectCharacterHandled(g: GameStateData, id: PlayerId, c: Character): (res: Result<(GameStateData, Response), GameError>)
    requires GameInv(g)
  {
    match SelectedState(g, id, c)
    case Err(e) => Err(e)
    case Ok((h, _)) =>
      SelectKeepsGameInv(g, id, c);
      (match SelectCharacterReply(h, c)
       case Err(e) => Err(e)
       case Ok(resp) => Ok((h, resp)))
  }

  /**
   * The answer to a swap of hands: the bystanders learn who swapped with
   * whom, the target alone gets its new hand, the regulator gets its own.
   */
  function SwapWithPlayerReply(q: RoundData, id: PlayerId, targetId: PlayerId, hands: HandsAfterSwap): Response
  {
    Response(RoundBystanders(q.players, id, targetId, SwappedWithPlayer(id, targetId))[targetId := [RegulatorSwappedYourCards(hands.targetNewHand)]],
             YouSwapPlayer(hands.regulatorNewHand, targetId))
  }

  /** `swap_with_player` */
  function SwapWithPlayerHandled(g: GameStateData, id: PlayerId, targetId: PlayerId): (res: Result<(GameStateData, Response), GameError>)
    requires GameInv(g)
  {
    match RoundOf(g)
    case Err(e) => Err(e)
    case Ok(r) =>
      (match SwappedWithPlayerInRound(r, id, targetId)
       case Err(e) => Err(e)
       case Ok((q, hands)) => Ok((RoundState(q), SwapWithPlayerReply(q, id, targetId, hands))))
  }

  /**
   * The answer to the end of a turn, from the state it leads to: the next
   * turn, each player's view of the next draft, or everyone's scores
   * (`score` is the score of a player, which the model leaves open).
   */
  function EndTurnReply(h: GameStateData, score: ResultsPlayerData -> real): (res: Result<Response, GameError>)
    requires GameInv(h)
  {
    match h
    case LobbyState(_) => Err(NotAvailableInLobbyState)
    case SelectingState(s) => Ok(Response(SelectingViews(s), YouEndedTurn))
    case RoundState(r) => Ok(Response(RoundEveryone(r.players, TurnStartsView(r)), YouEndedTurn))
    case ResultsState(res) => Ok(Response(ResultsEveryone(res.players, GameEnded(PlayerScores(res.players, score))), YouEndedTurn))
  }

  /** `end_turn` */
  function EndTurnHandled(g: GameStateData, id: PlayerId, score: ResultsPlayerData -> real): (res: Result<(GameStateData, Response), GameError>)
    requires GameInv(g)
  {
    match EndedTurnState(g, id)
    case Err(e) => Err(e)
    case Ok((h, _)) =>
      EndTurnKeepsGameInv(g, id);
      (match EndTurnReply(h, score)
       case Err(e) => Err(e)
       case Ok(resp) => Ok((h, resp)))
  }

  /** What the current player is told about its character's ability; nobody else is told anything. */
  function AbilityReply(r: RoundData, id: PlayerId, c: Character): (res: Result<Response, GameError>)
  {
    match c
    case Shareholder => Ok(Response(map[], YouAreFiringSomeone(FireableCharacters(r), Shareholder)))
    case Banker => Ok(Response(map[], YouAreTerminatingSomeone(FireableCharacters(r), Banker)))
    case Regulator => Ok(Response(map[], YouRegulatorOptions(RegulatorSwapPlayers(r.players), Regulator)))
    case Stakeholder =>
      (match DivestAssets(r, id)
       case Err(e) => Err(e)
       case Ok(options) => Ok(Response(map[], YouAreDivesting(options, Stakeholder))))
    case _ => Ok(Response(map[], YouCharacterAbility(c)))
  }

  /**
   * `use_ability`: outside a round `NotRoundState`, for an unknown id
   * `InvalidPlayerIndex(id)`, for a player whose turn it is not
   * `InvalidPlayerIndex(0)`; the state does not change.
   */
  function UseAbilityHandled(g: GameStateData, id: PlayerId): (res: Result<Response, GameError>)
    requires GameInv(g)
  {
    match RoundOf(g)
    case Err(e) => Err(e)
    case Ok(r) =>
      (match PlayerAt(r.players, id)
       case Err(e) => Err(e)
       case Ok(p) =>
         if r.players[r.currentPlayer].id != p.id then Err(InvalidPlayerIndex(0))
         else AbilityReply(r, id, p.character))
  }

  // ------------------------------------------------------- handler lemmas

  /**
   * `draw_card` fails exactly when the draw does, with its error. Otherwise
   * the drawn card goes only to the drawer; each other player learns, once,
   * who drew and from which deck, and nothing about the card.
   */
  lemma DrawCardIsAnonymous(g: GameStateData, kind: CardType, id: PlayerId)
    requires GameInv(g)
    ensures DrawCardHandled(g, kind, id).Ok? <==> g.RoundState? && DrewInRound(g.round, id, kind).Ok?
    ensures !g.RoundState? ==> DrawCardHandled(g, kind, id) == Err(NotRoundState)
    ensures g.RoundState? && DrewInRound(g.round, id, kind).Err? ==>
      DrawCardHandled(g, kind, id) == Err(DrewInRound(g.round, id, kind).error)
    ensures DrawCardHandled(g, kind, id).Ok? ==>
      var (h, resp) := DrawCardHandled(g, kind, id).value;
      var (q, card) := DrewInRound(g.round, id, kind).value;
      && h == RoundState(q) && resp.direct.YouDrewCard? && resp.direct.card == card
      && (card.Left? <==> kind == AssetCard)
      && forall j: PlayerId :: GetResponses(resp.internal, j)
                               == (if j < |g.round.players| && j != id then Some([DrewCard(id, kind)]) else None)
  {
    if g.RoundState? && DrewInRound(g.round, id, kind).Ok? {
      DrawKeepsRoundInv(g.round, id, kind);
      RoundOthersReachOthers(DrewInRound(g.round, id, kind).value.0.players, id, DrewCard(id, kind));
    }
  }

  /**
   * `put_back_card` fails exactly when the give-back does. Otherwise each
   * other player learns, once, who gave back a card of which kind; the
   * position in the hand goes only to the player who gave it back.
   */
  lemma PutBackCardIsAnonymous(g: GameStateData, cardIdx: nat, id: PlayerId)
    requires GameInv(g)
    ensures PutBackCardHandled(g, cardIdx, id).Ok? <==> g.RoundState? && GaveBackInRound(g.round, id, cardIdx).Ok?
    ensures !g.RoundState? ==> PutBackCardHandled(g, cardIdx, id) == Err(NotRoundState)
    ensures g.RoundState? && GaveBackInRound(g.round, id, cardIdx).Err? ==>
      PutBackCardHandled(g, cardIdx, id) == Err(GaveBackInRound(g.round, id, cardIdx).error)
    ensures PutBackCardHandled(g, cardIdx, id).Ok? ==>
      var (h, resp) := PutBackCardHandled(g, cardIdx, id).value;
      var (q, kind) := GaveBackInRound(g.round, id, cardIdx).value;
      && h == RoundState(q) && resp.direct.YouPutBackCard? && resp.direct.cardIdx == cardIdx
      && kind == KindOf(GivenBack(g.round.players[id], cardIdx).value.1)
      && forall j: PlayerId :: GetResponses(resp.internal, j)
                               == (if j < |g.round.players| && j != id then Some([PutBackCard(id, kind)]) else None)
  {
    if g.RoundState? && GaveBackInRound(g.round, id, cardIdx).Ok? {
      GiveBackKeepsRoundInv(g.round, id, cardIdx);
      var (q, kind) := GaveBackInRound(g.round, id, cardIdx).value;
      RoundOthersReachOthers(q.players, id, PutBackCard(id, kind));
    }
  }

  /**
   * `play_card` fails exactly when playing does. Otherwise the played card
   * is public: every other player is told, once, the asset bought (with the
   * market change it caused) or the liability issued, and the player gets
   * the same card back.
   */
  lemma PlayCardIsPublic(g: GameStateData, cardIdx: nat, id: PlayerId)
    requires GameInv(g)
    ensures PlayCardHandled(g, cardIdx, id).Ok? <==> g.RoundState? && PlayedInRound(g.round, id, cardIdx).Ok?
    ensures !g.RoundState? ==> PlayCardHandled(g, cardIdx, id) == Err(NotRoundState)
    ensures g.RoundState? && PlayedInRound(g.round, id, cardIdx).Err? ==>
      PlayCardHandled(g, cardIdx, id) == Err(PlayedInRound(g.round, id, cardIdx).error)
    ensures PlayCardHandled(g, cardIdx, id).Ok? ==>
      var (h, resp) := PlayCardHandled(g, cardIdx, id).value;
      var (q, played) := PlayedInRound(g.round, id, cardIdx).value;
      var note := if played.usedCard.Left? then BoughtAsset(id, cardIdx, played.usedCard.left, played.market)
                  else IssuedLiability(id, cardIdx, played.usedCard.right);
      && h == RoundState(q)
      && played.usedCard == Played(g.round.players[id], cardIdx).value.1
      && (played.usedCard.Left? ==> resp.direct == YouBoughtAsset(played.usedCard.left, cardIdx, played.market))
      && (played.usedCard.Right? ==> resp.direct == YouIssuedLiability(played.usedCard.right, cardIdx) && played.market.None?)
      && forall j: PlayerId :: GetResponses(resp.internal, j)
                               == (if j < |g.round.players| && j != id then Some([note]) else None)
  {
    if g.RoundState? && PlayedInRound(g.round, id, cardIdx).Ok? {
      PlayKeepsRoundInv(g.round, id, cardIdx);
      PlayCardEffects(g.round, id, cardIdx);
      var (q, played) := PlayedInRound(g.round, id, cardIdx).value;
      var note := if played.usedCard.Left? then BoughtAsset(id, cardIdx, played.usedCard.left, played.market)
                  else IssuedLiability(id, cardIdx, played.usedCard.right);
      RoundOthersReachOthers(q.players, id, note);
    }
  }

  /**
   * `select_character` fails exactly when the pick does. While the draft
   * goes on, every player, the picker included, gets its own view of the
   * draft, in which only the next picker sees an offer; once the round
   * starts, every player is told whose turn it is.
   */
  lemma SelectCharacterViews(g: GameStateData, id: PlayerId, c: Character)
    requires GameInv(g)
    ensures SelectCharacterHandled(g, id, c).Ok? <==> SelectedState(g, id, c).Ok?
    ensures SelectedState(g, id, c).Err? ==> SelectCharacterHandled(g, id, c) == Err(SelectedState(g, id, c).error)
    ensures SelectCharacterHandled(g, id, c).Ok? ==>
      var (h, resp) := SelectCharacterHandled(g, id, c).value;
      && h == SelectedState(g, id, c).value.0 && resp.direct == YouSelectedCharacter(c)
      && (h.SelectingState? ==>
            forall j: PlayerId :: GetResponses(resp.internal, j)
                                  == (if j < |h.selecting.players| then Some([SelectedView(h.selecting, j)]) else None))
      && (h.SelectingState? ==>
            forall j: PlayerId :: j < |h.selecting.players| && j != CurrentlySelectingId(h.selecting) ==>
              SelectedView(h.selecting, j).selectableCharacters.None?)
      && (h.RoundState? ==>
            && h.round.currentPlayer < |h.round.players|
            && TurnStartsView(h.round).playerTurn == h.round.currentPlayer
            && forall j: PlayerId :: GetResponses(resp.internal, j)
                                     == (if j < |h.round.players| then Some([TurnStartsView(h.round)]) else None))
  {
    SelectKeepsGameInv(g, id, c);
    if SelectedState(g, id, c).Ok? {
      var h := SelectedState(g, id, c).value.0;
      if h.SelectingState? {
        SelectingViewsPerPlayer(h.selecting);
        forall j: PlayerId | j < |h.selecting.players| && j != CurrentlySelectingId(h.selecting)
          ensures SelectedView(h.selecting, j).selectableCharacters.None?
        {
          SelectingViewIsPrivate(h.selecting, j);
        }
      } else {
        RoundEveryoneReachesAll(h.round.players, TurnStartsView(h.round));
      }
    }
  }

  /**
   * `swap_with_player` fails exactly when the swap does. Otherwise the
   * bystanders are told once who swapped with whom, the target alone
   * receives its new hand (the regulator's old one), the regulator is told
   * nothing in the map and gets the target's old hand directly.
   */
  lemma SwapWithPlayerNotifies(g: GameStateData, id: PlayerId, targetId: PlayerId)
    requires GameInv(g)
    ensures SwapWithPlayerHandled(g, id, targetId).Ok? <==> g.RoundState? && SwappedWithPlayerInRound(g.round, id, targetId).Ok?
    ensures !g.RoundState? ==> SwapWithPlayerHandled(g, id, targetId) == Err(NotRoundState)
    ensures g.RoundState? && SwappedWithPlayerInRound(g.round, id, targetId).Err? ==>
      SwapWithPlayerHandled(g, id, targetId) == Err(SwappedWithPlayerInRound(g.round, id, targetId).error)
    ensures SwapWithPlayerHandled(g, id, targetId).Ok? ==>
      var (h, resp) := SwapWithPlayerHandled(g, id, targetId).value;
      var r := g.round;
      && id < |r.players| && targetId < |r.players| && id != targetId
      && h == RoundState(SwappedWithPlayerInRound(r, id, targetId).value.0)
      && resp.direct == YouSwapPlayer(r.players[targetId].hand, targetId)
      && GetResponses(resp.internal, targetId) == Some([RegulatorSwappedYourCards(r.players[id].hand)])
      && GetResponses(resp.internal, id) == None
      && forall j: PlayerId :: j != targetId ==>
           GetResponses(resp.internal, j)
           == (if j < |r.players| && j != id then Some([SwappedWithPlayer(id, targetId)]) else None)
  {
    if g.RoundState? && SwappedWithPlayerInRound(g.round, id, targetId).Ok? {
      var r := g.round;
      SwapWithPlayerKeepsRoundInv(r, id, targetId);
      SwapWithPlayerExchangesHands(r, id, targetId);
      var q := SwappedWithPlayerInRound(r, id, targetId).value.0;
      var bystanders := RoundBystanders(q.players, id, targetId, SwappedWithPlayer(id, targetId));
      RoundBystandersReachBystanders(q.players, id, targetId, SwappedWithPlayer(id, targetId));
      var m := bystanders[targetId := [RegulatorSwappedYourCards(q.players[targetId].hand)]];
      forall j: PlayerId | j != targetId
        ensures GetResponses(m, j) == GetResponses(bystanders, j)
      {
      }
    }
  }

  /**
   * `end_turn` fails exactly when ending the turn does. When the round goes
   * on, everyone is told whose turn it is; when a new draft begins, every
   * player gets its own view of it; when the game ends, every player gets
   * the same list of scores, one per player.
   */
  lemma EndTurnNotifies(g: GameStateData, id: PlayerId, score: ResultsPlayerData -> real)
    requires GameInv(g)
    ensures EndTurnHandled(g, id, score).Ok? <==> EndedTurnState(g, id).Ok?
    ensures EndedTurnState(g, id).Err? ==> EndTurnHandled(g, id, score) == Err(EndedTurnState(g, id).error)
    ensures EndTurnHandled(g, id, score).Ok? ==>
      var (h, resp) := EndTurnHandled(g, id, score).value;
      && h == EndedTurnState(g, id).value.0 && resp.direct == YouEndedTurn
      && (h.RoundState? ==>
            && h.round.currentPlayer < |h.round.players|
            && EndedTurnState(g, id).value.1.nextPlayer == Some(TurnStartsView(h.round).playerTurn)
            && forall j: PlayerId :: GetResponses(resp.internal, j)
                                     == (if j < |h.round.players| then Some([TurnStartsView(h.round)]) else None))
      && (h.SelectingState? ==>
            forall j: PlayerId :: GetResponses(resp.internal, j)
                                  == (if j < |h.selecting.players| then Some([SelectingView(h.selecting, j)]) else None))
      && (h.ResultsState? ==>
            && |PlayerScores(h.results.players, score)| == |h.results.players|
            && forall j: PlayerId :: GetResponses(resp.internal, j)
                                     == (if j < |h.results.players| then Some([GameEnded(PlayerScores(h.results.players, score))]) else None))
  {
    EndTurnKeepsGameInv(g, id);
    if EndedTurnState(g, id).Ok? {
      var h := EndedTurnState(g, id).value.0;
      match h
      case RoundState(r) =>
        EndTurnEffects(g.round, id);
        RoundEveryoneReachesAll(r.players, TurnStartsView(r));
      case SelectingState(s) =>
        SelectingViewsPerPlayer(s);
      case ResultsState(res) =>
        ResultsEveryoneReachesAll(res.players, GameEnded(PlayerScores(res.players, score)));
    }
  }

  /**
   * `start_game` succeeds exactly in a lobby of four to seven players. Every
   * player then gets its own hand and cash, the others' public views and the
   * first market, followed by its view of the draft, in which only the
   * chairman, player 0, sees an offer and the closed character.
   */
  lemma StartGameViewsArePrivate(g: GameStateData, cards: DeckList)
    requires GameInv(g) && Games.Playable(cards)
    ensures StartGameHandled(g, cards).Ok? <==> g.LobbyState? && 4 <= |g.lobby| <= 7
    ensures StartGameHandled(g, cards).Err? ==> StartGameHandled(g, cards) == Err(StartedGameState(g, cards).error)
    ensures StartGameHandled(g, cards).Ok? ==>
      var (h, resp) := StartGameHandled(g, cards).value;
      && h == StartedGameState(g, cards).value.0 && h.SelectingState? && resp.direct == YouStartedGame
      && (forall j: PlayerId :: GetResponses(resp.internal, j)
                                == (if j < |h.selecting.players| then Some([StartGameView(h.selecting, j), SelectingView(h.selecting, j)]) else None))
      && (forall j: PlayerId :: j < |h.selecting.players| ==>
            && StartGameView(h.selecting, j).id == j
            && StartGameView(h.selecting, j).hand == h.selecting.players[j].hand
            && (SelectingView(h.selecting, j).selectableCharacters.Some? ==> j == 0)
            && (SelectingView(h.selecting, j).closedCharacter.Some? ==> j == 0))
  {
    StartGameKeepsGameInv(g, cards);
    if StartGameHandled(g, cards).Ok? {
      var s := StartedGameState(g, cards).value.0.selecting;
      StartGameViewsPerPlayer(s);
      forall j: PlayerId | j < |s.players|
        ensures SelectingView(s, j).selectableCharacters.Some? ==> j == 0
        ensures SelectingView(s, j).closedCharacter.Some? ==> j == 0
      {
        SelectingViewIsPrivate(s, j);
        PickerIsSeat(s.draft);
      }
    }
  }

  /**
   * `use_ability` tells nobody but the player and changes nothing. It
   * succeeds exactly for the player whose turn it is in a round, and the
   * answer depends on its character.
   */
  lemma UseAbilityIsPrivate(g: GameStateData, id: PlayerId)
    requires GameInv(g)
    ensures UseAbilityHandled(g, id).Ok? <==> g.RoundState? && id == g.round.currentPlayer
    ensures UseAbilityHandled(g, id).Ok? ==> UseAbilityHandled(g, id).value.internal == map[]
    ensures !g.RoundState? ==> UseAbilityHandled(g, id) == Err(NotRoundState)
    ensures g.RoundState? && id >= |g.round.players| ==> UseAbilityHandled(g, id) == Err(InvalidPlayerIndex(id))
    ensures g.RoundState? && id < |g.round.players| && id != g.round.currentPlayer ==> UseAbilityHandled(g, id) == Err(InvalidPlayerIndex(0))
    ensures UseAbilityHandled(g, id).Ok? ==>
      var c := g.round.players[id].character; var d := UseAbilityHandled(g, id).value.direct;
      && (c == Shareholder ==> d == YouAreFiringSomeone(FireableCharacters(g.round), Shareholder))
      && (c == Banker ==> d == YouAreTerminatingSomeone(FireableCharacters(g.round), Banker))
      && (c == Regulator ==> d == YouRegulatorOptions(RegulatorSwapPlayers(g.round.players), Regulator))
      && (c == Stakeholder ==> d == YouAreDivesting(DivestAssets(g.round, id).value, Stakeholder))
      && (c in {CEO, CFO, CSO, HeadRnD} ==> d == YouCharacterAbility(c))
  {
  }

  // --------------------------------------------------------- the handlers

  /** `start_game` on the server's game state. */
  method HandleStartGame(game: GameState, cards: DeckList) returns (res: Result<Response, GameError>)
    requires game.Valid() && Games.Playable(cards)
    modifies game
    ensures game.Valid()
    ensures Settled(StartGameHandled(old(game.state), cards), res, old(game.state), game.state)
  {
    ghost var g := game.state;
    StartGameKeepsGameInv(g, cards);
    var started := game.StartGame(cards);
    if started.Err? {
      return Err(started.error);
    }
    var s := game.state.selecting;
    res := Ok(Response(StartGameViews(s), YouStartedGame));
  }

  /** `draw_card` on the server's game state. */
  method HandleDrawCard(game: GameState, kind: CardType, id: PlayerId) returns (res: Result<Response, GameError>)
    requires game.Valid()
    modifies game
    ensures game.Valid()
    ensures Settled(DrawCardHandled(old(game.state), kind, id), res, old(game.state), game.state)
  {
    if !game.state.RoundState? {
      return Err(NotRoundState);
    }
    var round := new Round.FromData(game.state.round);
    var drawn := round.PlayerDrawCard(id, kind);
    if drawn.Err? {
      return Err(drawn.error);
    }
    var q := round.Data();
    game.state := RoundState(q);
    res := Ok(DrawCardReply(q, id, kind, drawn.value));
  }

  /** `put_back_card` on the server's game state. */
  method HandlePutBackCard(game: GameState, cardIdx: nat, id: PlayerId) returns (res: Result<Response, GameError>)
    requires game.Valid()
    modifies game
    ensures game.Valid()
    ensures Settled(PutBackCardHandled(old(game.state), cardIdx, id), res, old(game.state), game.state)
  {
    if !game.state.RoundState? {
      return Err(NotRoundState);
    }
    var round := new Round.FromData(game.state.round);
    var kind := round.PlayerGiveBackCard(id, cardIdx);
    if kind.Err? {
      return Err(kind.error);
    }
    var q := round.Data();
    game.state := RoundState(q);
    res := Ok(PutBackCardReply(q, id, cardIdx, kind.value));
  }

  /** `play_card` on the server's game state. */
  method HandlePlayCard(game: GameState, cardIdx: nat, id: PlayerId) returns (res: Result<Response, GameError>)
    requires game.Valid()
    modifies game
    ensures game.Valid()
    ensures Settled(PlayCardHandled(old(game.state), cardIdx, id), res, old(game.state), game.state)
  {
    if !game.state.RoundState? {
      return Err(NotRoundState);
    }
    var round := new Round.FromData(game.state.round);
    var played := round.PlayerPlayCard(id, cardIdx);
    if played.Err? {
      return Err(played.error);
    }
    var q := round.Data();
    game.state := RoundState(q);
    res := Ok(PlayCardReply(q, id, cardIdx, played.value));
  }

  /** `select_character` on the server's game state. */
  method HandleSelectCharacter(game: GameState, id: PlayerId, c: Character) returns (res: Result<Response, GameError>)
    requires game.Valid()
    modifies game
    ensures game.Valid()
    ensures Settled(SelectCharacterHandled(old(game.state), id, c), res, old(game.state), game.state)
  {
    ghost var g := game.state;
    SelectKeepsGameInv(g, id, c);
    var picked := game.PlayerSelectCharacter(id, c);
    if picked.Err? {
      return Err(picked.error);
    }
    res := SelectCharacterReply(game.state, c);
  }

  /** `swap_with_player` on the server's game state. */
  method HandleSwapWithPlayer(game: GameState, id: PlayerId, targetId: PlayerId) returns (res: Result<Response, GameError>)
    requires game.Valid()
    modifies game
    ensures game.Valid()
    ensures Settled(SwapWithPlayerHandled(old(game.state), id, targetId), res, old(game.state), game.state)
  {
    if !game.state.RoundState? {
      return Err(NotRoundState);
    }
    var round := new Round.FromData(game.state.round);
    var hands := round.PlayerSwapWithPlayer(id, targetId);
    if hands.Err? {
      return Err(hands.error);
    }
    var q := round.Data();
    game.state := RoundState(q);
    res := Ok(SwapWithPlayerReply(q, id, targetId, hands.value));
  }

  /** `end_turn` on the server's game state. */
  method HandleEndTurn(game: GameState, id: PlayerId, score: ResultsPlayerData -> real) returns (res: Result<Response, GameError>)
    requires game.Valid()
    modifies game
    ensures game.Valid()
    ensures Settled(EndTurnHandled(old(game.state), id, score), res, old(game.state), game.state)
  {
    ghost var g := game.state;
    EndTurnKeepsGameInv(g, id);
    var ended := game.EndPlayerTurn(id);
    if ended.Err? {
      return Err(ended.error);
    }
    res := EndTurnReply(game.state, score);
  }
}
