// The rules of the round phase (game/src/game/round.rs) on values: the state
// of a round as a record, the queries the source answers from it, and every
// round operation as a function from the state before to the outcome. The
// class `Round` (module Rounds) performs these operations in place on its
// player objects and decks and is proved to produce these outcomes.
module RoundRules {
  import opened Wrappers
  import opened Vocabulary
  import opened Errors
  import opened PlayerRules
  import opened Sequences
  import opened Decks
  import opened PlayerRecords
  import opened SelectingPlayers
  import opened RoundPlayers
  import opened Draft
  import opened ResultsPlayers

  /** `ASSETS_FOR_END_OF_GAME` (game/src/game/mod.rs) */
  const ASSETS_FOR_END_OF_GAME: nat := 6

  type MarketCard = Either<Market, Event>

  datatype RoundData = RoundData(
    currentPlayer: PlayerId,
    players: seq<RoundPlayerData>,
    assets: DeckData<Asset>,
    liabilities: DeckData<Liability>,
    markets: DeckData<MarketCard>,
    chairman: PlayerId,
    currentMarket: Market,
    currentEvents: seq<Event>,
    openCharacters: seq<Character>,
    firedCharacters: seq<Character>,
    isFinalRound: bool)

  /**
   * The phase a round hands over to when its last turn ends: the character
   * draft of the next round, or the results. The game state builds the new
   * phase from these values.
   */
  datatype NextPhase =
    | ToSelecting(
        selectingPlayers: seq<SelectingPlayerData>,
        draft: DraftData,
        assetDeck: DeckData<Asset>,
        liabilityDeck: DeckData<Liability>,
        marketDeck: DeckData<MarketCard>,
        newChairman: PlayerId,
        market: Market,
        events: seq<Event>)
    | ToResults(resultsPlayers: seq<ResultsPlayerData>, finalEvents: seq<Event>)

  /** Whether a list of market-deck cards holds a market. */
  predicate HasMarket(s: seq<MarketCard>)
  {
    exists i :: 0 <= i < |s| && s[i].Left?
  }

  /**
   * What holds of every round: ids are indices, the current player and the chairman exist,
   * every player keeps its own invariant, the asset and liability decks can
   * always be drawn from and the market deck holds a market to refresh to.
   */
  ghost predicate RoundInv(r: RoundData)
  {
    && r.currentPlayer < |r.players| && r.chairman < |r.players|
    && (forall i :: 0 <= i < |r.players| ==> r.players[i].id == i)
    && (forall i :: 0 <= i < |r.players| ==> PlayerInv(r.players[i]))
    && r.assets.backup != [] && r.liabilities.backup != []
    && HasMarket(r.markets.backup)
  }

  // ---------------------------------------------------------------- queries

  /**
   * `player_as_current_mut`: the player with this id, if it exists and is
   * the one whose turn it is.
   */
  function AsCurrent(r: RoundData, id: PlayerId): (res: Result<RoundPlayerData, GameError>)
    ensures res.Ok? <==> id < |r.players| && r.players[id].id == r.currentPlayer
    ensures id >= |r.players| ==> res == Err(InvalidPlayerIndex(id))
    ensures id < |r.players| && r.players[id].id != r.currentPlayer ==> res == Err(NotPlayersTurn)
    ensures res.Ok? ==> res.value == r.players[id]
  {
    if id >= |r.players| then Err(InvalidPlayerIndex(id))
    else if r.players[id].id != r.currentPlayer then Err(NotPlayersTurn)
    else Ok(r.players[id])
  }

  /** `player_from_character`: the position of the first player holding `c`. */
  function PlayerFromCharacter(players: seq<RoundPlayerData>, c: Character): (r: Option<nat>)
    ensures r.None? <==> forall i :: 0 <= i < |players| ==> players[i].character != c
    ensures r.Some? ==> r.value < |players| && players[r.value].character == c
    ensures r.Some? ==> forall i :: 0 <= i < r.value ==> players[i].character != c
  {
    FindIndex(players, (p: RoundPlayerData) => p.character == c)
  }

  /** `player_by_name` */
  function PlayerByName(players: seq<RoundPlayerData>, name: string): (r: Result<RoundPlayerData, GameError>)
    ensures r.Err? <==> forall i :: 0 <= i < |players| ==> players[i].name != name
    ensures r.Err? ==> r.error == InvalidPlayerName(name)
    ensures r.Ok? ==> r.value in players && r.value.name == name
  {
    match FindIndex(players, (p: RoundPlayerData) => p.name == name)
    case None => Err(InvalidPlayerName(name))
    case Some(i) => Ok(players[i])
  }

  /** A player who comes after `current` in call order and is not fired. */
  predicate Upcoming(p: RoundPlayerData, current: Character, fired: seq<Character>)
  {
    Before(current, p.character) && p.character !in fired
  }

  /**
   * `next_player`, over the players from position `j` on: the upcoming
   * player with the smallest character, the first of them on a tie.
   */
  function NextPlayerFrom(players: seq<RoundPlayerData>, current: Character, fired: seq<Character>, j: nat): (r: Option<nat>)
    ensures r.None? <==> forall k :: j <= k < |players| ==> !Upcoming(players[k], current, fired)
    ensures r.Some? ==> j <= r.value < |players| && Upcoming(players[r.value], current, fired)
    ensures r.Some? ==> forall k :: j <= k < |players| && Upcoming(players[k], current, fired) ==>
      Index(players[r.value].character) <= Index(players[k].character)
    ensures r.Some? ==> forall k :: j <= k < r.value && Upcoming(players[k], current, fired) ==>
      Index(players[r.value].character) < Index(players[k].character)
    decreases |players| - j
  {
    if j >= |players| then None
    else
      var rest := NextPlayerFrom(players, current, fired, j + 1);
      if !Upcoming(players[j], current, fired) then rest
      else if rest.Some? && Index(players[rest.value].character) < Index(players[j].character) then rest
      else Some(j)
  }

  /** `next_player` of a round: the position of the player whose turn is next, if any. */
  function NextPlayer(r: RoundData): (n: Option<nat>)
    requires r.currentPlayer < |r.players|
  {
    NextPlayerFrom(r.players, r.players[r.currentPlayer].character, r.firedCharacters, 0)
  }

  /** A character nobody holds, or one that was fired. */
  predicate Unavailable(players: seq<RoundPlayerData>, fired: seq<Character>, c: Character)
  {
    PlayerFromCharacter(players, c).None? || c in fired
  }

  /**
   * The unavailable characters directly below position `n` of the call
   * order, in call order: the characters skipped on the way to the one at `n`.
   */
  function SkippedBelow(players: seq<RoundPlayerData>, fired: seq<Character>, n: nat): (r: seq<Character>)
    requires n <= |CHARACTERS|
    ensures |r| <= n
    ensures forall i :: 0 <= i < |r| ==> r[i] == CHARACTERS[n - |r| + i]
  {
    if n == 0 then []
    else if Unavailable(players, fired, CHARACTERS[n - 1]) then
      SkippedBelow(players, fired, n - 1) + [CHARACTERS[n - 1]]
    else []
  }

  /**
   * The characters skipped below `n` are all unavailable, and the one just
   * below them, if any, is available: the skip stops at the first character
   * somebody holds who was not fired.
   */
  lemma {:induction false} SkippedBelowStops(players: seq<RoundPlayerData>, fired: seq<Character>, n: nat)
    requires n <= |CHARACTERS|
    ensures var r := SkippedBelow(players, fired, n);
      && (forall i :: 0 <= i < |r| ==> Unavailable(players, fired, r[i]))
      && (|r| < n ==> !Unavailable(players, fired, CHARACTERS[n - |r| - 1]))
  {
    var r := SkippedBelow(players, fired, n);
    if n > 0 && Unavailable(players, fired, CHARACTERS[n - 1]) {
      SkippedBelowStops(players, fired, n - 1);
      var below := SkippedBelow(players, fired, n - 1);
      assert r == below + [CHARACTERS[n - 1]];
      forall i | 0 <= i < |r|
        ensures Unavailable(players, fired, r[i])
      {
        if i < |below| { assert r[i] == below[i]; }
      }
    } else {
      assert r == [];
    }
  }

  /**
   * `skipped_characters`: the characters directly below the current one in
   * call order that nobody holds or that were fired, in ascending order.
   */
  function SkippedCharacters(r: RoundData): (s: seq<Character>)
    requires r.currentPlayer < |r.players|
    ensures forall i, j :: 0 <= i < j < |s| ==> Index(s[i]) < Index(s[j])
    ensures forall i :: 0 <= i < |s| ==> Before(s[i], r.players[r.currentPlayer].character)
    ensures forall i :: 0 <= i < |s| ==> Unavailable(r.players, r.firedCharacters, s[i])
  {
    var n := Index(r.players[r.currentPlayer].character);
    var s := SkippedBelow(r.players, r.firedCharacters, n);
    SkippedBelowStops(r.players, r.firedCharacters, n);
    forall i | 0 <= i < |s|
      ensures Index(s[i]) == n - |s| + i
    {
      IndexOfPosition(n - |s| + i);
    }
    s
  }

  /** Every skipped character is directly below the current one: none in between is skipped over. */
  lemma SkippedAreContiguous(r: RoundData)
    requires r.currentPlayer < |r.players|
    ensures var s := SkippedCharacters(r); var n := Index(r.players[r.currentPlayer].character);
      && (forall i :: 0 <= i < |s| ==> s[i] == CHARACTERS[n - |s| + i])
      && (|s| < n ==> !Unavailable(r.players, r.firedCharacters, CHARACTERS[n - |s| - 1]))
  {
    var n := Index(r.players[r.currentPlayer].character);
    var s := SkippedCharacters(r);
    assert s == SkippedBelow(r.players, r.firedCharacters, n);
    SkippedBelowStops(r.players, r.firedCharacters, n);
  }

  /** The position of the character at position `i` of the call order is `i`. */
  lemma IndexOfPosition(i: nat)
    requires i < |CHARACTERS|
    ensures Index(CHARACTERS[i]) == i
  {
  }

  /** `player_info`: every other player's public view, in order. */
  function OthersInfo(players: seq<RoundPlayerData>, id: PlayerId): (r: seq<PlayerInfo>)
    ensures |r| <= |players|
  {
    FilterMap(players, (p: RoundPlayerData) => p.id != id, RoundInfo)
  }

  /** When ids are positions, the others' views are those of the list without `id`. */
  lemma OthersInfoSkipsSelf(players: seq<RoundPlayerData>, id: PlayerId)
    requires id < |players| && forall i :: 0 <= i < |players| ==> players[i].id == i
    ensures |OthersInfo(players, id)| == |players| - 1
    ensures forall k :: 0 <= k < |players| - 1 ==> OthersInfo(players, id)[k] == RoundInfo(RemoveAt(players, id)[k])
  {
    FilterMapAllButOne(players, (p: RoundPlayerData) => p.id != id, RoundInfo, id);
  }

  /** A character that may still be fired this round. */
  predicate Fireable(r: RoundData, c: Character)
  {
    CanBeFired(c) && c !in r.firedCharacters && c !in r.openCharacters
  }

  /** `player_get_fireble_characters`: every character that may be fired, in call order. */
  function FireableCharacters(r: RoundData): (s: seq<Character>)
    ensures forall c :: c in s <==> Fireable(r, c)
    ensures forall i, j :: 0 <= i < j < |s| ==> Index(s[i]) < Index(s[j])
  {
    var s := FireableFrom(r, 0);
    FireableFromComplete(r, 0);
    forall c | Fireable(r, c)
      ensures c in s
    {
      assert CHARACTERS[Index(c)] == c;
    }
    s
  }

  /** The characters from position `j` of the call order on that may be fired this round. */
  function FireableFrom(r: RoundData, j: nat): (s: seq<Character>)
    requires j <= |CHARACTERS|
    ensures forall i :: 0 <= i < |s| ==> Fireable(r, s[i]) && Index(s[i]) >= j
    ensures forall i, k :: 0 <= i < k < |s| ==> Index(s[i]) < Index(s[k])
    decreases |CHARACTERS| - j
  {
    if j == |CHARACTERS| then []
    else
      IndexOfPosition(j);
      var rest := FireableFrom(r, j + 1);
      if Fireable(r, CHARACTERS[j]) then [CHARACTERS[j]] + rest else rest
  }

  /** Every character from position `j` on that may be fired is listed. */
  lemma FireableFromComplete(r: RoundData, j: nat)
    requires j <= |CHARACTERS|
    ensures forall k :: j <= k < |CHARACTERS| && Fireable(r, CHARACTERS[k]) ==> CHARACTERS[k] in FireableFrom(r, j)
  {
    forall k | j <= k < |CHARACTERS| && Fireable(r, CHARACTERS[k])
      ensures CHARACTERS[k] in FireableFrom(r, j)
    {
      FireableFromHas(r, j, k);
    }
  }

  /** A fireable character at position `k` is listed from any position up to `k`. */
  lemma {:induction false} FireableFromHas(r: RoundData, j: nat, k: nat)
    requires j <= k < |CHARACTERS| && Fireable(r, CHARACTERS[k])
    ensures CHARACTERS[k] in FireableFrom(r, j)
    decreases k - j
  {
    var rest := FireableFrom(r, j + 1);
    if j < k {
      FireableFromHas(r, j + 1, k);
      assert FireableFrom(r, j) == rest || FireableFrom(r, j) == [CHARACTERS[j]] + rest;
    } else {
      assert FireableFrom(r, j) == [CHARACTERS[j]] + rest;
    }
  }

  /** How many cards of a hand are assets. */
  function AssetCount(hand: seq<Card>): (n: nat)
    ensures n <= |hand|
  {
    if hand == [] then 0 else (if hand[0].Left? then 1 else 0) + AssetCount(hand[1..])
  }

  /** How many cards of a hand are liabilities. */
  function LiabilityCount(hand: seq<Card>): (n: nat)
    ensures n <= |hand|
  {
    if hand == [] then 0 else (if hand[0].Right? then 1 else 0) + LiabilityCount(hand[1..])
  }

  /** Every card is an asset or a liability. */
  lemma {:induction false} CountsCoverHand(hand: seq<Card>)
    ensures AssetCount(hand) + LiabilityCount(hand) == |hand|
  {
    if hand != [] {
      CountsCoverHand(hand[1..]);
    }
  }

  /** The regulator's view of a player it may swap with. */
  function SwapOption(p: RoundPlayerData): (o: RegulatorSwapPlayer)
    ensures o.playerId == p.id && o.assetCount + o.liabilityCount == |p.hand|
  {
    CountsCoverHand(p.hand);
    RegulatorSwapPlayer(p.id, AssetCount(p.hand), LiabilityCount(p.hand))
  }

  /** `player_get_regulator_swap_players`: every player not holding the Regulator. */
  function RegulatorSwapPlayers(players: seq<RoundPlayerData>): (s: seq<RegulatorSwapPlayer>)
    ensures |s| <= |players|
  {
    FilterMap(players, (p: RoundPlayerData) => p.character != Regulator, SwapOption)
  }

  /**
   * The regulator is offered exactly the players that do not hold the
   * Regulator, each with its hand's asset and liability counts.
   */
  lemma RegulatorSwapPlayersListsOthers(players: seq<RoundPlayerData>, k: nat, i: nat)
    ensures k < |RegulatorSwapPlayers(players)| ==>
      exists j :: 0 <= j < |players| && players[j].character != Regulator
                  && RegulatorSwapPlayers(players)[k] == SwapOption(players[j])
    ensures i < |players| && players[i].character != Regulator ==> SwapOption(players[i]) in RegulatorSwapPlayers(players)
  {
    var keep := (p: RoundPlayerData) => p.character != Regulator;
    if k < |RegulatorSwapPlayers(players)| {
      var j := FilterMapSource(players, keep, SwapOption, k);
    }
    if i < |players| && players[i].character != Regulator {
      FilterMapKept(players, keep, SwapOption, i);
    }
  }

  /** Each asset of a player with what divesting it costs now and whether it may be divested. */
  function DivestOptions(assets: seq<Asset>, market: Market): (s: seq<DivestAsset>)
    ensures |s| == |assets|
    ensures forall i :: 0 <= i < |s| ==> s[i].asset == assets[i] && s[i].divestCost == DivestCost(assets[i], market)
    ensures forall i :: 0 <= i < |s| ==> (s[i].isDivestable <==> assets[i].color != Red && assets[i].color != Green)
  {
    seq(|assets|, i requires 0 <= i < |assets| =>
      DivestAsset(assets[i], DivestCost(assets[i], market), assets[i].color != Red && assets[i].color != Green))
  }

  /** A player whose assets the stakeholder may look at for divesting: not itself and not the CSO. */
  predicate DivestTarget(p: RoundPlayerData, id: PlayerId)
  {
    p.id != id && p.character != CSO
  }

  /** What the stakeholder sees of a player it may make divest: each asset with its cost. */
  function DivestView(q: RoundPlayerData, market: Market): DivestPlayer
  {
    DivestPlayer(q.id, DivestOptions(q.assets, market))
  }

  /** `get_divest_assets`: for the current stakeholder, every other non-CSO player's assets. */
  function DivestAssets(r: RoundData, id: PlayerId): (res: Result<seq<DivestPlayer>, GameError>)
    ensures AsCurrent(r, id).Err? ==> res == Err(AsCurrent(r, id).error)
    ensures AsCurrent(r, id).Ok? ==> (res.Ok? <==> r.players[id].character == Stakeholder)
    ensures AsCurrent(r, id).Ok? && res.Err? ==> res.error == DivestAssetErr(DivestInvalidPlayerCharacter)
    ensures res.Ok? ==> |res.value| <= |r.players|
  {
    match AsCurrent(r, id)
    case Err(e) => Err(e)
    case Ok(p) =>
      if p.character == Stakeholder then
        Ok(FilterMap(r.players, (q: RoundPlayerData) => DivestTarget(q, id), (q: RoundPlayerData) => DivestView(q, r.currentMarket)))
      else Err(DivestAssetErr(DivestInvalidPlayerCharacter))
  }

  /**
   * Every player offered for divesting is another player than the
   * stakeholder and does not hold the CSO, and is offered with all its assets.
   */
  lemma DivestAssetsListsOthers(r: RoundData, id: PlayerId, k: nat)
    requires DivestAssets(r, id).Ok? && k < |DivestAssets(r, id).value|
    ensures exists i :: (0 <= i < |r.players| && DivestTarget(r.players[i], id)
                         && DivestAssets(r, id).value[k] == DivestView(r.players[i], r.currentMarket))
    ensures DivestAssets(r, id).value[k].playerId != id
  {
    var i := FilterMapSource(r.players, (q: RoundPlayerData) => DivestTarget(q, id), (q: RoundPlayerData) => DivestView(q, r.currentMarket), k);
  }

  /** `max_bought_assets`: the most assets any player owns, 0 without players. */
  function MaxBoughtAssets(players: seq<RoundPlayerData>): (m: nat)
    ensures forall i :: 0 <= i < |players| ==> |players[i].assets| <= m
    ensures players == [] ==> m == 0
  {
    if players == [] then 0
    else
      var rest := MaxBoughtAssets(players[1..]);
      if |players[0].assets| > rest then |players[0].assets| else rest
  }

  /** The maximum is some player's asset count. */
  lemma {:induction false} MaxBoughtAssetsAttained(players: seq<RoundPlayerData>)
    requires players != []
    ensures exists i :: 0 <= i < |players| && |players[i].assets| == MaxBoughtAssets(players)
  {
    if |players| > 1 && |players[0].assets| <= MaxBoughtAssets(players[1..]) {
      MaxBoughtAssetsAttained(players[1..]);
      var i :| 0 <= i < |players[1..]| && |players[1..][i].assets| == MaxBoughtAssets(players[1..]);
      assert |players[i + 1].assets| == MaxBoughtAssets(players);
    } else {
      assert |players[0].assets| == MaxBoughtAssets(players);
    }
  }

  /** `check_is_final_round`: someone owns at least six assets. */
  predicate FinalRoundReached(players: seq<RoundPlayerData>)
  {
    MaxBoughtAssets(players) >= ASSETS_FOR_END_OF_GAME
  }

  /** The final round is reached exactly when some player owns six assets or more. */
  lemma FinalRoundIffSixAssets(players: seq<RoundPlayerData>)
    ensures FinalRoundReached(players) <==> exists i :: 0 <= i < |players| && |players[i].assets| >= ASSETS_FOR_END_OF_GAME
  {
    if players != [] {
      MaxBoughtAssetsAttained(players);
    }
  }

  /**
   * `should_refresh_market`: someone was the first to own this many assets,
   * and this many is not six.
   */
  predicate ShouldRefreshMarket(newMax: nat, oldMax: nat)
  {
    newMax > oldMax && newMax != ASSETS_FOR_END_OF_GAME
  }

  // ---------------------------------------------------------- market refresh

  /** A draw from a pile or backup holding a market, which is an event, leaves a market to draw. */
  lemma DrawnEventLeavesMarket(pile: seq<MarketCard>, backup: seq<MarketCard>)
    requires HasMarket(pile) || HasMarket(backup)
    requires Drawn(pile, backup).0.Right?
    ensures HasMarket(Drawn(pile, backup).1) || HasMarket(backup)
    ensures HasMarket(pile) ==> HasMarket(Drawn(pile, backup).1)
    ensures pile == [] ==> HasMarket(Drawn(pile, backup).1) && |Drawn(pile, backup).1| + 1 == |backup|
    ensures pile != [] ==> |Drawn(pile, backup).1| + 1 == |pile|
    ensures pile != [] && !HasMarket(pile) ==> !HasMarket(Drawn(pile, backup).1)
  {
    var (card, rest) := Drawn(pile, backup);
    var from := if pile != [] then pile else backup;
    assert rest + [card] == from;
    if HasMarket(from) {
      var i :| 0 <= i < |from| && from[i].Left?;
      assert i < |rest| && rest[i].Left?;
    }
    if pile != [] && HasMarket(rest) {
      var i :| 0 <= i < |rest| && rest[i].Left?;
      assert pile[i].Left?;
    }
  }

  /** What a refresh still has to draw, as a measure that every event drawn lowers. */
  function RefreshMeasure(pile: seq<MarketCard>, backup: seq<MarketCard>): nat
  {
    if HasMarket(pile) then |pile| else |pile| + |backup| + 1
  }

  /**
   * `refresh_market`: draws until it reaches a market. Returns the events
   * drawn before it, in draw order, the market and the pile left. The
   * source loops forever when neither the pile nor the backup holds a market.
   */
  function Refreshed(pile: seq<MarketCard>, backup: seq<MarketCard>): (r: (seq<Event>, Market, seq<MarketCard>))
    requires HasMarket(pile) || HasMarket(backup)
    decreases RefreshMeasure(pile, backup)
  {
    var (card, rest) := Drawn(pile, backup);
    match card
    case Left(m) => ([], m, rest)
    case Right(e) =>
      DrawnEventLeavesMarket(pile, backup);
      var (events, m, left) := Refreshed(rest, backup);
      ([e] + events, m, left)
  }

  /** One draw of a refresh: a market ends it, an event is recorded and the refresh goes on. */
  lemma RefreshedStep(pile: seq<MarketCard>, backup: seq<MarketCard>)
    requires HasMarket(pile) || HasMarket(backup)
    ensures var (card, rest) := Drawn(pile, backup);
      && (card.Left? ==> Refreshed(pile, backup) == ([], card.left, rest))
      && (card.Right? ==>
            && (HasMarket(rest) || HasMarket(backup))
            && RefreshMeasure(rest, backup) < RefreshMeasure(pile, backup)
            && Refreshed(pile, backup).0 == [card.right] + Refreshed(rest, backup).0
            && Refreshed(pile, backup).1 == Refreshed(rest, backup).1
            && Refreshed(pile, backup).2 == Refreshed(rest, backup).2)
  {
    if Drawn(pile, backup).0.Right? {
      DrawnEventLeavesMarket(pile, backup);
    }
  }

  /** Events as they lay on a pile: the first one drawn on top, that is, last. */
  function Stacked(events: seq<Event>): (s: seq<MarketCard>)
    ensures |s| == |events|
    ensures forall i :: 0 <= i < |s| ==> s[i] == Right(events[|events| - 1 - i])
  {
    if events == [] then [] else Stacked(events[1..]) + [Right(events[0])]
  }

  /**
   * A refresh from a pile holding a market takes from the top of the pile
   * exactly the events above its topmost market and that market, and leaves
   * the rest of the pile as it was.
   */
  lemma {:induction false} RefreshedTakesTop(pile: seq<MarketCard>, backup: seq<MarketCard>)
    requires HasMarket(pile)
    ensures var (events, m, left) := Refreshed(pile, backup);
      pile == left + [Left(m)] + Stacked(events)
    decreases |pile|
  {
    var (card, rest) := Drawn(pile, backup);
    assert rest + [card] == pile;
    if card.Right? {
      DrawnEventLeavesMarket(pile, backup);
      RefreshedTakesTop(rest, backup);
      var (events, m, left) := Refreshed(rest, backup);
      assert Stacked([card.right] + events) == Stacked(events) + [card] by {
        assert ([card.right] + events)[1..] == events;
      }
    }
  }

  // -------------------------------------------------------------- operations

  /**
   * `player_play_card`: the current player plays a card. Buying an asset
   * recomputes whether this is the final round, marks the buyer as the
   * first to six assets when it makes it so, and refreshes the market when
   * the buyer is the first to this many assets, unless that is six.
   */
  function PlayedInRound(r: RoundData, id: PlayerId, cardIdx: nat): (res: Result<(RoundData, PlayerPlayedCard), GameError>)
    requires RoundInv(r)
  {
    match AsCurrent(r, id)
    case Err(e) => Err(e)
    case Ok(p) =>
      match Played(p, cardIdx)
      case Err(e) => Err(PlayCardErr(e))
      case Ok((q, card)) =>
        var bought := r.(players := r.players[id := q]);
        if card.Right? then Ok((bought, PlayerPlayedCard(None, card)))
        else
          var (r2, change) := AfterPurchase(bought, id, MaxBoughtAssets(r.players));
          Ok((r2, PlayerPlayedCard(change, card)))
  }

  /**
   * What the round does after the player `id` bought an asset, given the
   * largest asset count before the purchase: the final-round flag becomes
   * whether someone owns six assets, the buyer is marked when that makes the
   * round final, and the market is refreshed when the maximum rose to
   * anything but six.
   */
  function AfterPurchase(r: RoundData, id: PlayerId, oldMax: nat): (res: (RoundData, Option<MarketChange>))
    requires id < |r.players| && (HasMarket(r.markets.deck) || HasMarket(r.markets.backup))
    ensures res.0.chairman == r.chairman && |res.0.players| == |r.players|
  {
    var reached := FinalRoundReached(r.players);
    var players := if !r.isFinalRound && reached then r.players[id := r.players[id].(wasFirstToSixAssets := true)] else r.players;
    var r2 := r.(players := players, isFinalRound := reached);
    if ShouldRefreshMarket(MaxBoughtAssets(players), oldMax) then
      var (events, market, pile) := Refreshed(r.markets.deck, r.markets.backup);
      (r2.(markets := r.markets.(deck := pile), currentMarket := market, currentEvents := r.currentEvents + events),
       Some(MarketChange(events, market)))
    else (r2, None)
  }

  /** Changing one player's flag keeps every player's asset count, so the maximum too. */
  lemma MaxBoughtAssetsSameCounts(a: seq<RoundPlayerData>, b: seq<RoundPlayerData>)
    requires |a| == |b| && forall i :: 0 <= i < |a| ==> |a[i].assets| == |b[i].assets|
    ensures MaxBoughtAssets(a) == MaxBoughtAssets(b)
  {
    if a != [] {
      MaxBoughtAssetsSameCounts(a[1..], b[1..]);
    }
  }

  /**
   * What playing a card does to the round: only the player changes besides
   * the flags and the market; the final-round flag says whether someone owns
   * six assets; the purchase that makes the round final marks its buyer; the
   * market is refreshed exactly when the purchase makes a new maximum other
   * than six, and a liability changes nothing else.
   */
  lemma PlayCardEffects(r: RoundData, id: PlayerId, cardIdx: nat)
    requires RoundInv(r) && PlayedInRound(r, id, cardIdx).Ok?
    ensures var (q, out) := PlayedInRound(r, id, cardIdx).value;
      && id < |r.players| && id == r.currentPlayer
      && |q.players| == |r.players|
      && (forall j :: 0 <= j < |r.players| && j != id ==> q.players[j] == r.players[j])
      && out.usedCard == Played(r.players[id], cardIdx).value.1
      && (out.usedCard.Right? ==> q == r.(players := r.players[id := Played(r.players[id], cardIdx).value.0]) && out.market.None?)
      && (out.usedCard.Left? ==> (q.isFinalRound <==> exists i :: 0 <= i < |q.players| && |q.players[i].assets| >= ASSETS_FOR_END_OF_GAME))
      && (out.usedCard.Left? && !r.isFinalRound && q.isFinalRound ==> q.players[id].wasFirstToSixAssets)
      && (out.usedCard.Left? ==> (out.market.Some? <==> ShouldRefreshMarket(MaxBoughtAssets(q.players), MaxBoughtAssets(r.players))))
      && (out.market.Some? ==> q.currentMarket == out.market.value.newMarket
                                && q.currentEvents == r.currentEvents + out.market.value.events)
      && (out.market.None? ==> q.currentMarket == r.currentMarket && q.currentEvents == r.currentEvents && q.markets == r.markets)
  {
    var p := r.players[id];
    var (q0, card) := Played(p, cardIdx).value;
    if card.Left? {
      AfterPurchaseEffects(r.(players := r.players[id := q0]), id, MaxBoughtAssets(r.players));
    }
  }

  /**
   * The round's part of a purchase: only the buyer's flag may change among
   * the players, the final-round flag says whether someone owns six assets,
   * and the market is refreshed exactly when the maximum rose to anything
   * but six.
   */
  lemma AfterPurchaseEffects(r: RoundData, id: PlayerId, oldMax: nat)
    requires id < |r.players| && (HasMarket(r.markets.deck) || HasMarket(r.markets.backup))
    ensures var (q, change) := AfterPurchase(r, id, oldMax);
      && |q.players| == |r.players|
      && (forall j :: 0 <= j < |r.players| && j != id ==> q.players[j] == r.players[j])
      && (q.isFinalRound <==> exists i :: 0 <= i < |q.players| && |q.players[i].assets| >= ASSETS_FOR_END_OF_GAME)
      && (!r.isFinalRound && q.isFinalRound ==> q.players[id].wasFirstToSixAssets)
      && (change.Some? <==> ShouldRefreshMarket(MaxBoughtAssets(q.players), oldMax))
      && (change.Some? ==> q.currentMarket == change.value.newMarket && q.currentEvents == r.currentEvents + change.value.events)
      && (change.None? ==> q.currentMarket == r.currentMarket && q.currentEvents == r.currentEvents && q.markets == r.markets)
  {
    var players := r.players;
    var players2 := if !r.isFinalRound && FinalRoundReached(players) then players[id := players[id].(wasFirstToSixAssets := true)] else players;
    MaxBoughtAssetsSameCounts(players, players2);
    FinalRoundIffSixAssets(players);
    FinalRoundIffSixAssets(players2);
  }

  /**
   * `player_redeem_liability`: the current player pays off a liability,
   * which goes to the bottom of the liability deck.
   */
  function RedeemedInRound(r: RoundData, id: PlayerId, liabilityIdx: nat): (res: Result<(RoundData, ()), GameError>)
    ensures AsCurrent(r, id).Err? ==> res == Err(AsCurrent(r, id).error)
    ensures AsCurrent(r, id).Ok? ==> match Redeemed(r.players[id], liabilityIdx)
      case Err(e) => res == Err(RedeemLiabilityErr(e))
      case Ok((q, l)) => res == Ok((r.(players := r.players[id := q], liabilities := r.liabilities.(deck := PutBackOnto(r.liabilities.deck, l))), ()))
  {
    match AsCurrent(r, id)
    case Err(e) => Err(e)
    case Ok(p) =>
      match Redeemed(p, liabilityIdx)
      case Err(e) => Err(RedeemLiabilityErr(e))
      case Ok((q, l)) => Ok((r.(players := r.players[id := q], liabilities := r.liabilities.(deck := PutBackOnto(r.liabilities.deck, l))), ()))
  }

  /**
   * `player_draw_card`: the current player draws the top card of the asset
   * or the liability deck, if it may still draw.
   */
  function DrewInRound(r: RoundData, id: PlayerId, kind: CardType): (res: Result<(RoundData, Card), GameError>)
    requires RoundInv(r)
    ensures AsCurrent(r, id).Err? ==> res == Err(AsCurrent(r, id).error)
    ensures AsCurrent(r, id).Ok? ==> (res.Ok? <==> CanDrawCards(r.players[id]))
    ensures AsCurrent(r, id).Ok? && res.Err? ==> res.error == DrawCardErr(MaximumCardsDrawn(r.players[id].totalCardsDrawn))
    ensures res.Ok? ==> var (q, card) := res.value;
      && (card.Left? <==> kind == AssetCard)
      && q.players == r.players[id := WithCardDrawn(r.players[id], card)]
      && (kind == AssetCard ==>
            && q == r.(players := q.players, assets := q.assets)
            && (card.left, q.assets.deck) == Drawn(r.assets.deck, r.assets.backup) && q.assets.backup == r.assets.backup)
      && (kind == LiabilityCard ==>
            && q == r.(players := q.players, liabilities := q.liabilities)
            && (card.right, q.liabilities.deck) == Drawn(r.liabilities.deck, r.liabilities.backup) && q.liabilities.backup == r.liabilities.backup)
  {
    match AsCurrent(r, id)
    case Err(e) => Err(e)
    case Ok(p) =>
      if !CanDrawCards(p) then Err(DrawCardErr(MaximumCardsDrawn(p.totalCardsDrawn)))
      else if kind == AssetCard then
        var (a, pile) := Drawn(r.assets.deck, r.assets.backup);
        Ok((r.(players := r.players[id := WithCardDrawn(p, Left(a))], assets := r.assets.(deck := pile)), Left(a)))
      else
        var (l, pile) := Drawn(r.liabilities.deck, r.liabilities.backup);
        Ok((r.(players := r.players[id := WithCardDrawn(p, Right(l))], liabilities := r.liabilities.(deck := pile)), Right(l)))
  }

  /**
   * `player_give_back_card`: the current player gives back a card, which
   * goes to the bottom of the deck of its kind; the kind is returned.
   */
  function GaveBackInRound(r: RoundData, id: PlayerId, cardIdx: nat): (res: Result<(RoundData, CardType), GameError>)
    ensures AsCurrent(r, id).Err? ==> res == Err(AsCurrent(r, id).error)
    ensures AsCurrent(r, id).Ok? ==> (res.Ok? <==> GivenBack(r.players[id], cardIdx).Ok?)
    ensures AsCurrent(r, id).Ok? && res.Err? ==> res.error == GiveBackCardErr(GivenBack(r.players[id], cardIdx).error)
    ensures res.Ok? ==> var (q, kind) := res.value; var (p, card) := GivenBack(r.players[id], cardIdx).value;
      && kind == KindOf(card)
      && q.players == r.players[id := p]
      && (card.Left? ==> q == r.(players := q.players, assets := r.assets.(deck := PutBackOnto(r.assets.deck, card.left))))
      && (card.Right? ==> q == r.(players := q.players, liabilities := r.liabilities.(deck := PutBackOnto(r.liabilities.deck, card.right))))
  {
    match AsCurrent(r, id)
    case Err(e) => Err(e)
    case Ok(p) =>
      match GivenBack(p, cardIdx)
      case Err(e) => Err(GiveBackCardErr(e))
      case Ok((q, Left(a))) => Ok((r.(players := r.players[id := q], assets := r.assets.(deck := PutBackOnto(r.assets.deck, a))), AssetCard))
      case Ok((q, Right(l))) => Ok((r.(players := r.players[id := q], liabilities := r.liabilities.(deck := PutBackOnto(r.liabilities.deck, l))), LiabilityCard))
  }

  /** `player_fire_character`: the fired character is appended to the fired list. */
  function FiredInRound(r: RoundData, id: PlayerId, c: Character): (res: Result<(RoundData, Character), GameError>)
    ensures AsCurrent(r, id).Err? ==> res == Err(AsCurrent(r, id).error)
    ensures AsCurrent(r, id).Ok? ==> (res.Ok? <==> Fired(r.players[id], c).Ok?)
    ensures AsCurrent(r, id).Ok? && res.Err? ==> res.error == FireCharacterErr(Fired(r.players[id], c).error)
    ensures res.Ok? ==> res.value.1 == c && res.value.0 == r.(players := r.players[id := Fired(r.players[id], c).value.0],
                                                               firedCharacters := r.firedCharacters + [c])
  {
    match AsCurrent(r, id)
    case Err(e) => Err(e)
    case Ok(p) =>
      match Fired(p, c)
      case Err(e) => Err(FireCharacterErr(e))
      case Ok((q, fired)) => Ok((r.(players := r.players[id := q], firedCharacters := r.firedCharacters + [fired]), fired))
  }

  /** A fired character's holder is passed over when the next player is chosen. */
  lemma FiredIsSkipped(r: RoundData, id: PlayerId, c: Character)
    requires RoundInv(r) && FiredInRound(r, id, c).Ok?
    ensures var q := FiredInRound(r, id, c).value.0;
      q.currentPlayer < |q.players| &&
      (NextPlayer(q).Some? ==> q.players[NextPlayer(q).value].character != c)
  {
  }

  /** What `player_swap_with_deck` demands: the current player's swap does not panic. */
  predicate SwapInRoundDoesNotPanic(r: RoundData, id: PlayerId, cardIdxs: seq<nat>)
  {
    id < |r.players| && r.players[id].id == r.currentPlayer ==> SwapDoesNotPanic(r.players[id], cardIdxs)
  }

  /**
   * `player_swap_with_deck`: the current regulator puts the chosen cards
   * under the decks; the counts of assets and liabilities put back are returned.
   */
  function SwappedWithDeckInRound(r: RoundData, id: PlayerId, cardIdxs: seq<nat>): (res: Result<(RoundData, seq<nat>), GameError>)
    requires SwapInRoundDoesNotPanic(r, id, cardIdxs)
    ensures AsCurrent(r, id).Err? ==> res == Err(AsCurrent(r, id).error)
    ensures AsCurrent(r, id).Ok? ==> (res.Ok? <==> SwappedWithDeck(r.players[id], cardIdxs).Ok?)
    ensures AsCurrent(r, id).Ok? && res.Err? ==> res.error == SwapErr(SwappedWithDeck(r.players[id], cardIdxs).error)
    ensures res.Ok? ==> var (p, taken, given) := SwappedWithDeck(r.players[id], cardIdxs).value;
      && res.value.1 == [|taken|, |given|]
      && res.value.0 == r.(players := r.players[id := p], assets := r.assets.(deck := taken + r.assets.deck),
                           liabilities := r.liabilities.(deck := given + r.liabilities.deck))
  {
    match AsCurrent(r, id)
    case Err(e) => Err(e)
    case Ok(p) =>
      match SwappedWithDeck(p, cardIdxs)
      case Err(e) => Err(SwapErr(e))
      case Ok((q, taken, given)) =>
        Ok((r.(players := r.players[id := q], assets := r.assets.(deck := taken + r.assets.deck),
               liabilities := r.liabilities.(deck := given + r.liabilities.deck)), [|taken|, |given|]))
  }

  /**
   * `player_swap_with_player`: the regulator exchanges hands with another
   * player. The same id or an id out of range is `InvalidTargetPlayer`; as
   * written, whose turn it is is not checked.
   */
  function SwappedWithPlayerInRound(r: RoundData, id: PlayerId, targetId: PlayerId): (res: Result<(RoundData, HandsAfterSwap), GameError>)
    ensures !(id < |r.players| && targetId < |r.players| && id != targetId) ==> res == Err(SwapErr(InvalidTargetPlayer))
    ensures id < |r.players| && targetId < |r.players| && id != targetId ==>
      match RegulatorSwapped(r.players[id], r.players[targetId])
      case Err(e) => res == Err(SwapErr(e))
      case Ok((a, b)) => res == Ok((r.(players := r.players[id := a][targetId := b]), HandsAfterSwap(a.hand, b.hand)))
  {
    if id == targetId || id >= |r.players| || targetId >= |r.players| then Err(SwapErr(InvalidTargetPlayer))
    else match RegulatorSwapped(r.players[id], r.players[targetId])
      case Err(e) => Err(SwapErr(e))
      case Ok((a, b)) => Ok((r.(players := r.players[id := a][targetId := b]), HandsAfterSwap(a.hand, b.hand)))
  }

  /** A successful swap exchanges exactly the two hands and returns them. */
  lemma SwapWithPlayerExchangesHands(r: RoundData, id: PlayerId, targetId: PlayerId)
    requires SwappedWithPlayerInRound(r, id, targetId).Ok?
    ensures var (q, hands) := SwappedWithPlayerInRound(r, id, targetId).value;
      && id != targetId && id < |r.players| && targetId < |r.players|
      && q.players[id].hand == r.players[targetId].hand && q.players[targetId].hand == r.players[id].hand
      && hands == HandsAfterSwap(q.players[id].hand, q.players[targetId].hand)
      && (forall j :: 0 <= j < |r.players| && j != id && j != targetId ==> q.players[j] == r.players[j])
      && q.players[targetId] == r.players[targetId].(hand := r.players[id].hand)
  {
  }

  /**
   * `player_divest_asset`: the stakeholder pays to make another player drop
   * an asset. The same id or an id out of range is `InvalidCharacter`; as
   * written, whose turn it is is not checked.
   */
  function DivestedInRound(r: RoundData, id: PlayerId, targetId: PlayerId, assetIdx: nat): (res: Result<(RoundData, nat), GameError>)
    ensures !(id < |r.players| && targetId < |r.players| && id != targetId) ==> res == Err(DivestAssetErr(DivestInvalidCharacter))
    ensures id < |r.players| && targetId < |r.players| && id != targetId ==>
      match Divested(r.players[id], r.players[targetId], assetIdx, r.currentMarket)
      case Err(e) => res == Err(DivestAssetErr(e))
      case Ok((q, cost)) =>
        && assetIdx < |r.players[targetId].assets|
        && res == Ok((r.(players := r.players[id := q][targetId := RemovedAsset(r.players[targetId], assetIdx).value.0]), cost))
  {
    if id == targetId || id >= |r.players| || targetId >= |r.players| then Err(DivestAssetErr(DivestInvalidCharacter))
    else match Divested(r.players[id], r.players[targetId], assetIdx, r.currentMarket)
      case Err(e) => Err(DivestAssetErr(e))
      case Ok((q, cost)) =>
        Ok((r.(players := r.players[id := q][targetId := RemovedAsset(r.players[targetId], assetIdx).value.0]), cost))
  }

  /** Divesting moves the cost out of the stakeholder's cash and the asset out of the target's holdings. */
  lemma DivestMovesAsset(r: RoundData, id: PlayerId, targetId: PlayerId, assetIdx: nat)
    requires DivestedInRound(r, id, targetId, assetIdx).Ok?
    ensures var (q, cost) := DivestedInRound(r, id, targetId, assetIdx).value;
      && id != targetId && id < |r.players| && targetId < |r.players| && assetIdx < |r.players[targetId].assets|
      && q.players[id].cash + cost == r.players[id].cash
      && cost == DivestCost(r.players[targetId].assets[assetIdx], r.currentMarket)
      && q.players[targetId].assets == RemoveAt(r.players[targetId].assets, assetIdx)
      && |q.players[targetId].assets| + 1 == |r.players[targetId].assets|
      && (forall j :: 0 <= j < |r.players| && j != id && j != targetId ==> q.players[j] == r.players[j])
  {
  }

  /** `Players(players.into_iter().map(Into::into))` into the draft: every player loses its character. */
  function ToSelectingPlayers(players: seq<RoundPlayerData>): (s: seq<SelectingPlayerData>)
    ensures |s| == |players|
    ensures forall i :: 0 <= i < |s| ==> s[i] == SelectingFromRound(players[i])
  {
    seq(|players|, i requires 0 <= i < |players| => SelectingFromRound(players[i]))
  }

  /** `ResultsPlayer::new` for every player, with the market the game ended on. */
  function ToResultsPlayers(players: seq<RoundPlayerData>, market: Market): (s: seq<ResultsPlayerData>)
    ensures |s| == |players|
    ensures forall i :: 0 <= i < |s| ==> s[i] == ResultsFromRound(players[i], market)
  {
    seq(|players|, i requires 0 <= i < |players| => ResultsFromRound(players[i], market))
  }

  /** The chairman of the next round: whoever holds the CEO, or the old chairman if nobody does. */
  function NextChairman(r: RoundData): (c: PlayerId)
    ensures PlayerFromCharacter(r.players, CEO).Some? ==> c == r.players[PlayerFromCharacter(r.players, CEO).value].id
    ensures PlayerFromCharacter(r.players, CEO).None? ==> c == r.chairman
  {
    match PlayerFromCharacter(r.players, CEO)
    case Some(i) => r.players[i].id
    case None => r.chairman
  }

  /**
   * `end_player_turn`: a player who owes cards may not end the turn.
   * Otherwise the next player starts its turn; after the last player the
   * round hands over to the draft of the next round, or to the results when
   * this was the final round. The round itself is left as it is when it
   * hands over.
   */
  function EndedTurn(r: RoundData, id: PlayerId): (res: Result<(RoundData, Either<TurnEnded, NextPhase>), GameError>)
    requires RoundInv(r)
    ensures AsCurrent(r, id).Err? ==> res == Err(AsCurrent(r, id).error)
    ensures AsCurrent(r, id).Ok? && ShouldGiveBackCards(r.players[id]) ==> res == Err(PlayerShouldGiveBackCard)
    ensures res.Ok? && res.value.1.Right? ==> res.value.0 == r
  {
    match AsCurrent(r, id)
    case Err(e) => Err(e)
    case Ok(p) =>
      if ShouldGiveBackCards(p) then Err(PlayerShouldGiveBackCard)
      else match NextPlayer(r)
        case Some(n) =>
          Ok((r.(players := r.players[n := TurnStarted(r.players[n])], currentPlayer := r.players[n].id),
              Left(TurnEnded(Some(r.players[n].id), false))))
        case None =>
          if !r.isFinalRound then
            var chairman := NextChairman(r);
            match NewDraft(|r.players|, chairman)
            case Err(e) => Err(e)
            case Ok(draft) =>
              Ok((r, Right(ToSelecting(ToSelectingPlayers(r.players), draft, r.assets, r.liabilities, r.markets,
                                       chairman, r.currentMarket, r.currentEvents))))
          else
            Ok((r, Right(ToResults(ToResultsPlayers(r.players, r.currentMarket), r.currentEvents))))
  }

  /**
   * Ending a turn with cards settled passes the turn to the next player,
   * who alone gets its turn cash; without a next player the phase changes,
   * to the results exactly when this was the final round.
   */
  lemma EndTurnEffects(r: RoundData, id: PlayerId)
    requires RoundInv(r) && EndedTurn(r, id).Ok?
    ensures id == r.currentPlayer && !ShouldGiveBackCards(r.players[id])
    ensures var (q, out) := EndedTurn(r, id).value;
      && (out.Left? <==> NextPlayer(r).Some?)
      && (out.Left? ==> var n := NextPlayer(r).value;
            && out.left == TurnEnded(Some(n), false) && q.currentPlayer == n
            && Upcoming(r.players[n], r.players[id].character, r.firedCharacters)
            && q.players[n].cash == r.players[n].cash + 1
            && (forall j :: 0 <= j < |r.players| && j != n ==> q.players[j] == r.players[j]))
      && (out.Right? ==> (out.right.ToResults? <==> r.isFinalRound))
      && (out.Right? && out.right.ToSelecting? ==>
            && out.right.newChairman == NextChairman(r)
            && |out.right.selectingPlayers| == |r.players|)
      && (out.Right? && out.right.ToResults? ==>
            && |out.right.resultsPlayers| == |r.players|
            && out.right.finalEvents == r.currentEvents)
  {
  }

  // --------------------------------------------------- the round invariant

  /** Replacing one player by one that keeps the player invariant and its id keeps the round invariant. */
  lemma ReplacedPlayerKeepsRoundInv(r: RoundData, i: nat, p: RoundPlayerData)
    requires RoundInv(r) && i < |r.players| && p.id == r.players[i].id && PlayerInv(p)
    ensures RoundInv(r.(players := r.players[i := p]))
  {
  }

  /** The id of a player is never changed by its own operations. */
  lemma PlayerOperationsKeepId(p: RoundPlayerData, idx: nat, card: Card, c: Character, idxs: seq<nat>, target: RoundPlayerData, market: Market)
    ensures Played(p, idx).Ok? ==> Played(p, idx).value.0.id == p.id
    ensures GivenBack(p, idx).Ok? ==> GivenBack(p, idx).value.0.id == p.id
    ensures Redeemed(p, idx).Ok? ==> Redeemed(p, idx).value.0.id == p.id
    ensures Fired(p, c).Ok? ==> Fired(p, c).value.0.id == p.id
    ensures SwapDoesNotPanic(p, idxs) && SwappedWithDeck(p, idxs).Ok? ==> SwappedWithDeck(p, idxs).value.0.id == p.id
    ensures RegulatorSwapped(p, target).Ok? ==> RegulatorSwapped(p, target).value.0.id == p.id
    ensures RegulatorSwapped(p, target).Ok? ==> RegulatorSwapped(p, target).value.1 == target.(hand := p.hand)
    ensures Divested(p, target, idx, market).Ok? ==> Divested(p, target, idx, market).value.0.id == p.id
    ensures RemovedAsset(p, idx).Ok? ==> RemovedAsset(p, idx).value.0.id == p.id
  {
  }

  /** Playing a card keeps the round invariant; the refresh leaves the market backup alone. */
  lemma PlayKeepsRoundInv(r: RoundData, id: PlayerId, idx: nat)
    requires RoundInv(r) && PlayedInRound(r, id, idx).Ok?
    ensures RoundInv(PlayedInRound(r, id, idx).value.0)
  {
    var p := r.players[id];
    CardOperationsKeepPlayerInv(p, idx, Left(Drawn(r.assets.deck, r.assets.backup).0));
    PlayerOperationsKeepId(p, idx, Left(Drawn(r.assets.deck, r.assets.backup).0), Shareholder, [], p, r.currentMarket);
    var (q, card) := Played(p, idx).value;
    ReplacedPlayerKeepsRoundInv(r, id, q);
    var bought := r.(players := r.players[id := q]);
    if card.Left? {
      AfterPurchaseKeepsRoundInv(bought, id, MaxBoughtAssets(r.players));
    }
  }

  /** The round's part of a purchase keeps the round invariant. */
  lemma AfterPurchaseKeepsRoundInv(r: RoundData, id: PlayerId, oldMax: nat)
    requires RoundInv(r) && id < |r.players|
    ensures RoundInv(AfterPurchase(r, id, oldMax).0)
  {
    var q := r.players[id].(wasFirstToSixAssets := true);
    ReplacedPlayerKeepsRoundInv(r, id, q);
    var players := AfterPurchase(r, id, oldMax).0.players;
    assert players == r.players || players == r.players[id := q];
    if ShouldRefreshMarket(MaxBoughtAssets(players), oldMax) {
      assert AfterPurchase(r, id, oldMax).0.markets.backup == r.markets.backup;
    }
  }

  /** Redeeming, drawing and giving back keep the round invariant. */
  lemma CardMovesKeepRoundInv(r: RoundData, id: PlayerId, idx: nat, kind: CardType)
    requires RoundInv(r)
    ensures RedeemedInRound(r, id, idx).Ok? ==> RoundInv(RedeemedInRound(r, id, idx).value.0)
    ensures DrewInRound(r, id, kind).Ok? ==> RoundInv(DrewInRound(r, id, kind).value.0)
    ensures GaveBackInRound(r, id, idx).Ok? ==> RoundInv(GaveBackInRound(r, id, idx).value.0)
  {
    RedeemKeepsRoundInv(r, id, idx);
    DrawKeepsRoundInv(r, id, kind);
    GiveBackKeepsRoundInv(r, id, idx);
  }

  lemma RedeemKeepsRoundInv(r: RoundData, id: PlayerId, idx: nat)
    requires RoundInv(r)
    ensures RedeemedInRound(r, id, idx).Ok? ==> RoundInv(RedeemedInRound(r, id, idx).value.0)
  {
    if AsCurrent(r, id).Ok? && Redeemed(r.players[id], idx).Ok? {
      var p := r.players[id];
      var (q, l) := Redeemed(p, idx).value;
      CardOperationsKeepPlayerInv(p, idx, Left(Drawn(r.assets.deck, r.assets.backup).0));
      PlayerOperationsKeepId(p, idx, Left(Drawn(r.assets.deck, r.assets.backup).0), Shareholder, [], p, r.currentMarket);
      ReplacedPlayerKeepsRoundInv(r, id, q);
      assert RedeemedInRound(r, id, idx).value.0
        == r.(players := r.players[id := q]).(liabilities := r.liabilities.(deck := PutBackOnto(r.liabilities.deck, l)));
    }
  }

  lemma DrawKeepsRoundInv(r: RoundData, id: PlayerId, kind: CardType)
    requires RoundInv(r)
    ensures DrewInRound(r, id, kind).Ok? ==> RoundInv(DrewInRound(r, id, kind).value.0)
  {
    if DrewInRound(r, id, kind).Ok? {
      var (q, card) := DrewInRound(r, id, kind).value;
      var p := r.players[id];
      CardOperationsKeepPlayerInv(p, 0, card);
      ReplacedPlayerKeepsRoundInv(r, id, WithCardDrawn(p, card));
      assert q.players == r.players[id := WithCardDrawn(p, card)];
    }
  }

  lemma GiveBackKeepsRoundInv(r: RoundData, id: PlayerId, idx: nat)
    requires RoundInv(r)
    ensures GaveBackInRound(r, id, idx).Ok? ==> RoundInv(GaveBackInRound(r, id, idx).value.0)
  {
    if GaveBackInRound(r, id, idx).Ok? {
      var p := r.players[id];
      var (q, card) := GivenBack(p, idx).value;
      CardOperationsKeepPlayerInv(p, idx, card);
      PlayerOperationsKeepId(p, idx, card, Shareholder, [], p, r.currentMarket);
      ReplacedPlayerKeepsRoundInv(r, id, q);
    }
  }

  /** Firing and swapping with the decks keep the round invariant. */
  lemma OwnAbilitiesKeepRoundInv(r: RoundData, id: PlayerId, c: Character, idxs: seq<nat>)
    requires RoundInv(r)
    ensures FiredInRound(r, id, c).Ok? ==> RoundInv(FiredInRound(r, id, c).value.0)
    ensures SwapInRoundDoesNotPanic(r, id, idxs) && SwappedWithDeckInRound(r, id, idxs).Ok? ==>
      RoundInv(SwappedWithDeckInRound(r, id, idxs).value.0)
  {
    FireKeepsRoundInv(r, id, c);
    if SwapInRoundDoesNotPanic(r, id, idxs) {
      SwapWithDeckKeepsRoundInv(r, id, idxs);
    }
  }

  lemma FireKeepsRoundInv(r: RoundData, id: PlayerId, c: Character)
    requires RoundInv(r)
    ensures FiredInRound(r, id, c).Ok? ==> RoundInv(FiredInRound(r, id, c).value.0)
  {
    if id < |r.players| {
      var p := r.players[id];
      AbilitiesKeepPlayerInv(p, c, [], p, 0, r.currentMarket);
      PlayerOperationsKeepId(p, 0, Left(Drawn(r.assets.deck, r.assets.backup).0), c, [], p, r.currentMarket);
    }
  }

  lemma SwapWithDeckKeepsRoundInv(r: RoundData, id: PlayerId, idxs: seq<nat>)
    requires RoundInv(r) && SwapInRoundDoesNotPanic(r, id, idxs)
    ensures SwappedWithDeckInRound(r, id, idxs).Ok? ==> RoundInv(SwappedWithDeckInRound(r, id, idxs).value.0)
  {
    if id < |r.players| {
      var p := r.players[id];
      AbilitiesKeepPlayerInv(p, Shareholder, idxs, p, 0, r.currentMarket);
      PlayerOperationsKeepId(p, 0, Left(Drawn(r.assets.deck, r.assets.backup).0), Shareholder, idxs, p, r.currentMarket);
    }
  }

  /** Swapping hands with another player and divesting keep the round invariant. */
  lemma TargetAbilitiesKeepRoundInv(r: RoundData, id: PlayerId, target: PlayerId, idx: nat)
    requires RoundInv(r)
    ensures SwappedWithPlayerInRound(r, id, target).Ok? ==> RoundInv(SwappedWithPlayerInRound(r, id, target).value.0)
    ensures DivestedInRound(r, id, target, idx).Ok? ==> RoundInv(DivestedInRound(r, id, target, idx).value.0)
  {
    SwapWithPlayerKeepsRoundInv(r, id, target);
    DivestKeepsRoundInv(r, id, target, idx);
  }

  lemma SwapWithPlayerKeepsRoundInv(r: RoundData, id: PlayerId, target: PlayerId)
    requires RoundInv(r)
    ensures SwappedWithPlayerInRound(r, id, target).Ok? ==> RoundInv(SwappedWithPlayerInRound(r, id, target).value.0)
  {
    if SwappedWithPlayerInRound(r, id, target).Ok? {
      var p := r.players[id];
      var t := r.players[target];
      AbilitiesKeepPlayerInv(p, Shareholder, [], t, 0, r.currentMarket);
      PlayerOperationsKeepId(p, 0, Left(Drawn(r.assets.deck, r.assets.backup).0), Shareholder, [], t, r.currentMarket);
      var (a, b) := RegulatorSwapped(p, t).value;
      assert PlayerInv(b);
      ReplacedPlayerKeepsRoundInv(r, id, a);
      ReplacedPlayerKeepsRoundInv(r.(players := r.players[id := a]), target, b);
    }
  }

  lemma DivestKeepsRoundInv(r: RoundData, id: PlayerId, target: PlayerId, idx: nat)
    requires RoundInv(r)
    ensures DivestedInRound(r, id, target, idx).Ok? ==> RoundInv(DivestedInRound(r, id, target, idx).value.0)
  {
    if DivestedInRound(r, id, target, idx).Ok? {
      var p := r.players[id];
      var t := r.players[target];
      AbilitiesKeepPlayerInv(p, Shareholder, [], t, idx, r.currentMarket);
      PlayerOperationsKeepId(p, idx, Left(Drawn(r.assets.deck, r.assets.backup).0), Shareholder, [], t, r.currentMarket);
      CashOperationsKeepPlayerInv(t, idx, r.currentMarket);
      PlayerOperationsKeepId(t, idx, Left(Drawn(r.assets.deck, r.assets.backup).0), Shareholder, [], p, r.currentMarket);
      var (a, _) := Divested(p, t, idx, r.currentMarket).value;
      ReplacedPlayerKeepsRoundInv(r, id, a);
      ReplacedPlayerKeepsRoundInv(r.(players := r.players[id := a]), target, RemovedAsset(t, idx).value.0);
    }
  }

  /** Ending a turn keeps the round invariant. */
  lemma EndTurnKeepsRoundInv(r: RoundData, id: PlayerId)
    requires RoundInv(r) && EndedTurn(r, id).Ok?
    ensures RoundInv(EndedTurn(r, id).value.0)
  {
    if NextPlayer(r).Some? {
      var n := NextPlayer(r).value;
      CashOperationsKeepPlayerInv(r.players[n], 0, r.currentMarket);
      ReplacedPlayerKeepsRoundInv(r, n, TurnStarted(r.players[n]));
    }
  }
}
