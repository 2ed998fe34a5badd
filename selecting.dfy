// The character-selection phase (game/src/game/selecting_characters.rs): the
// players in seat order, the draft, the three decks, the chairman and the
// market carried over. Players pick one by one, starting at the chairman's
// seat; the last pick ends the phase and starts a round in which the holder
// of the smallest character plays first.
module SelectingPhase {
  import opened Wrappers
  import opened Vocabulary
  import opened Errors
  import opened PlayerRules
  import opened Sequences
  import opened Decks
  import opened PlayerLists
  import opened PlayerRecords
  import opened SelectingPlayers
  import opened RoundPlayers
  import opened Draft
  import opened RoundRules
  import opened Rounds

  datatype SelectingData = SelectingData(
    players: seq<SelectingPlayerData>,
    draft: DraftData,
    assets: DeckData<Asset>,
    liabilities: DeckData<Liability>,
    markets: DeckData<MarketCard>,
    chairman: PlayerId,
    currentMarket: Market,
    currentEvents: seq<Event>)

  // ------------------------------------------------ seats around the table

  /** How many picks come before seat `i` when the chairman picks first. */
  function Offset(i: nat, chairman: nat, n: nat): (k: nat)
    requires i < n && chairman < n
    ensures k < n
  {
    if i >= chairman then i - chairman else i + n - chairman
  }

  /** The seat that makes pick `k` when the chairman picks first. */
  function Seat(k: nat, chairman: nat, n: nat): (i: nat)
    requires k < n && chairman < n
    ensures i < n && Offset(i, chairman, n) == k
  {
    if chairman + k < n then chairman + k else chairman + k - n
  }

  /** The remainder is the only one in range: `x == n * q + r` with `0 <= r < n` gives `x % n == r`. */
  lemma ModUnique(x: int, n: int, q: int, r: int)
    requires 0 <= r < n && x == n * q + r
    ensures x % n == r
  {
    var k := q - x / n;
    assert n * k == x % n - r;
  }

  /** Below twice the divisor, the remainder is the number or the number minus the divisor. */
  lemma ModBelowTwice(x: nat, n: nat)
    requires 0 < n && x < 2 * n
    ensures x % n == (if x < n then x else x - n)
  {
    if x >= n {
      ModUnique(x, n, 1, x - n);
    } else {
      ModUnique(x, n, 0, x);
    }
  }

  /** The draft's picker is the seat of the pick being made. */
  lemma PickerIsSeat(d: DraftData)
    requires d.playerCount >= 1 && d.drawIdx < d.playerCount && d.chairmanId < d.playerCount
    ensures AppliesToPlayer(d) == Seat(d.drawIdx, d.chairmanId, d.playerCount)
  {
    ModBelowTwice(d.drawIdx + d.chairmanId, d.playerCount);
  }

  /** The characters of a list are pairwise different. */
  predicate Distinct(cs: seq<Character>)
  {
    forall a, b :: 0 <= a < b < |cs| ==> cs[a] != cs[b]
  }

  /**
   * What holds throughout the phase: ids are positions, the draft is for
   * these players and this chairman, exactly the seats that have picked
   * hold a character, and every character is in one place only: with a
   * player, on offer or put aside as the closed one. The decks can be drawn
   * from and the market deck holds a market.
   */
  ghost predicate SelectingInv(s: SelectingData)
  {
    var n := |s.players|;
    && DraftInv(s.draft)
    && s.draft.playerCount == n
    && s.draft.chairmanId == s.chairman && s.chairman < n
    && (forall i :: 0 <= i < n ==> s.players[i].id == i)
    && (forall i :: 0 <= i < n ==> (s.players[i].character.Some? <==> Offset(i, s.chairman, n) < s.draft.drawIdx))
    && Distinct(s.draft.available)
    && (s.draft.drawIdx < n ==> s.draft.closed !in s.draft.available)
    && (forall i :: 0 <= i < n && s.players[i].character.Some? ==>
          && s.players[i].character.value !in s.draft.available
          && (s.draft.drawIdx < n ==> s.players[i].character.value != s.draft.closed))
    && (forall i, j :: 0 <= i < j < n && s.players[i].character.Some? && s.players[j].character.Some? ==>
          s.players[i].character.value != s.players[j].character.value)
    && s.assets.backup != [] && s.liabilities.backup != [] && HasMarket(s.markets.backup)
  }

  /** A fresh draft offers pairwise different characters and keeps the closed one apart. */
  lemma NewDraftDistinct(playerCount: nat, chairmanId: nat)
    requires NewDraft(playerCount, chairmanId).Ok?
    ensures Distinct(NewDraft(playerCount, chairmanId).value.available)
    ensures NewDraft(playerCount, chairmanId).value.closed !in NewDraft(playerCount, chairmanId).value.available
  {
    NewDraftOpenCharacters(playerCount, chairmanId);
    var d := NewDraft(playerCount, chairmanId).value;
    forall a, b | 0 <= a < b < |d.available|
      ensures d.available[a] != d.available[b]
    {
      assert d.available[a] == CHARACTERS[a] && d.available[b] == CHARACTERS[b];
      assert Index(CHARACTERS[a]) == a && Index(CHARACTERS[b]) == b;
    }
  }

  /**
   * A phase entered with nobody holding a character, a fresh draft for
   * these players and this chairman, and usable decks is well formed.
   */
  lemma EnteredSelectingInv(s: SelectingData)
    requires NewDraft(|s.players|, s.chairman).Ok? && s.draft == NewDraft(|s.players|, s.chairman).value
    requires s.chairman < |s.players|
    requires forall i :: 0 <= i < |s.players| ==> s.players[i].id == i && s.players[i].character.None?
    requires s.assets.backup != [] && s.liabilities.backup != [] && HasMarket(s.markets.backup)
    ensures SelectingInv(s)
  {
    NewDraftInv(|s.players|, s.chairman);
    NewDraftDistinct(|s.players|, s.chairman);
  }

  // ---------------------------------------------------------------- queries

  /** `currently_selecting_id`: the draft's picker, cast to a player id. */
  function CurrentlySelectingId(s: SelectingData): (r: PlayerId)
    requires s.draft.playerCount >= 1
    ensures s.draft.playerCount <= 256 ==> r == AppliesToPlayer(s.draft)
  {
    AsU8(AppliesToPlayer(s.draft))
  }

  /**
   * `player_as_current`: the player with this id, if there is one and it is
   * that player's turn to pick.
   */
  function SelectingAsCurrent(s: SelectingData, id: PlayerId): (r: Result<SelectingPlayerData, GameError>)
    requires s.draft.playerCount >= 1
    ensures r.Ok? <==> id < |s.players| && s.players[id].id == CurrentlySelectingId(s)
    ensures id >= |s.players| ==> r == Err(InvalidPlayerIndex(id))
    ensures id < |s.players| && s.players[id].id != CurrentlySelectingId(s) ==> r == Err(NotPlayersTurn)
    ensures r.Ok? ==> r.value == s.players[id]
  {
    match PlayerAt(s.players, id)
    case Err(e) => Err(e)
    case Ok(p) => if p.id == CurrentlySelectingId(s) then Ok(p) else Err(NotPlayersTurn)
  }

  /** `player_get_selectable_characters`: what the current picker may choose from. */
  function SelectableCharacters(s: SelectingData, id: PlayerId): (r: Result<seq<Character>, GameError>)
    requires s.draft.playerCount >= 1
    ensures r.Ok? <==> SelectingAsCurrent(s, id).Ok? && s.draft.drawIdx < s.draft.playerCount
    ensures SelectingAsCurrent(s, id).Err? ==> r == Err(SelectingAsCurrent(s, id).error)
    ensures SelectingAsCurrent(s, id).Ok? && s.draft.drawIdx >= s.draft.playerCount ==>
      r == Err(SelectingCharactersErr(NotPickingCharacters))
    ensures r.Ok? ==> r.value == Peek(s.draft).value.characters
  {
    match SelectingAsCurrent(s, id)
    case Err(e) => Err(e)
    case Ok(_) =>
      match Peek(s.draft)
      case Err(e) => Err(SelectingCharactersErr(e))
      case Ok(p) => Ok(p.characters)
  }

  /** `player_get_closed_character`: the closed character, shown to the first picker only. */
  function ClosedCharacter(s: SelectingData, id: PlayerId): (r: Result<Character, GameError>)
    requires s.draft.playerCount >= 1
    ensures r.Ok? <==> SelectingAsCurrent(s, id).Ok? && s.draft.drawIdx == 0
    ensures SelectingAsCurrent(s, id).Err? ==> r == Err(SelectingAsCurrent(s, id).error)
    ensures SelectingAsCurrent(s, id).Ok? && s.draft.drawIdx >= s.draft.playerCount ==>
      r == Err(SelectingCharactersErr(NotPickingCharacters))
    ensures SelectingAsCurrent(s, id).Ok? && 0 < s.draft.drawIdx < s.draft.playerCount ==>
      r == Err(SelectingCharactersErr(NotChairman))
    ensures r.Ok? ==> r.value == s.draft.closed
  {
    match SelectingAsCurrent(s, id)
    case Err(e) => Err(e)
    case Ok(_) =>
      match Peek(s.draft)
      case Err(e) => Err(SelectingCharactersErr(e))
      case Ok(p) =>
        match p.closedCharacter
        case Some(c) => Ok(c)
        case None => Err(SelectingCharactersErr(NotChairman))
  }

  /**
   * Only the chairman sees the closed character, and the chairman is
   * offered n+1 characters for 4, 5 or 6 players and 7 for 7 players.
   */
  lemma OnlyChairmanSeesClosed(s: SelectingData, id: PlayerId)
    requires SelectingInv(s) && ClosedCharacter(s, id).Ok?
    ensures id == s.chairman
    ensures SelectableCharacters(s, id).Ok?
    ensures |SelectableCharacters(s, id).value| == (if |s.players| == 7 then 7 else |s.players| + 1)
  {
    OfferSize(s.draft);
  }

  /** `player_by_name` */
  function SelectingByName(players: seq<SelectingPlayerData>, name: string): (r: Result<SelectingPlayerData, GameError>)
    ensures r.Err? <==> forall i :: 0 <= i < |players| ==> players[i].name != name
    ensures r.Err? ==> r.error == InvalidPlayerName(name)
    ensures r.Ok? ==> r.value in players && r.value.name == name
  {
    match FindIndex(players, (p: SelectingPlayerData) => p.name == name)
    case None => Err(InvalidPlayerName(name))
    case Some(i) => Ok(players[i])
  }

  /** `player_info`: the public view of every player but `id`, in order. */
  function SelectingOthersInfo(players: seq<SelectingPlayerData>, id: PlayerId): (r: seq<PlayerInfo>)
    ensures |r| <= |players|
  {
    FilterMap(players, (p: SelectingPlayerData) => p.id != id, SelectingInfo)
  }

  /** When ids are positions, the others' views are those of the list without `id`. */
  lemma SelectingOthersInfoSkipsSelf(players: seq<SelectingPlayerData>, id: PlayerId)
    requires id < |players| && forall i :: 0 <= i < |players| ==> players[i].id == i
    ensures |SelectingOthersInfo(players, id)| == |players| - 1
    ensures forall k :: 0 <= k < |players| - 1 ==>
      SelectingOthersInfo(players, id)[k] == SelectingInfo(RemoveAt(players, id)[k])
  {
    FilterMapAllButOne(players, (p: SelectingPlayerData) => p.id != id, SelectingInfo, id);
  }

  /**
   * `turn_order`: the ids from the chairman up to the last seat, then from
   * seat 0 up to the chairman (`(start..limit).chain(0..start)` on `u8`).
   */
  function TurnOrder(chairman: PlayerId, playerCount: nat): (r: seq<PlayerId>)
    ensures chairman < playerCount < 256 ==>
      && |r| == playerCount
      && forall k :: 0 <= k < playerCount ==> r[k] == Seat(k, chairman, playerCount)
  {
    var limit := AsU8(playerCount);
    var first := if chairman < limit then limit - chairman else 0;
    seq(first + chairman, k requires 0 <= k < first + chairman => if k < first then chairman + k else k - first)
  }

  /**
   * The turn order starts with the chairman, lists every player exactly
   * once, and is the order in which the draft lets them pick.
   */
  lemma TurnOrderIsPickOrder(s: SelectingData)
    requires SelectingInv(s)
    ensures var order := TurnOrder(s.chairman, |s.players|);
      && |order| == |s.players| && order[0] == s.chairman
      && (forall i :: 0 <= i < |s.players| ==> order[Offset(i, s.chairman, |s.players|)] == i)
      && (forall a, b :: 0 <= a < b < |order| ==> order[a] != order[b])
      && (s.draft.drawIdx < |s.players| ==> order[s.draft.drawIdx] == CurrentlySelectingId(s))
  {
    var n := |s.players|;
    var order := TurnOrder(s.chairman, n);
    forall i | 0 <= i < n
      ensures order[Offset(i, s.chairman, n)] == i
    {
    }
    forall a, b | 0 <= a < b < n
      ensures order[a] != order[b]
    {
      assert Offset(order[a], s.chairman, n) == a && Offset(order[b], s.chairman, n) == b;
    }
    if s.draft.drawIdx < n {
      PickerIsSeat(s.draft);
    }
  }

  // ------------------------------------------------------ starting the round

  /**
   * `players.into_iter().map(TryInto::try_into).collect::<Result<_, _>>()`:
   * every player enters the round, or the first without a character stops
   * the conversion.
   */
  function ToRoundPlayers(ps: seq<SelectingPlayerData>): (r: Result<seq<RoundPlayerData>, GameError>)
    ensures r.Ok? <==> forall i :: 0 <= i < |ps| ==> ps[i].character.Some?
    ensures r.Err? ==> r.error == PlayerMissingCharacter
    ensures r.Ok? ==> |r.value| == |ps| && forall i :: 0 <= i < |ps| ==> Ok(r.value[i]) == RoundFromSelecting(ps[i])
  {
    if ps == [] then Ok([])
    else
      match RoundFromSelecting(ps[0])
      case Err(e) => Err(e)
      case Ok(p) =>
        match ToRoundPlayers(ps[1..])
        case Err(e) => Err(e)
        case Ok(rest) =>
          assert forall i :: 1 <= i < |ps| ==> ps[i] == ps[1..][i - 1];
          Ok([p] + rest)
  }

  /**
   * `min_by` on the characters: the position of the smallest character, the
   * first one when several are equal.
   */
  function SmallestCharacterAt(ps: seq<RoundPlayerData>): (i: nat)
    requires ps != []
    ensures i < |ps|
    ensures forall j :: 0 <= j < |ps| ==> Index(ps[i].character) <= Index(ps[j].character)
    ensures forall j :: 0 <= j < i ==> Index(ps[i].character) < Index(ps[j].character)
  {
    if |ps| == 1 then 0
    else
      var m := SmallestCharacterAt(ps[..|ps| - 1]);
      assert forall j :: 0 <= j < |ps| - 1 ==> ps[..|ps| - 1][j] == ps[j];
      if Before(ps[|ps| - 1].character, ps[m].character) then |ps| - 1 else m
  }

  /**
   * The round the last pick starts (`player_select_character`): every
   * player enters with its character, the holder of the smallest character
   * is current and alone starts its turn, nobody is fired yet, and the
   * decks, chairman, market, events and open characters carry over.
   */
  function RoundFromDraft(s: SelectingData): (res: Result<RoundData, GameError>)
    requires s.players != []
  {
    match ToRoundPlayers(s.players)
    case Err(e) => Err(e)
    case Ok(ps) =>
      var first := ps[SmallestCharacterAt(ps)].id;
      if first >= |ps| then Err(InvalidPlayerIndex(first))
      else Ok(RoundData(first, ps[first := TurnStarted(ps[first])], s.assets, s.liabilities, s.markets,
                        s.chairman, s.currentMarket, s.currentEvents, s.draft.open, [], false))
  }

  /**
   * Once everyone has picked, the round starts and is well formed: its
   * players are the drafted ones with distinct characters, the first player
   * holds the smallest character and alone has received its turn cash.
   */
  lemma RoundFromDraftEffects(s: SelectingData)
    requires SelectingInv(s) && s.draft.drawIdx == |s.players|
    ensures RoundFromDraft(s).Ok?
    ensures var r := RoundFromDraft(s).value;
      && RoundInv(r)
      && |r.players| == |s.players|
      && (forall j :: 0 <= j < |r.players| ==> Index(r.players[r.currentPlayer].character) <= Index(r.players[j].character))
      && (forall j :: 0 <= j < |r.players| ==> Some(r.players[j].character) == s.players[j].character)
      && (forall i, j :: 0 <= i < j < |r.players| ==> r.players[i].character != r.players[j].character)
      && (forall j :: 0 <= j < |r.players| && j != r.currentPlayer ==> Ok(r.players[j]) == RoundFromSelecting(s.players[j]))
      && Ok(r.players[r.currentPlayer].(cash := s.players[r.currentPlayer].cash)) == RoundFromSelecting(s.players[r.currentPlayer])
      && r.players[r.currentPlayer].cash == s.players[r.currentPlayer].cash + 1
      && r.firedCharacters == [] && r.openCharacters == s.draft.open && !r.isFinalRound
      && r.assets == s.assets && r.liabilities == s.liabilities && r.markets == s.markets
      && r.chairman == s.chairman && r.currentMarket == s.currentMarket && r.currentEvents == s.currentEvents
  {
    DraftedPlayers(s);
    var ps := ToRoundPlayers(s.players).value;
    RoundFromDraftShape(s, ps);
    var cur := SmallestCharacterAt(ps);
    RoundFromDrafted(s, ps, cur, RoundFromDraft(s).value);
    RoundFromDraftedPlayers(s, ps, cur, RoundFromDraft(s).value);
  }

  /** Once everyone has picked, every player converts: in order, with its id and its character. */
  lemma DraftedPlayers(s: SelectingData)
    requires SelectingInv(s) && s.draft.drawIdx == |s.players|
    ensures ToRoundPlayers(s.players).Ok?
    ensures var ps := ToRoundPlayers(s.players).value;
      && |ps| == |s.players|
      && (forall j :: 0 <= j < |ps| ==> Ok(ps[j]) == RoundFromSelecting(s.players[j]))
      && (forall i :: 0 <= i < |ps| ==> ps[i].id == i && PlayerInv(ps[i]))
      && (forall j :: 0 <= j < |ps| ==> Some(ps[j].character) == s.players[j].character)
      && (forall i, j :: 0 <= i < j < |ps| ==> ps[i].character != ps[j].character)
  {
    assert forall i :: 0 <= i < |s.players| ==> s.players[i].character.Some?;
  }

  /** The round built from converted players with distinct characters. */
  lemma RoundFromDrafted(s: SelectingData, ps: seq<RoundPlayerData>, cur: PlayerId, r: RoundData)
    requires ps != [] && |ps| == |s.players|
    requires forall j :: 0 <= j < |ps| ==> Ok(ps[j]) == RoundFromSelecting(s.players[j])
    requires forall i :: 0 <= i < |ps| ==> ps[i].id == i && PlayerInv(ps[i])
    requires forall j :: 0 <= j < |ps| ==> Some(ps[j].character) == s.players[j].character
    requires forall i, j :: 0 <= i < j < |ps| ==> ps[i].character != ps[j].character
    requires s.chairman < |s.players|
    requires s.assets.backup != [] && s.liabilities.backup != [] && HasMarket(s.markets.backup)
    requires cur < |ps| && forall j :: 0 <= j < |ps| ==> Index(ps[cur].character) <= Index(ps[j].character)
    requires r == RoundData(cur, ps[cur := TurnStarted(ps[cur])], s.assets, s.liabilities, s.markets,
                            s.chairman, s.currentMarket, s.currentEvents, s.draft.open, [], false)
    ensures
      && RoundInv(r)
      && |r.players| == |s.players|
      && (forall j :: 0 <= j < |r.players| ==> Index(r.players[r.currentPlayer].character) <= Index(r.players[j].character))
      && (forall j :: 0 <= j < |r.players| ==> Some(r.players[j].character) == s.players[j].character)
      && (forall i, j :: 0 <= i < j < |r.players| ==> r.players[i].character != r.players[j].character)
  {
    StartedPlayers(ps, cur);
  }

  /** The players of that round: all as drafted, but the first, who has received its turn cash. */
  lemma RoundFromDraftedPlayers(s: SelectingData, ps: seq<RoundPlayerData>, cur: PlayerId, r: RoundData)
    requires ps != [] && |ps| == |s.players|
    requires forall j :: 0 <= j < |ps| ==> Ok(ps[j]) == RoundFromSelecting(s.players[j])
    requires forall i :: 0 <= i < |ps| ==> ps[i].id == i && PlayerInv(ps[i])
    requires forall j :: 0 <= j < |ps| ==> Some(ps[j].character) == s.players[j].character
    requires forall i, j :: 0 <= i < j < |ps| ==> ps[i].character != ps[j].character
    requires s.chairman < |s.players|
    requires s.assets.backup != [] && s.liabilities.backup != [] && HasMarket(s.markets.backup)
    requires cur < |ps| && forall j :: 0 <= j < |ps| ==> Index(ps[cur].character) <= Index(ps[j].character)
    requires r == RoundData(cur, ps[cur := TurnStarted(ps[cur])], s.assets, s.liabilities, s.markets,
                            s.chairman, s.currentMarket, s.currentEvents, s.draft.open, [], false)
    ensures r.currentPlayer < |r.players| == |s.players|
    ensures forall j :: 0 <= j < |r.players| && j != r.currentPlayer ==> Ok(r.players[j]) == RoundFromSelecting(s.players[j])
    ensures Ok(r.players[r.currentPlayer].(cash := s.players[r.currentPlayer].cash)) == RoundFromSelecting(s.players[r.currentPlayer])
    ensures r.players[r.currentPlayer].cash == s.players[r.currentPlayer].cash + 1
  {
    StartedPlayers(ps, cur);
  }

  /** Once everyone has picked, the round can start. */
  lemma RoundFromDraftOk(s: SelectingData)
    requires SelectingInv(s) && s.draft.drawIdx == |s.players|
    ensures RoundFromDraft(s).Ok?
  {
    DraftedPlayers(s);
    RoundFromDraftShape(s, ToRoundPlayers(s.players).value);
  }

  /** The round of a completed draft, written out: the holder of the smallest character starts. */
  lemma RoundFromDraftShape(s: SelectingData, ps: seq<RoundPlayerData>)
    requires s.players != [] && ToRoundPlayers(s.players) == Ok(ps)
    requires forall i :: 0 <= i < |ps| ==> ps[i].id == i
    ensures var cur := SmallestCharacterAt(ps);
      RoundFromDraft(s) == Ok(RoundData(cur, ps[cur := TurnStarted(ps[cur])], s.assets, s.liabilities, s.markets,
                                        s.chairman, s.currentMarket, s.currentEvents, s.draft.open, [], false))
  {
    assert ps[SmallestCharacterAt(ps)].id == SmallestCharacterAt(ps);
  }

  /** Starting one player's turn changes that player's cash and nothing else of the players. */
  lemma StartedPlayers(ps: seq<RoundPlayerData>, cur: nat)
    requires cur < |ps|
    requires forall i :: 0 <= i < |ps| ==> ps[i].id == i && PlayerInv(ps[i])
    requires forall j :: 0 <= j < |ps| ==> Index(ps[cur].character) <= Index(ps[j].character)
    requires forall i, j :: 0 <= i < j < |ps| ==> ps[i].character != ps[j].character
    ensures var qs := ps[cur := TurnStarted(ps[cur])];
      && |qs| == |ps|
      && (forall i :: 0 <= i < |qs| ==> qs[i].id == i && PlayerInv(qs[i]) && qs[i].character == ps[i].character)
      && (forall j :: 0 <= j < |qs| ==> Index(qs[cur].character) <= Index(qs[j].character))
      && (forall i, j :: 0 <= i < j < |qs| ==> qs[i].character != qs[j].character)
      && (forall j :: 0 <= j < |qs| && j != cur ==> qs[j] == ps[j])
      && qs[cur].(cash := ps[cur].cash) == ps[cur] && qs[cur].cash == ps[cur].cash + 1
  {
  }

  // ---------------------------------------------------------------- picking

  /**
   * `player_select_character`: the current picker takes a character the
   * draft offers. While picks remain the phase goes on; the last pick
   * returns the round that starts.
   */
  function SelectedInPhase(s: SelectingData, id: PlayerId, c: Character): (res: Result<(SelectingData, Option<RoundData>), GameError>)
    requires s.draft.playerCount >= 1 && s.players != []
  {
    match PickedInPhase(s, id, c)
    case Err(e) => Err(e)
    case Ok(next) =>
      if Peek(next.draft).Ok? then Ok((next, None))
      else match RoundFromDraft(next)
        case Err(e) => Err(e)
        case Ok(round) => Ok((next, Some(round)))
  }

  /** The pick itself, before the phase looks whether the draft is over. */
  function PickedInPhase(s: SelectingData, id: PlayerId, c: Character): (res: Result<SelectingData, GameError>)
    requires s.draft.playerCount >= 1
    ensures res.Ok? ==> res.value.players != [] && res.value.draft.playerCount >= 1
  {
    match SelectingAsCurrent(s, id)
    case Err(e) => Err(e)
    case Ok(p) =>
      match Pick(s.draft, c)
      case Err(e) => Err(SelectingCharactersErr(e))
      case Ok(draft) =>
        match Selected(p, c)
        case Err(e) => Err(SelectingCharactersErr(e))
        case Ok(q) => Ok(s.(players := s.players[id := q], draft := draft))
  }

  /** Removing a character from a list without repeats leaves a list without repeats and without it. */
  lemma DistinctRemoveFirst(offer: seq<Character>, c: Character)
    requires Distinct(offer) && c in offer
    ensures Distinct(RemoveFirst(offer, c)) && c !in RemoveFirst(offer, c)
    ensures forall x :: x in RemoveFirst(offer, c) ==> x in offer
  {
    var k := IndexOf(offer, c);
    var r := RemoveFirst(offer, c);
    assert r == RemoveAt(offer, k);
    RemoveAtDistinct(offer, k);
    forall x | x in r
      ensures x in offer
    {
      var j :| 0 <= j < |r| && r[j] == x;
      if j < k {
        assert offer[j] == x;
      } else {
        assert offer[j + 1] == x;
      }
    }
  }

  /** What the draft offers holds each character once and none that a player holds. */
  lemma OfferIsFree(s: SelectingData)
    requires SelectingInv(s) && s.draft.drawIdx < |s.players|
    ensures Distinct(Peek(s.draft).value.characters)
    ensures forall i :: 0 <= i < |s.players| && s.players[i].character.Some? ==>
      s.players[i].character.value !in Peek(s.draft).value.characters
  {
    var d := s.draft;
    if d.drawIdx == |s.players| - 1 && 0 < d.drawIdx {
      assert Peek(d).value.characters == d.available + [d.closed];
    }
  }

  /** The picker's seat is the next one without a character, and taking it keeps the invariant. */
  lemma PickKeepsSelectingInv(s: SelectingData, id: PlayerId, c: Character)
    requires SelectingInv(s) && SelectingAsCurrent(s, id).Ok? && Pick(s.draft, c).Ok?
    ensures s.players[id].character.None?
    ensures SelectingInv(s.(players := s.players[id := s.players[id].(character := Some(c))], draft := Pick(s.draft, c).value))
  {
    var n := |s.players|;
    var d := s.draft;
    PickerIsSeat(d);
    assert Offset(id, s.chairman, n) == d.drawIdx;
    var offer := Peek(d).value.characters;
    PickRemovesOne(d, c);
    PickInv(d, c);
    OfferIsFree(s);
    DistinctRemoveFirst(offer, c);
    var e := Pick(d, c).value;
    assert e.available == RemoveFirst(offer, c);
  }

  /**
   * The pick alone: it fails as the lookup of the picker or the draft
   * fails, and otherwise records the character and keeps the phase well
   * formed.
   */
  lemma PickedOutcomes(s: SelectingData, id: PlayerId, c: Character)
    requires SelectingInv(s)
    ensures SelectingAsCurrent(s, id).Err? ==> PickedInPhase(s, id, c) == Err(SelectingAsCurrent(s, id).error)
    ensures SelectingAsCurrent(s, id).Ok? && Pick(s.draft, c).Err? ==>
      PickedInPhase(s, id, c) == Err(SelectingCharactersErr(Pick(s.draft, c).error))
    ensures PickedInPhase(s, id, c).Ok? <==> SelectingAsCurrent(s, id).Ok? && Pick(s.draft, c).Ok?
    ensures PickedInPhase(s, id, c).Ok? ==> var t := PickedInPhase(s, id, c).value;
      && SelectingInv(t)
      && t == s.(players := s.players[id := s.players[id].(character := Some(c))], draft := Pick(s.draft, c).value)
  {
    if SelectingAsCurrent(s, id).Ok? && Pick(s.draft, c).Ok? {
      PickKeepsSelectingInv(s, id, c);
    }
  }

  /** Picking is impossible out of turn, fails only as the draft refuses, and never finds the picker holding a character. */
  lemma SelectionOutcomes(s: SelectingData, id: PlayerId, c: Character)
    requires SelectingInv(s)
    ensures SelectingAsCurrent(s, id).Err? ==> SelectedInPhase(s, id, c) == Err(SelectingAsCurrent(s, id).error)
    ensures SelectingAsCurrent(s, id).Ok? && Pick(s.draft, c).Err? ==>
      SelectedInPhase(s, id, c) == Err(SelectingCharactersErr(Pick(s.draft, c).error))
    ensures SelectedInPhase(s, id, c).Ok? <==> SelectingAsCurrent(s, id).Ok? && Pick(s.draft, c).Ok?
    ensures SelectedInPhase(s, id, c).Ok? ==> var (t, out) := SelectedInPhase(s, id, c).value;
      && SelectingInv(t)
      && t == s.(players := s.players[id := s.players[id].(character := Some(c))], draft := Pick(s.draft, c).value)
      && (out.Some? <==> s.draft.drawIdx + 1 == |s.players|)
      && (out.Some? ==> RoundFromDraft(t) == Ok(out.value))
  {
    if SelectingAsCurrent(s, id).Ok? && Pick(s.draft, c).Ok? {
      SelectionSucceeds(s, id, c);
    }
  }

  /** A pick by the current picker of an offered character: the successful half of `SelectionOutcomes`. */
  lemma SelectionSucceeds(s: SelectingData, id: PlayerId, c: Character)
    requires SelectingInv(s) && SelectingAsCurrent(s, id).Ok? && Pick(s.draft, c).Ok?
    ensures SelectedInPhase(s, id, c).Ok?
    ensures var w := SelectedInPhase(s, id, c).value;
      && SelectingInv(w.0)
      && w.0 == s.(players := s.players[id := s.players[id].(character := Some(c))], draft := Pick(s.draft, c).value)
      && (w.1.Some? <==> s.draft.drawIdx + 1 == |s.players|)
      && (w.1.Some? ==> RoundFromDraft(w.0) == Ok(w.1.value))
  {
    PickedOutcomes(s, id, c);
    var t := PickedInPhase(s, id, c).value;
    if t.draft.drawIdx == |s.players| {
      RoundFromDraftOk(t);
    }
  }

  // ---------------------------------------------------------------- the class

  class SelectingCharacters {
    var players: seq<SelectingPlayerData>
    const characters: ObtainingCharacters
    const assets: Deck<Asset>
    const liabilities: Deck<Liability>
    const markets: Deck<MarketCard>
    const chairman: PlayerId
    const currentMarket: Market
    const currentEvents: seq<Event>

    /** The phase in the given state, with decks and a draft of its own. */
    constructor FromData(s: SelectingData)
      requires SelectingInv(s)
      ensures Valid() && Data() == s
      ensures fresh(characters) && fresh(characters.availableCharacters) && fresh(assets) && fresh(liabilities) && fresh(markets)
    {
      players := s.players;
      characters := new ObtainingCharacters.FromData(s.draft);
      assets := new Deck.FromData(s.assets);
      liabilities := new Deck.FromData(s.liabilities);
      markets := new Deck.FromData(s.markets);
      chairman := s.chairman;
      currentMarket := s.currentMarket;
      currentEvents := s.currentEvents;
    }

    function Data(): SelectingData
      reads this, characters, characters.availableCharacters, assets, liabilities, markets
    {
      SelectingData(players, characters.Data(), assets.Data(), liabilities.Data(), markets.Data(),
                    chairman, currentMarket, currentEvents)
    }

    ghost predicate Valid()
      reads this, characters, characters.availableCharacters, assets, liabilities, markets
    {
      SelectingInv(Data())
    }

    /**
     * `player_select_character`: on the last pick a new round is returned
     * that takes over this phase's decks.
     */
    method PlayerSelectCharacter(id: PlayerId, c: Character) returns (res: Result<Option<Round>, GameError>)
      requires Valid()
      modifies this`players, characters, characters.availableCharacters
      ensures Valid() && characters.availableCharacters == old(characters.availableCharacters)
      ensures match SelectedInPhase(old(Data()), id, c)
        case Err(e) => res == Err(e) && Data() == old(Data())
        case Ok((t, out)) =>
          && Data() == t && res.Ok? && (res.value.Some? <==> out.Some?)
          && (out.Some? ==> var round := res.value.value;
                && fresh(round) && round.Valid() && round.Data() == out.value
                && round.assets == assets && round.liabilities == liabilities && round.markets == markets)
    {
      SelectionOutcomes(Data(), id, c);
      var taken := TakeCharacter(id, c);
      if taken.Err? {
        return Err(taken.error);
      }
      if characters.PeekOffer().Ok? {
        return Ok(None);
      }
      var round := StartRound();
      return Ok(Some(round));
    }

    /** The pick itself: the draft hands out the character and the picker records it. */
    method TakeCharacter(id: PlayerId, c: Character) returns (res: Result<(), GameError>)
      requires Valid()
      modifies this`players, characters, characters.availableCharacters
      ensures Valid() && characters.availableCharacters == old(characters.availableCharacters)
      ensures match PickedInPhase(old(Data()), id, c)
        case Err(e) => res == Err(e) && Data() == old(Data())
        case Ok(t) => res.Ok? && Data() == t
    {
      PickedOutcomes(Data(), id, c);
      if id >= |players| {
        return Err(InvalidPlayerIndex(id));
      }
      if players[id].id != CurrentlySelectingId(Data()) {
        return Err(NotPlayersTurn);
      }
      ghost var before := Data();
      var picked := characters.PickCharacter(c);
      if picked.Err? {
        return Err(SelectingCharactersErr(picked.error));
      }
      var selected := Selected(players[id], c);
      if selected.Err? {
        assert false;
      }
      players := players[id := selected.value];
      assert Data() == PickedInPhase(before, id, c).value;
      return Ok(());
    }

    /** Builds the round of a completed draft, starting the first player's turn. */
    method StartRound() returns (round: Round)
      requires Valid() && characters.drawIdx == |players|
      ensures fresh(round) && round.Valid() && Ok(round.Data()) == RoundFromDraft(Data())
      ensures round.assets == assets && round.liabilities == liabilities && round.markets == markets
    {
      RoundFromDraftEffects(Data());
      var ps := ToRoundPlayers(players).value;
      var first := ps[SmallestCharacterAt(ps)].id;
      var p := new RoundPlayer.FromData(ps[first]);
      p.StartTurn();
      round := new Round(ps[first := p.Data()], assets, liabilities, markets, first, chairman,
                         currentMarket, currentEvents, characters.openCharacters);
    }
  }
}
