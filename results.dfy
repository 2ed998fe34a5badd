// The results phase (game/src/game/results.rs): the players once the game
// has ended, the final market and the events of the game. Each player may
// still try out its asset abilities on its own copy of the market and its
// own assets; the scores are listed per player. The floating-point score is
// a parameter of this model.
module Results {
  import opened Wrappers
  import opened Vocabulary
  import opened Errors
  import opened Sequences
  import opened PlayerLists
  import opened PlayerRecords
  import opened ResultsPlayers

  datatype ResultsData = ResultsData(players: seq<ResultsPlayerData>, finalMarket: Market, finalEvents: seq<Event>)

  /** `PlayerScore`: a player's id and name with its final score; its getters are the fields. */
  datatype PlayerScore = PlayerScore(id: PlayerId, name: string, score: real)

  /** Ids are positions and every player's ability records name its own assets. */
  ghost predicate ResultsInv(r: ResultsData)
  {
    && (forall i :: 0 <= i < |r.players| ==> r.players[i].id == i)
    && (forall i :: 0 <= i < |r.players| ==> RecordsInRange(r.players[i]))
  }

  /** The results phase a final round ends in: every player keeps its holdings and starts with no toggles. */
  lemma FromRoundKeepsResultsInv(players: seq<RoundPlayerData>, market: Market, events: seq<Event>)
    requires forall i :: 0 <= i < |players| ==> players[i].id == i
    ensures ResultsInv(ResultsData(seq(|players|, i requires 0 <= i < |players| => ResultsFromRound(players[i], market)), market, events))
  {
  }

  // ---------------------------------------------------------------- lookups

  /** `player_by_name` */
  function ResultsByName(players: seq<ResultsPlayerData>, name: string): (r: Result<ResultsPlayerData, GameError>)
    ensures r.Err? <==> forall i :: 0 <= i < |players| ==> players[i].name != name
    ensures r.Err? ==> r.error == InvalidPlayerName(name)
    ensures r.Ok? ==> r.value in players && r.value.name == name
  {
    match FindIndex(players, (p: ResultsPlayerData) => p.name == name)
    case None => Err(InvalidPlayerName(name))
    case Some(i) => Ok(players[i])
  }

  /** `player_scores`: one score per player, in player order. */
  function PlayerScores(players: seq<ResultsPlayerData>, score: ResultsPlayerData -> real): (s: seq<PlayerScore>)
    ensures |s| == |players|
    ensures forall i :: 0 <= i < |s| ==> s[i].id == players[i].id && s[i].name == players[i].name && s[i].score == score(players[i])
  {
    seq(|players|, i requires 0 <= i < |players| => PlayerScore(players[i].id, players[i].name, score(players[i])))
  }

  /** When ids are positions, the score list gives every player's score under its own id, and no id twice. */
  lemma ScoresNameEveryPlayerOnce(players: seq<ResultsPlayerData>, score: ResultsPlayerData -> real)
    requires forall i :: 0 <= i < |players| ==> players[i].id == i
    ensures forall i: PlayerId :: i < |players| ==> PlayerScores(players, score)[i] == PlayerScore(i, players[i].name, score(players[i]))
    ensures forall i, j :: 0 <= i < j < |players| ==> PlayerScores(players, score)[i].id != PlayerScores(players, score)[j].id
  {
  }

  /** `player_info`: the public view of every player but `id`, in order. */
  function ResultsOthersInfo(players: seq<ResultsPlayerData>, id: PlayerId): (r: seq<PlayerInfo>)
    ensures |r| <= |players|
  {
    FilterMap(players, (p: ResultsPlayerData) => p.id != id, ResultsInfo)
  }

  /** When ids are positions, the others' views are those of the list without `id`, and nobody else is left out. */
  lemma ResultsOthersInfoSkipsSelf(players: seq<ResultsPlayerData>, id: PlayerId)
    requires forall i :: 0 <= i < |players| ==> players[i].id == i
    ensures id < |players| ==> |ResultsOthersInfo(players, id)| == |players| - 1
    ensures id < |players| ==> forall k :: 0 <= k < |players| - 1 ==>
      ResultsOthersInfo(players, id)[k] == ResultsInfo(RemoveAt(players, id)[k])
    ensures id >= |players| ==> ResultsOthersInfo(players, id) == seq(|players|, i requires 0 <= i < |players| => ResultsInfo(players[i]))
  {
    if id < |players| {
      FilterMapAllButOne(players, (p: ResultsPlayerData) => p.id != id, ResultsInfo, id);
    } else {
      FilterMapAll(players, (p: ResultsPlayerData) => p.id != id, ResultsInfo);
    }
  }

  // ----------------------------------------------------- one player's abilities

  /** `Results::minus_into_plus`: player `id`'s market becomes the final one with `color` raised. */
  function RaisedFor(r: ResultsData, id: PlayerId, color: Color): (res: Result<(ResultsData, Market), GameError>)
    ensures res.Ok? <==> id < |r.players|
    ensures res.Err? ==> res.error == InvalidPlayerIndex(id)
    ensures res.Ok? ==>
      && res.value.1 == RaisedMarket(r.finalMarket, color)
      && res.value.0 == r.(players := r.players[id := r.players[id].(market := res.value.1)])
  {
    if id >= |r.players| then Err(InvalidPlayerIndex(id))
    else
      var m := RaisedMarket(r.finalMarket, color);
      Ok((r.(players := r.players[id := r.players[id].(market := m)]), m))
  }

  /** `Results::toggle_silver_into_gold`: player `id` alone toggles, as a results player does. */
  function ToggledSilverFor(r: ResultsData, id: PlayerId, assetIdx: nat): (res: Result<(ResultsData, SilverIntoGoldToggle), GameError>)
    requires ResultsInv(r)
    ensures id >= |r.players| ==> res == Err(InvalidPlayerIndex(id))
    ensures id < |r.players| ==> match ToggledSilver(r.players[id], assetIdx)
      case Err(e) => res == Err(e)
      case Ok((p, t)) => res == Ok((r.(players := r.players[id := p]), t))
  {
    if id >= |r.players| then Err(InvalidPlayerIndex(id))
    else match ToggledSilver(r.players[id], assetIdx)
      case Err(e) => Err(e)
      case Ok((p, t)) => Ok((r.(players := r.players[id := p]), t))
  }

  /** `Results::toggle_change_asset_color`: player `id` alone toggles. */
  function ToggledColorFor(r: ResultsData, id: PlayerId, assetIdx: nat, color: Color): (res: Result<(ResultsData, ChangeAssetColorToggle), GameError>)
    requires ResultsInv(r)
    ensures id >= |r.players| ==> res == Err(InvalidPlayerIndex(id))
    ensures id < |r.players| ==> match ToggledColor(r.players[id], assetIdx, color)
      case Err(e) => res == Err(e)
      case Ok((p, t)) => res == Ok((r.(players := r.players[id := p]), t))
  {
    if id >= |r.players| then Err(InvalidPlayerIndex(id))
    else match ToggledColor(r.players[id], assetIdx, color)
      case Err(e) => Err(e)
      case Ok((p, t)) => Ok((r.(players := r.players[id := p]), t))
  }

  /** `Results::confirm_asset_ability`: player `id` alone confirms. */
  function ConfirmedFor(r: ResultsData, id: PlayerId, assetIdx: nat): (res: Result<(ResultsData, ()), GameError>)
    ensures id >= |r.players| ==> res == Err(InvalidPlayerIndex(id))
    ensures id < |r.players| ==> match Confirmed(r.players[id], assetIdx)
      case Err(e) => res == Err(e)
      case Ok((p, t)) => res == Ok((r.(players := r.players[id := p]), t))
  {
    if id >= |r.players| then Err(InvalidPlayerIndex(id))
    else match Confirmed(r.players[id], assetIdx)
      case Err(e) => Err(e)
      case Ok((p, t)) => Ok((r.(players := r.players[id := p]), t))
  }

  /**
   * An ability call changes the addressed player only, keeps every
   * player's id and the phase well formed; a failed call changes nothing.
   */
  lemma AbilitiesKeepResultsInv(r: ResultsData, id: PlayerId, assetIdx: nat, color: Color)
    requires ResultsInv(r)
    ensures RaisedFor(r, id, color).Ok? ==> ResultsInv(RaisedFor(r, id, color).value.0)
    ensures ToggledSilverFor(r, id, assetIdx).Ok? ==> var q := ToggledSilverFor(r, id, assetIdx).value.0;
      && ResultsInv(q) && q.finalMarket == r.finalMarket && q.finalEvents == r.finalEvents
      && |q.players| == |r.players| && forall i :: 0 <= i < |r.players| && i != id ==> q.players[i] == r.players[i]
    ensures ToggledColorFor(r, id, assetIdx, color).Ok? ==> var q := ToggledColorFor(r, id, assetIdx, color).value.0;
      && ResultsInv(q) && q.finalMarket == r.finalMarket && q.finalEvents == r.finalEvents
      && |q.players| == |r.players| && forall i :: 0 <= i < |r.players| && i != id ==> q.players[i] == r.players[i]
    ensures ConfirmedFor(r, id, assetIdx).Ok? ==> var q := ConfirmedFor(r, id, assetIdx).value.0;
      && ResultsInv(q) && |q.players| == |r.players| && forall i :: 0 <= i < |r.players| && i != id ==> q.players[i] == r.players[i]
  {
    RaisedKeepsResultsInv(r, id, color);
    ToggledSilverKeepsResultsInv(r, id, assetIdx);
    ToggledColorKeepsResultsInv(r, id, assetIdx, color);
    ConfirmedKeepsResultsInv(r, id, assetIdx);
  }

  /** `minus_into_plus` keeps the results well formed. */
  lemma RaisedKeepsResultsInv(r: ResultsData, id: PlayerId, color: Color)
    requires ResultsInv(r)
    ensures RaisedFor(r, id, color).Ok? ==> ResultsInv(RaisedFor(r, id, color).value.0)
  {
  }

  /** `toggle_silver_into_gold` keeps the results well formed and touches only player `id`. */
  lemma ToggledSilverKeepsResultsInv(r: ResultsData, id: PlayerId, assetIdx: nat)
    requires ResultsInv(r)
    ensures ToggledSilverFor(r, id, assetIdx).Ok? ==> var q := ToggledSilverFor(r, id, assetIdx).value.0;
      && ResultsInv(q) && q.finalMarket == r.finalMarket && q.finalEvents == r.finalEvents
      && |q.players| == |r.players| && forall i :: 0 <= i < |r.players| && i != id ==> q.players[i] == r.players[i]
  {
  }

  /** `toggle_change_asset_color` keeps the results well formed and touches only player `id`. */
  lemma ToggledColorKeepsResultsInv(r: ResultsData, id: PlayerId, assetIdx: nat, color: Color)
    requires ResultsInv(r)
    ensures ToggledColorFor(r, id, assetIdx, color).Ok? ==> var q := ToggledColorFor(r, id, assetIdx, color).value.0;
      && ResultsInv(q) && q.finalMarket == r.finalMarket && q.finalEvents == r.finalEvents
      && |q.players| == |r.players| && forall i :: 0 <= i < |r.players| && i != id ==> q.players[i] == r.players[i]
  {
  }

  /** `confirm_asset_ability` keeps the results well formed and touches only player `id`. */
  lemma ConfirmedKeepsResultsInv(r: ResultsData, id: PlayerId, assetIdx: nat)
    requires ResultsInv(r)
    ensures ConfirmedFor(r, id, assetIdx).Ok? ==> var q := ConfirmedFor(r, id, assetIdx).value.0;
      && ResultsInv(q) && |q.players| == |r.players| && forall i :: 0 <= i < |r.players| && i != id ==> q.players[i] == r.players[i]
  {
  }

  // ---------------------------------------------------------------- the class

  class ResultsPhase {
    var players: seq<ResultsPlayerData>
    const finalMarket: Market
    const finalEvents: seq<Event>

    constructor (ps: seq<ResultsPlayerData>, market: Market, events: seq<Event>)
      ensures Data() == ResultsData(ps, market, events)
    {
      players, finalMarket, finalEvents := ps, market, events;
    }

    function Data(): ResultsData
      reads this
    {
      ResultsData(players, finalMarket, finalEvents)
    }

    ghost predicate Valid()
      reads this
    {
      ResultsInv(Data())
    }

    /** `minus_into_plus` on player `id`, returning its new market. */
    method MinusIntoPlus(id: PlayerId, color: Color) returns (res: Result<Market, GameError>)
      requires Valid()
      modifies this`players
      ensures Valid()
      ensures Settled(RaisedFor(old(Data()), id, color), res, old(Data()), Data())
    {
      RaisedKeepsResultsInv(Data(), id, color);
      if id >= |players| {
        return Err(InvalidPlayerIndex(id));
      }
      var p := new ResultsPlayer.FromData(players[id]);
      var m := p.MinusIntoPlus(color, finalMarket);
      players := players[id := p.Data()];
      res := Ok(m);
    }

    /** `toggle_silver_into_gold` on player `id` */
    method ToggleSilverIntoGold(id: PlayerId, assetIdx: nat) returns (res: Result<SilverIntoGoldToggle, GameError>)
      requires Valid()
      modifies this`players
      ensures Valid()
      ensures Settled(ToggledSilverFor(old(Data()), id, assetIdx), res, old(Data()), Data())
    {
      ToggledSilverKeepsResultsInv(Data(), id, assetIdx);
      if id >= |players| {
        return Err(InvalidPlayerIndex(id));
      }
      var p := new ResultsPlayer.FromData(players[id]);
      res := p.ToggleSilverIntoGold(assetIdx);
      if res.Ok? {
        players := players[id := p.Data()];
      }
    }

    /** `toggle_change_asset_color` on player `id` */
    method ToggleChangeAssetColor(id: PlayerId, assetIdx: nat, color: Color) returns (res: Result<ChangeAssetColorToggle, GameError>)
      requires Valid()
      modifies this`players
      ensures Valid()
      ensures Settled(ToggledColorFor(old(Data()), id, assetIdx, color), res, old(Data()), Data())
    {
      ToggledColorKeepsResultsInv(Data(), id, assetIdx, color);
      if id >= |players| {
        return Err(InvalidPlayerIndex(id));
      }
      var p := new ResultsPlayer.FromData(players[id]);
      res := p.ToggleChangeAssetColor(assetIdx, color);
      if res.Ok? {
        players := players[id := p.Data()];
      }
    }

    /** `confirm_asset_ability` on player `id` */
    method ConfirmAssetAbility(id: PlayerId, assetIdx: nat) returns (res: Result<(), GameError>)
      requires Valid()
      modifies this`players
      ensures Valid()
      ensures Settled(ConfirmedFor(old(Data()), id, assetIdx), res, old(Data()), Data())
    {
      ConfirmedKeepsResultsInv(Data(), id, assetIdx);
      if id >= |players| {
        return Err(InvalidPlayerIndex(id));
      }
      var p := new ResultsPlayer.FromData(players[id]);
      res := p.ConfirmAssetAbility(assetIdx);
      if res.Ok? {
        players := players[id := p.Data()];
      }
    }
  }
}
