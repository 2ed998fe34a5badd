// `ResultsPlayer` (game/src/player/results.rs): a player once the game has
// ended. Each player keeps a personal copy of the final market and may try
// out the asset abilities (raise a colour of that market, turn an asset's
// silver into gold, recolour an asset) as toggles before confirming them.
// The totals that feed the score are sums over the holdings; the
// floating-point score itself is not part of this model.
module ResultsPlayers {
  import opened Wrappers
  import opened Vocabulary
  import opened Errors
  import opened MarketRules
  import opened PlayerRules
  import opened PlayerRecords

  /** What a silver-into-gold toggle reports: the asset it reset and the asset it converted. */
  datatype SilverIntoGoldToggle = SilverIntoGoldToggle(
    oldAssetData: Option<SilverIntoGoldData>,
    newAssetData: Option<SilverIntoGoldData>)

  /** What a change-colour toggle reports: the asset it reset and the asset it recoloured. */
  datatype ChangeAssetColorToggle = ChangeAssetColorToggle(
    oldAssetData: Option<ChangeAssetColorData>,
    newAssetData: Option<ChangeAssetColorData>)

  /** `ResultsPlayer::new`: the round player's holdings, with `market` as its own market. */
  function ResultsFromRound(p: RoundPlayerData, market: Market): (r: ResultsPlayerData)
    ensures RecordsInRange(r)
    ensures r.id == p.id && r.name == p.name && r.cash == p.cash
    ensures r.assets == p.assets && r.liabilities == p.liabilities && r.hand == p.hand
    ensures r.market == market
    ensures r.oldSilverIntoGold.None? && r.oldChangeAssetColor.None? && r.confirmedAssetAbilityIdxs == []
  {
    ResultsPlayerData(p.id, p.name, p.cash, p.assets, p.liabilities, p.hand, market, None, None, [])
  }

  /** `From<&ResultsPlayer> for PlayerInfo`: a results player shows no character. */
  function ResultsInfo(p: ResultsPlayerData): (r: PlayerInfo)
    ensures r.hand == HandKinds(p.hand) && r.character.None?
    ensures r.name == p.name && r.id == p.id && r.cash == p.cash
    ensures r.assets == p.assets && r.liabilities == p.liabilities
  {
    PlayerInfo(p.name, p.id, HandKinds(p.hand), p.assets, p.liabilities, p.cash, None)
  }

  /**
   * What the toggles rely on: a recorded index names an owned asset, the
   * converted asset has no silver left and its recorded silver can be taken
   * back out of its gold.
   */
  predicate RecordsInRange(d: ResultsPlayerData)
  {
    && (d.oldSilverIntoGold.Some? ==>
          && d.oldSilverIntoGold.value.assetIdx < |d.assets|
          && d.assets[d.oldSilverIntoGold.value.assetIdx].silverValue == 0
          && d.oldSilverIntoGold.value.silverValue <= d.assets[d.oldSilverIntoGold.value.assetIdx].goldValue)
    && (d.oldChangeAssetColor.Some? ==> d.oldChangeAssetColor.value.assetIdx < |d.assets|)
  }

  // ------------------------------------------------------------- abilities

  /** `asset_ability_prechecks`: the index must name an asset whose ability is not yet confirmed. */
  function AbilityPrecheck(d: ResultsPlayerData, assetIdx: nat): (r: Result<(), GameError>)
    ensures r.Ok? <==> assetIdx < |d.assets| && assetIdx !in d.confirmedAssetAbilityIdxs
    ensures assetIdx >= |d.assets| ==> r == Err(InvalidAssetIndex(AsU8(assetIdx)))
    ensures assetIdx < |d.assets| && assetIdx in d.confirmedAssetAbilityIdxs ==>
      r == Err(CardAbilityErr(AlreadyConfirmedAssetIndex(AsU8(assetIdx))))
  {
    if assetIdx >= |d.assets| then Err(InvalidAssetIndex(AsU8(assetIdx)))
    else if assetIdx in d.confirmedAssetAbilityIdxs then Err(CardAbilityErr(AlreadyConfirmedAssetIndex(AsU8(assetIdx))))
    else Ok(())
  }

  /**
   * `minus_into_plus`: the personal market becomes `finalMarket` with the
   * colour raised one step, whatever the personal market was before.
   */
  function RaisedMarket(finalMarket: Market, color: Color): (m: Market)
    ensures ColorCondition(m, color) == MakeHigher(ColorCondition(finalMarket, color))
    ensures forall c :: c != color ==> ColorCondition(m, c) == ColorCondition(finalMarket, c)
    ensures m.title == finalMarket.title && m.rfr == finalMarket.rfr && m.mrp == finalMarket.mrp
  {
    WithCondition(finalMarket, color, MakeHigher(ColorCondition(finalMarket, color)))
  }

  /** Raising a colour depends only on the final market, so doing it twice is doing it once. */
  lemma MinusIntoPlusIdempotent(d: ResultsPlayerData, color: Color, finalMarket: Market)
    ensures var once := d.(market := RaisedMarket(finalMarket, color));
      once.(market := RaisedMarket(finalMarket, color)) == once
  {
  }

  /** The asset with its silver added to its gold and no silver left. */
  function FoldSilver(a: Asset): (r: Asset)
    ensures r.silverValue == 0 && r.goldValue == a.goldValue + a.silverValue
    ensures r.(goldValue := a.goldValue, silverValue := a.silverValue) == a
  {
    a.(goldValue := a.goldValue + a.silverValue, silverValue := 0)
  }

  /** The asset with `silver` taken back out of its gold into its silver. */
  function UnfoldSilver(a: Asset, silver: nat): (r: Asset)
    requires silver <= a.goldValue
    ensures r.silverValue == silver && r.goldValue + silver == a.goldValue
    ensures r.(goldValue := a.goldValue, silverValue := a.silverValue) == a
  {
    a.(goldValue := a.goldValue - silver, silverValue := silver)
  }

  /**
   * `toggle_silver_into_gold`, as written. A previous conversion is first
   * reset from its record; then, unless the same index is asked for again,
   * the asked asset is converted and recorded with its values afterwards.
   * Because the record holds the silver after conversion, which is 0, the
   * reset leaves the asset as it is.
   */
  function ToggledSilver(d: ResultsPlayerData, assetIdx: nat): (r: Result<(ResultsPlayerData, SilverIntoGoldToggle), GameError>)
    requires RecordsInRange(d)
    ensures r.Err? <==> AbilityPrecheck(d, assetIdx).Err?
    ensures r.Err? ==> r.error == AbilityPrecheck(d, assetIdx).error
    ensures r.Ok? ==> var q := r.value.0;
      && RecordsInRange(q)
      && q.(assets := d.assets, oldSilverIntoGold := d.oldSilverIntoGold) == d
      && |q.assets| == |d.assets|
    ensures r.Ok? && (d.oldSilverIntoGold.None? || d.oldSilverIntoGold.value.assetIdx != assetIdx) ==> (
      && r.value.0.oldSilverIntoGold == Some(SilverIntoGoldData(assetIdx, r.value.0.assets[assetIdx].goldValue, 0))
      && r.value.1.newAssetData == r.value.0.oldSilverIntoGold
      && r.value.0.assets[assetIdx] == FoldSilver(d.assets[assetIdx]))
    ensures r.Ok? && d.oldSilverIntoGold.Some? && d.oldSilverIntoGold.value.assetIdx == assetIdx ==>
      r.value.0.oldSilverIntoGold.None? && r.value.1.newAssetData.None?
    ensures r.Ok? && d.oldSilverIntoGold.None? ==>
      forall j :: 0 <= j < |d.assets| && j != assetIdx ==> r.value.0.assets[j] == d.assets[j]
    ensures r.Ok? && d.oldSilverIntoGold.Some? ==> var prev := d.oldSilverIntoGold.value;
      && r.value.0.assets[prev.assetIdx] == UnfoldSilver(d.assets[prev.assetIdx], prev.silverValue)
      && (forall j :: 0 <= j < |d.assets| && j != assetIdx && j != prev.assetIdx ==> r.value.0.assets[j] == d.assets[j])
    ensures r.Ok? ==> (r.value.1.oldAssetData.Some? <==> d.oldSilverIntoGold.Some?)
  {
    if AbilityPrecheck(d, assetIdx).Err? then Err(AbilityPrecheck(d, assetIdx).error)
    else match d.oldSilverIntoGold
      case None =>
        var a := FoldSilver(d.assets[assetIdx]);
        var newData := SilverIntoGoldData(assetIdx, a.goldValue, a.silverValue);
        Ok((d.(assets := d.assets[assetIdx := a], oldSilverIntoGold := Some(newData)), SilverIntoGoldToggle(None, Some(newData))))
      case Some(prev) =>
        var restored := UnfoldSilver(d.assets[prev.assetIdx], prev.silverValue);
        var assets := d.assets[prev.assetIdx := restored];
        var oldData := SilverIntoGoldData(prev.assetIdx, restored.goldValue, restored.silverValue);
        if assetIdx != prev.assetIdx then
          var a := FoldSilver(assets[assetIdx]);
          var newData := SilverIntoGoldData(assetIdx, a.goldValue, a.silverValue);
          Ok((d.(assets := assets[assetIdx := a], oldSilverIntoGold := Some(newData)), SilverIntoGoldToggle(Some(oldData), Some(newData))))
        else
          Ok((d.(assets := assets, oldSilverIntoGold := None), SilverIntoGoldToggle(Some(oldData), None)))
  }

  /**
   * `toggle_change_asset_color`, as written. With a record of another index,
   * the recorded asset gets the recorded colour back and the asked asset the
   * asked colour, which is recorded. With a record of the same index, that
   * asset gets the recorded colour back and the silver-into-gold record is
   * cleared while the colour record stays. Without a record, the asked asset
   * has its silver folded into its gold and its colour kept, and that colour
   * is recorded.
   */
  function ToggledColor(d: ResultsPlayerData, assetIdx: nat, color: Color): (r: Result<(ResultsPlayerData, ChangeAssetColorToggle), GameError>)
    requires RecordsInRange(d)
    ensures r.Err? <==> AbilityPrecheck(d, assetIdx).Err?
    ensures r.Err? ==> r.error == AbilityPrecheck(d, assetIdx).error
    ensures r.Ok? ==> var q := r.value.0;
      && RecordsInRange(q)
      && q.(assets := d.assets, oldChangeAssetColor := d.oldChangeAssetColor, oldSilverIntoGold := d.oldSilverIntoGold) == d
      && |q.assets| == |d.assets|
    ensures r.Ok? && d.oldChangeAssetColor.Some? && d.oldChangeAssetColor.value.assetIdx != assetIdx ==> (
      && r.value.0.assets[assetIdx] == d.assets[assetIdx].(color := color)
      && r.value.0.assets[d.oldChangeAssetColor.value.assetIdx] ==
         d.assets[d.oldChangeAssetColor.value.assetIdx].(color := d.oldChangeAssetColor.value.color)
      && (forall j :: 0 <= j < |d.assets| && j != assetIdx && j != d.oldChangeAssetColor.value.assetIdx ==>
            r.value.0.assets[j] == d.assets[j])
      && r.value.0.oldChangeAssetColor == Some(ChangeAssetColorData(assetIdx, color)))
    ensures r.Ok? && d.oldChangeAssetColor.Some? && d.oldChangeAssetColor.value.assetIdx == assetIdx ==> (
      && r.value.0.assets == d.assets[assetIdx := d.assets[assetIdx].(color := d.oldChangeAssetColor.value.color)]
      && r.value.0.oldChangeAssetColor == d.oldChangeAssetColor
      && r.value.0.oldSilverIntoGold.None?)
    ensures r.Ok? && d.oldChangeAssetColor.None? ==> (
      && r.value.0.assets == d.assets[assetIdx := FoldSilver(d.assets[assetIdx])]
      && r.value.0.oldChangeAssetColor == Some(ChangeAssetColorData(assetIdx, d.assets[assetIdx].color)))
  {
    if AbilityPrecheck(d, assetIdx).Err? then Err(AbilityPrecheck(d, assetIdx).error)
    else match d.oldChangeAssetColor
      case None =>
        var a := FoldSilver(d.assets[assetIdx]);
        var newData := ChangeAssetColorData(assetIdx, a.color);
        Ok((d.(assets := d.assets[assetIdx := a], oldChangeAssetColor := Some(newData)), ChangeAssetColorToggle(None, Some(newData))))
      case Some(prev) =>
        var assets := d.assets[prev.assetIdx := d.assets[prev.assetIdx].(color := prev.color)];
        var oldData := ChangeAssetColorData(prev.assetIdx, prev.color);
        if assetIdx != prev.assetIdx then
          var newData := ChangeAssetColorData(assetIdx, color);
          Ok((d.(assets := assets[assetIdx := assets[assetIdx].(color := color)], oldChangeAssetColor := Some(newData)),
              ChangeAssetColorToggle(Some(oldData), Some(newData))))
        else
          Ok((d.(assets := assets, oldSilverIntoGold := None), ChangeAssetColorToggle(Some(oldData), None)))
  }

  /** `confirm_asset_ability`: after the prechecks the index is confirmed. */
  function Confirmed(d: ResultsPlayerData, assetIdx: nat): (r: Result<(ResultsPlayerData, ()), GameError>)
    ensures r.Err? <==> AbilityPrecheck(d, assetIdx).Err?
    ensures r.Err? ==> r.error == AbilityPrecheck(d, assetIdx).error
    ensures r.Ok? ==> r.value.0 == d.(confirmedAssetAbilityIdxs := d.confirmedAssetAbilityIdxs + [assetIdx])
  {
    if AbilityPrecheck(d, assetIdx).Err? then Err(AbilityPrecheck(d, assetIdx).error)
    else Ok((d.(confirmedAssetAbilityIdxs := d.confirmedAssetAbilityIdxs + [assetIdx]), ()))
  }

  /** Once an index is confirmed, every later toggle or confirmation of it is refused. */
  lemma ConfirmedIndexIsFinal(d: ResultsPlayerData, assetIdx: nat, color: Color)
    requires Confirmed(d, assetIdx).Ok?
    ensures var q := Confirmed(d, assetIdx).value.0;
      && Confirmed(q, assetIdx) == Err(CardAbilityErr(AlreadyConfirmedAssetIndex(AsU8(assetIdx))))
      && (RecordsInRange(q) ==> ToggledSilver(q, assetIdx) == Err(CardAbilityErr(AlreadyConfirmedAssetIndex(AsU8(assetIdx)))))
      && (RecordsInRange(q) ==> ToggledColor(q, assetIdx, color) == Err(CardAbilityErr(AlreadyConfirmedAssetIndex(AsU8(assetIdx)))))
  {
    var q := Confirmed(d, assetIdx).value.0;
    assert assetIdx in q.confirmedAssetAbilityIdxs;
  }

  // ------------------------------------------------------------------ totals

  /** `total_gold` */
  function TotalGold(assets: seq<Asset>): nat
  {
    if assets == [] then 0 else assets[0].goldValue + TotalGold(assets[1..])
  }

  /** `total_silver` */
  function TotalSilver(assets: seq<Asset>): nat
  {
    if assets == [] then 0 else assets[0].silverValue + TotalSilver(assets[1..])
  }

  /** `calc_loan`: the value owed on liabilities of one type. */
  function Loan(liabilities: seq<Liability>, rfrType: LiabilityType): nat
  {
    if liabilities == [] then 0
    else (if liabilities[0].rfrType == rfrType then liabilities[0].value else 0) + Loan(liabilities[1..], rfrType)
  }

  /** The value owed on all liabilities. */
  function TotalDebt(liabilities: seq<Liability>): nat
  {
    if liabilities == [] then 0 else liabilities[0].value + TotalDebt(liabilities[1..])
  }

  /** `trade_credit`, `bank_loan` and `bonds` together are all of the debt. */
  lemma {:induction false} LoansAddUp(liabilities: seq<Liability>)
    ensures Loan(liabilities, TradeCredit) + Loan(liabilities, BankLoan) + Loan(liabilities, Bonds) == TotalDebt(liabilities)
  {
    if liabilities != [] {
      LoansAddUp(liabilities[1..]);
    }
  }

  /** Replacing one asset changes the totals by the difference of the two. */
  lemma {:induction false} TotalsUpdate(assets: seq<Asset>, i: nat, a: Asset)
    requires i < |assets|
    ensures TotalGold(assets[i := a]) + assets[i].goldValue == TotalGold(assets) + a.goldValue
    ensures TotalSilver(assets[i := a]) + assets[i].silverValue == TotalSilver(assets) + a.silverValue
  {
    if i > 0 {
      TotalsUpdate(assets[1..], i - 1, a);
      assert assets[i := a][1..] == assets[1..][i - 1 := a];
    } else {
      assert assets[i := a][1..] == assets[1..];
    }
  }

  /**
   * Neither toggle creates value: the gold and silver of all assets together
   * stay the same.
   */
  lemma TogglesConserveValue(d: ResultsPlayerData, assetIdx: nat, color: Color)
    requires RecordsInRange(d)
    ensures ToggledSilver(d, assetIdx).Ok? ==> var q := ToggledSilver(d, assetIdx).value.0;
      TotalGold(q.assets) + TotalSilver(q.assets) == TotalGold(d.assets) + TotalSilver(d.assets)
    ensures ToggledColor(d, assetIdx, color).Ok? ==> var q := ToggledColor(d, assetIdx, color).value.0;
      TotalGold(q.assets) + TotalSilver(q.assets) == TotalGold(d.assets) + TotalSilver(d.assets)
  {
    if ToggledSilver(d, assetIdx).Ok? {
      match d.oldSilverIntoGold
      case None =>
        TotalsUpdate(d.assets, assetIdx, FoldSilver(d.assets[assetIdx]));
      case Some(prev) =>
        var restored := UnfoldSilver(d.assets[prev.assetIdx], prev.silverValue);
        var assets := d.assets[prev.assetIdx := restored];
        TotalsUpdate(d.assets, prev.assetIdx, restored);
        if assetIdx != prev.assetIdx {
          TotalsUpdate(assets, assetIdx, FoldSilver(assets[assetIdx]));
        }
    }
    if ToggledColor(d, assetIdx, color).Ok? {
      match d.oldChangeAssetColor
      case None =>
        TotalsUpdate(d.assets, assetIdx, FoldSilver(d.assets[assetIdx]));
      case Some(prev) =>
        var assets := d.assets[prev.assetIdx := d.assets[prev.assetIdx].(color := prev.color)];
        TotalsUpdate(d.assets, prev.assetIdx, assets[prev.assetIdx]);
        if assetIdx != prev.assetIdx {
          TotalsUpdate(assets, assetIdx, assets[assetIdx].(color := color));
        }
    }
  }

  // ------------------------------------------------- the toggles as written

  /**
   * As written, converting an asset with silver and toggling it back does
   * not give the silver back: the asset keeps all its value as gold.
   */
  lemma SilverToggleDoesNotUndo(d: ResultsPlayerData, assetIdx: nat)
    requires RecordsInRange(d) && d.oldSilverIntoGold.None?
    requires AbilityPrecheck(d, assetIdx).Ok? && d.assets[assetIdx].silverValue > 0
    ensures var once := ToggledSilver(d, assetIdx).value.0;
      && ToggledSilver(once, assetIdx).Ok?
      && ToggledSilver(once, assetIdx).value.0.assets[assetIdx] == FoldSilver(d.assets[assetIdx])
      && ToggledSilver(once, assetIdx).value.0.assets[assetIdx] != d.assets[assetIdx]
  {
    var once := ToggledSilver(d, assetIdx).value.0;
    assert once.confirmedAssetAbilityIdxs == d.confirmedAssetAbilityIdxs;
  }

  /**
   * As written, the first colour change of a game leaves the colour as it
   * was (and folds the silver into the gold instead).
   */
  lemma FirstColorToggleKeepsColor(d: ResultsPlayerData, assetIdx: nat, color: Color)
    requires RecordsInRange(d) && d.oldChangeAssetColor.None?
    requires AbilityPrecheck(d, assetIdx).Ok? && color != d.assets[assetIdx].color
    ensures ToggledColor(d, assetIdx, color).Ok?
    ensures ToggledColor(d, assetIdx, color).value.0.assets[assetIdx].color != color
  {
  }

  /**
   * As written, toggling the recoloured asset back clears the
   * silver-into-gold record and keeps the colour record.
   */
  lemma ColorUndoClearsWrongRecord(d: ResultsPlayerData, assetIdx: nat, color: Color)
    requires RecordsInRange(d) && d.oldChangeAssetColor.Some? && d.oldChangeAssetColor.value.assetIdx == assetIdx
    requires d.oldSilverIntoGold.Some? && AbilityPrecheck(d, assetIdx).Ok?
    ensures ToggledColor(d, assetIdx, color).Ok?
    ensures ToggledColor(d, assetIdx, color).value.0.oldSilverIntoGold.None?
    ensures ToggledColor(d, assetIdx, color).value.0.oldChangeAssetColor.Some?
  {
  }

  // ---------------------------------------------- the toggles as intended

  /**
   * Silver into gold as the reset step intends it: the record keeps the
   * silver the asset had before conversion, so the reset gives it back.
   */
  function ToggledSilverRestoring(d: ResultsPlayerData, assetIdx: nat): (r: Result<(ResultsPlayerData, SilverIntoGoldToggle), GameError>)
    requires RecordsInRange(d)
    ensures r.Err? <==> AbilityPrecheck(d, assetIdx).Err?
    ensures r.Err? ==> r.error == AbilityPrecheck(d, assetIdx).error
    ensures r.Ok? ==> RecordsInRange(r.value.0) && |r.value.0.assets| == |d.assets|
    ensures r.Ok? ==> r.value.0.(assets := d.assets, oldSilverIntoGold := d.oldSilverIntoGold) == d
  {
    if AbilityPrecheck(d, assetIdx).Err? then Err(AbilityPrecheck(d, assetIdx).error)
    else match d.oldSilverIntoGold
      case None =>
        var a := FoldSilver(d.assets[assetIdx]);
        var newData := SilverIntoGoldData(assetIdx, a.goldValue, d.assets[assetIdx].silverValue);
        Ok((d.(assets := d.assets[assetIdx := a], oldSilverIntoGold := Some(newData)), SilverIntoGoldToggle(None, Some(newData))))
      case Some(prev) =>
        var restored := UnfoldSilver(d.assets[prev.assetIdx], prev.silverValue);
        var assets := d.assets[prev.assetIdx := restored];
        var oldData := SilverIntoGoldData(prev.assetIdx, restored.goldValue, restored.silverValue);
        if assetIdx != prev.assetIdx then
          var before := assets[assetIdx];
          var a := FoldSilver(before);
          var newData := SilverIntoGoldData(assetIdx, a.goldValue, before.silverValue);
          Ok((d.(assets := assets[assetIdx := a], oldSilverIntoGold := Some(newData)), SilverIntoGoldToggle(Some(oldData), Some(newData))))
        else
          Ok((d.(assets := assets, oldSilverIntoGold := None), SilverIntoGoldToggle(Some(oldData), None)))
  }

  /** With the silver recorded before conversion, toggling an asset twice restores it. */
  lemma SilverToggleRestoringUndoes(d: ResultsPlayerData, assetIdx: nat)
    requires RecordsInRange(d) && d.oldSilverIntoGold.None? && AbilityPrecheck(d, assetIdx).Ok?
    ensures var once := ToggledSilverRestoring(d, assetIdx).value.0;
      && ToggledSilverRestoring(once, assetIdx).Ok?
      && ToggledSilverRestoring(once, assetIdx).value.0 == d
  {
    var once := ToggledSilverRestoring(d, assetIdx).value.0;
    assert once.confirmedAssetAbilityIdxs == d.confirmedAssetAbilityIdxs;
    var twice := ToggledSilverRestoring(once, assetIdx).value.0;
    assert twice.assets[assetIdx] == d.assets[assetIdx];
    assert twice.assets == d.assets;
  }

  /**
   * Changing colour as documented: the asked asset takes the asked colour
   * and the record keeps its colour before, so the reset gives it back.
   */
  function ToggledColorRestoring(d: ResultsPlayerData, assetIdx: nat, color: Color): (r: Result<(ResultsPlayerData, ChangeAssetColorToggle), GameError>)
    requires RecordsInRange(d)
    ensures r.Err? <==> AbilityPrecheck(d, assetIdx).Err?
    ensures r.Err? ==> r.error == AbilityPrecheck(d, assetIdx).error
    ensures r.Ok? ==> RecordsInRange(r.value.0) && |r.value.0.assets| == |d.assets|
    ensures r.Ok? ==> r.value.0.(assets := d.assets, oldChangeAssetColor := d.oldChangeAssetColor) == d
    ensures r.Ok? && (d.oldChangeAssetColor.None? || d.oldChangeAssetColor.value.assetIdx != assetIdx) ==>
      r.value.0.assets[assetIdx].color == color
  {
    if AbilityPrecheck(d, assetIdx).Err? then Err(AbilityPrecheck(d, assetIdx).error)
    else match d.oldChangeAssetColor
      case None =>
        var newData := ChangeAssetColorData(assetIdx, d.assets[assetIdx].color);
        Ok((d.(assets := d.assets[assetIdx := d.assets[assetIdx].(color := color)], oldChangeAssetColor := Some(newData)),
            ChangeAssetColorToggle(None, Some(newData))))
      case Some(prev) =>
        var assets := d.assets[prev.assetIdx := d.assets[prev.assetIdx].(color := prev.color)];
        var oldData := ChangeAssetColorData(prev.assetIdx, prev.color);
        if assetIdx != prev.assetIdx then
          var newData := ChangeAssetColorData(assetIdx, assets[assetIdx].color);
          Ok((d.(assets := assets[assetIdx := assets[assetIdx].(color := color)], oldChangeAssetColor := Some(newData)),
              ChangeAssetColorToggle(Some(oldData), Some(newData))))
        else
          Ok((d.(assets := assets, oldChangeAssetColor := None), ChangeAssetColorToggle(Some(oldData), None)))
  }

  /** With the colour recorded before the change, toggling an asset twice restores it. */
  lemma ColorToggleRestoringUndoes(d: ResultsPlayerData, assetIdx: nat, color: Color)
    requires RecordsInRange(d) && d.oldChangeAssetColor.None? && AbilityPrecheck(d, assetIdx).Ok?
    ensures var once := ToggledColorRestoring(d, assetIdx, color).value.0;
      && ToggledColorRestoring(once, assetIdx, color).Ok?
      && ToggledColorRestoring(once, assetIdx, color).value.0 == d
  {
    var once := ToggledColorRestoring(d, assetIdx, color).value.0;
    assert once.confirmedAssetAbilityIdxs == d.confirmedAssetAbilityIdxs;
    var twice := ToggledColorRestoring(once, assetIdx, color).value.0;
    assert twice.assets[assetIdx] == d.assets[assetIdx];
    assert twice.assets == d.assets;
  }

  // ---------------------------------------------------------------- the class

  class ResultsPlayer {
    const id: PlayerId
    const name: string
    const cash: nat
    var assets: seq<Asset>
    const liabilities: seq<Liability>
    const hand: seq<Card>
    var market: Market
    var oldSilverIntoGold: Option<SilverIntoGoldData>
    var oldChangeAssetColor: Option<ChangeAssetColorData>
    var confirmedAssetAbilityIdxs: seq<nat>

    constructor FromData(d: ResultsPlayerData)
      ensures Data() == d
    {
      id, name, cash, assets, liabilities, hand := d.id, d.name, d.cash, d.assets, d.liabilities, d.hand;
      market, oldSilverIntoGold, oldChangeAssetColor := d.market, d.oldSilverIntoGold, d.oldChangeAssetColor;
      confirmedAssetAbilityIdxs := d.confirmedAssetAbilityIdxs;
    }

    function Data(): ResultsPlayerData
      reads this
    {
      ResultsPlayerData(id, name, cash, assets, liabilities, hand, market,
                        oldSilverIntoGold, oldChangeAssetColor, confirmedAssetAbilityIdxs)
    }

    /** `minus_into_plus`: returns the new personal market. */
    method MinusIntoPlus(color: Color, finalMarket: Market) returns (m: Market)
      modifies this`market
      ensures m == market && Data() == old(Data()).(market := RaisedMarket(finalMarket, color))
    {
      market := finalMarket;
      match color {
        case Red => market := market.(red := MakeHigher(market.red));
        case Green => market := market.(green := MakeHigher(market.green));
        case Purple => market := market.(purple := MakeHigher(market.purple));
        case Yellow => market := market.(yellow := MakeHigher(market.yellow));
        case Blue => market := market.(blue := MakeHigher(market.blue));
      }
      m := market;
    }

    /**
     * `toggle_silver_into_gold`, as written: the record holds the asset's
     * values after conversion, so a reset gives back no silver.
     */
    method ToggleSilverIntoGold(assetIdx: nat) returns (r: Result<SilverIntoGoldToggle, GameError>)
      requires RecordsInRange(Data())
      modifies this`assets, this`oldSilverIntoGold
      ensures Settled(ToggledSilver(old(Data()), assetIdx), r, old(Data()), Data())
    {
      var check := AbilityPrecheck(Data(), assetIdx);
      if check.Err? {
        return Err(check.error);
      }
      match oldSilverIntoGold {
        case None =>
          var asset := FoldSilver(assets[assetIdx]);
          assets := assets[assetIdx := asset];
          var newData := SilverIntoGoldData(assetIdx, asset.goldValue, asset.silverValue);
          oldSilverIntoGold := Some(newData);
          return Ok(SilverIntoGoldToggle(None, Some(newData)));
        case Some(prev) =>
          var oldAsset := UnfoldSilver(assets[prev.assetIdx], prev.silverValue);
          assets := assets[prev.assetIdx := oldAsset];
          var oldData := SilverIntoGoldData(prev.assetIdx, oldAsset.goldValue, oldAsset.silverValue);
          if assetIdx != prev.assetIdx {
            var asset := FoldSilver(assets[assetIdx]);
            assets := assets[assetIdx := asset];
            var newData := SilverIntoGoldData(assetIdx, asset.goldValue, asset.silverValue);
            oldSilverIntoGold := Some(newData);
            return Ok(SilverIntoGoldToggle(Some(oldData), Some(newData)));
          }
          oldSilverIntoGold := None;
          return Ok(SilverIntoGoldToggle(Some(oldData), None));
      }
    }

    /**
     * `toggle_change_asset_color`, as written: without a record the asked
     * asset has its silver folded into its gold and keeps its colour, and
     * toggling the recorded asset again clears the silver-into-gold record.
     */
    method ToggleChangeAssetColor(assetIdx: nat, color: Color) returns (r: Result<ChangeAssetColorToggle, GameError>)
      requires RecordsInRange(Data())
      modifies this`assets, this`oldChangeAssetColor, this`oldSilverIntoGold
      ensures Settled(ToggledColor(old(Data()), assetIdx, color), r, old(Data()), Data())
    {
      var check := AbilityPrecheck(Data(), assetIdx);
      if check.Err? {
        return Err(check.error);
      }
      match oldChangeAssetColor {
        case None =>
          var asset := FoldSilver(assets[assetIdx]);
          assets := assets[assetIdx := asset];
          var newData := ChangeAssetColorData(assetIdx, asset.color);
          oldChangeAssetColor := Some(newData);
          return Ok(ChangeAssetColorToggle(None, Some(newData)));
        case Some(prev) =>
          assets := assets[prev.assetIdx := assets[prev.assetIdx].(color := prev.color)];
          var oldData := ChangeAssetColorData(prev.assetIdx, prev.color);
          if assetIdx != prev.assetIdx {
            assets := assets[assetIdx := assets[assetIdx].(color := color)];
            var newData := ChangeAssetColorData(assetIdx, color);
            oldChangeAssetColor := Some(newData);
            return Ok(ChangeAssetColorToggle(Some(oldData), Some(newData)));
          }
          oldSilverIntoGold := None;
          return Ok(ChangeAssetColorToggle(Some(oldData), None));
      }
    }

    /** `confirm_asset_ability` */
    method ConfirmAssetAbility(assetIdx: nat) returns (r: Result<(), GameError>)
      modifies this`confirmedAssetAbilityIdxs
      ensures Settled(Confirmed(old(Data()), assetIdx), r, old(Data()), Data())
    {
      var check := AbilityPrecheck(Data(), assetIdx);
      if check.Err? {
        return Err(check.error);
      }
      confirmedAssetAbilityIdxs := confirmedAssetAbilityIdxs + [assetIdx];
      return Ok(());
    }
  }
}
