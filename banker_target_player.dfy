// `BankerTargetPlayer` (game/src/player/banker_target.rs): the player the
// banker has targeted, who must pay the banker. The player chooses assets to
// sell and (as CFO) liabilities to issue; the choices are kept in two maps
// from position to value that the game round owns, so choosing is a function
// from the player and a map to the new map. Paying and going bankrupt change
// both players and are methods of the class `BankerTargetPlayer`.
module BankerTargetPlayers {
  import opened Wrappers
  import opened Vocabulary
  import opened Errors
  import opened PlayerRules
  import opened Sequences
  import opened PlayerRecords
  import opened RoundPlayers

  /** An asset sold to pay the banker: its position among the holdings and what it fetched. */
  datatype SoldAsset = SoldAsset(assetIdx: nat, marketValue: nat)

  /** A liability issued to pay the banker: its position in the hand and the card. */
  datatype IssuedLiability = IssuedLiability(cardIdx: nat, liability: Liability)

  /** What a payment used: `SelectedAssetsAndLiabilities` as the player file builds it, with two lists. */
  datatype SelectedCards = SelectedCards(soldAssets: seq<SoldAsset>, issuedLiabilities: seq<IssuedLiability>)

  /**
   * The choices made so far: `SelectedAssetsAndLiabilities` as the game
   * round holds it, two maps from position to value.
   */
  datatype Selections = Selections(assets: map<nat, nat>, liabilities: map<nat, nat>)

  const NO_SELECTIONS: Selections := Selections(map[], map[])

  /** The outcome of a payment, for both players. */
  datatype PayBankerPlayer = PayBankerPlayer(
    paidAmount: nat,
    newBankerCash: nat,
    newTargetCash: nat,
    targetId: PlayerId,
    bankerId: PlayerId,
    selectedCards: SelectedCards)

  // ---------------------------------------------------------------- lookups

  /** `asset`: the asset at a position, or `InvalidAssetIndex`. */
  function AssetAt(p: BankerTargetPlayerData, assetIdx: nat): (r: Result<Asset, GameError>)
    ensures r.Ok? <==> assetIdx < |p.assets|
    ensures r.Ok? ==> r.value == p.assets[assetIdx]
    ensures r.Err? ==> r.error == InvalidAssetIndex(AsU8(assetIdx))
  {
    if assetIdx < |p.assets| then Ok(p.assets[assetIdx]) else Err(InvalidAssetIndex(AsU8(assetIdx)))
  }

  // ---------------------------------------------------------------- choosing

  /**
   * `select_divest_asset`: chooses an asset not chosen yet whose market value
   * is positive, and records that value.
   */
  function SelectedDivestAsset(p: BankerTargetPlayerData, assetIdx: nat, market: Market, chosen: map<nat, nat>): (r: Result<(Asset, map<nat, nat>), BankerTargetSelectError>)
    ensures r.Ok? <==> assetIdx < |p.assets| && assetIdx !in chosen && MarketValue(p.assets[assetIdx], market) > 0
    ensures assetIdx >= |p.assets| ==> r == Err(InvalidAssetId)
    ensures assetIdx < |p.assets| && assetIdx in chosen ==> r == Err(AssetAlreadySelected)
    ensures (assetIdx < |p.assets| && assetIdx !in chosen && MarketValue(p.assets[assetIdx], market) <= 0) ==>
      r == Err(AssetValueToLow)
    ensures r.Ok? ==> (
      && r.value.0 == p.assets[assetIdx] && r.value.1.Keys == chosen.Keys + {assetIdx}
      && r.value.1[assetIdx] == MarketValue(p.assets[assetIdx], market)
      && forall k :: k in chosen ==> r.value.1[k] == chosen[k])
  {
    if assetIdx < |p.assets| then
      if assetIdx !in chosen then
        var value := MarketValue(p.assets[assetIdx], market);
        if value > 0 then Ok((p.assets[assetIdx], chosen[assetIdx := value]))
        else Err(AssetValueToLow)
      else Err(AssetAlreadySelected)
    else Err(InvalidAssetId)
  }

  /** `unselect_divest_asset`: forgets a chosen asset. */
  function UnselectedDivestAsset(p: BankerTargetPlayerData, assetIdx: nat, chosen: map<nat, nat>): (r: Result<(Asset, map<nat, nat>), BankerTargetSelectError>)
    ensures r.Ok? <==> assetIdx < |p.assets| && assetIdx in chosen
    ensures assetIdx >= |p.assets| ==> r == Err(InvalidAssetId)
    ensures assetIdx < |p.assets| && assetIdx !in chosen ==> r == Err(AssetNotSelected)
    ensures r.Ok? ==> r.value.0 == p.assets[assetIdx] && r.value.1 == chosen - {assetIdx}
  {
    if assetIdx < |p.assets| then
      if assetIdx in chosen then Ok((p.assets[assetIdx], chosen - {assetIdx}))
      else Err(AssetNotSelected)
    else Err(InvalidAssetId)
  }

  /** Whether the hand holds a liability at a position. */
  predicate LiabilityInHand(p: BankerTargetPlayerData, cardIdx: nat)
  {
    cardIdx < |p.hand| && p.hand[cardIdx].Right?
  }

  /**
   * `select_issue_liability`: the CFO chooses a liability of its hand, at
   * most as many as the CFO may issue in a turn (3), each at most once. The
   * checks are made in that order.
   */
  function SelectedIssueLiability(p: BankerTargetPlayerData, cardIdx: nat, chosen: map<nat, nat>): (r: Result<(Liability, map<nat, nat>), BankerTargetSelectError>)
    ensures r.Ok? <==> p.character == CFO && LiabilityInHand(p, cardIdx) && |chosen| < 3 && cardIdx !in chosen
    ensures p.character != CFO ==> r == Err(NotCFO)
    ensures p.character == CFO && !LiabilityInHand(p, cardIdx) ==> r == Err(InvalidLiabilityId(AsU8(cardIdx)))
    ensures p.character == CFO && LiabilityInHand(p, cardIdx) && |chosen| >= 3 ==> r == Err(AlreadySelected3Liabilities)
    ensures (p.character == CFO && LiabilityInHand(p, cardIdx) && |chosen| < 3 && cardIdx in chosen) ==>
      r == Err(LiabilityAlreadySelected)
    ensures r.Ok? ==> (
      && r.value.0 == p.hand[cardIdx].right
      && r.value.1 == chosen[cardIdx := p.hand[cardIdx].right.value])
  {
    if p.character == CFO then
      if LiabilityInHand(p, cardIdx) then
        var l := p.hand[cardIdx].right;
        if |chosen| < PlayableLiabilities(CFO) then
          if cardIdx !in chosen then Ok((l, chosen[cardIdx := l.value]))
          else Err(LiabilityAlreadySelected)
        else Err(AlreadySelected3Liabilities)
      else Err(InvalidLiabilityId(AsU8(cardIdx)))
    else Err(NotCFO)
  }

  /** `unselect_issue_liability`: forgets a chosen liability. */
  function UnselectedIssueLiability(p: BankerTargetPlayerData, cardIdx: nat, chosen: map<nat, nat>): (r: Result<(Liability, map<nat, nat>), BankerTargetSelectError>)
    ensures r.Ok? <==> LiabilityInHand(p, cardIdx) && cardIdx in chosen
    ensures !LiabilityInHand(p, cardIdx) ==> r == Err(InvalidLiabilityId(AsU8(cardIdx)))
    ensures LiabilityInHand(p, cardIdx) && cardIdx !in chosen ==> r == Err(LiabilityNotSelected)
    ensures r.Ok? ==> r.value.0 == p.hand[cardIdx].right && r.value.1 == chosen - {cardIdx}
  {
    if LiabilityInHand(p, cardIdx) then
      if cardIdx in chosen then Ok((p.hand[cardIdx].right, chosen - {cardIdx}))
      else Err(LiabilityNotSelected)
    else Err(InvalidLiabilityId(AsU8(cardIdx)))
  }

  /** Choosing and then un-choosing an asset or a liability gives back the choices made before. */
  lemma SelectUnselectRoundTrip(p: BankerTargetPlayerData, idx: nat, market: Market, chosen: map<nat, nat>)
    ensures SelectedDivestAsset(p, idx, market, chosen).Ok? ==>
      UnselectedDivestAsset(p, idx, SelectedDivestAsset(p, idx, market, chosen).value.1) == Ok((p.assets[idx], chosen))
    ensures SelectedIssueLiability(p, idx, chosen).Ok? ==>
      UnselectedIssueLiability(p, idx, SelectedIssueLiability(p, idx, chosen).value.1) == Ok((p.hand[idx].right, chosen))
  {
    if SelectedDivestAsset(p, idx, market, chosen).Ok? {
      assert SelectedDivestAsset(p, idx, market, chosen).value.1 - {idx} == chosen;
    }
    if SelectedIssueLiability(p, idx, chosen).Ok? {
      assert SelectedIssueLiability(p, idx, chosen).value.1 - {idx} == chosen;
    }
  }

  /**
   * The choices stay consistent with the player: every chosen asset exists
   * and is recorded at its positive market value, every chosen liability is
   * a liability of the hand recorded at its value, and at most three are
   * chosen.
   */
  ghost predicate SelectionsValid(p: BankerTargetPlayerData, market: Market, s: Selections)
  {
    && (forall k :: k in s.assets ==> k < |p.assets| && s.assets[k] == MarketValue(p.assets[k], market) > 0)
    && LiabilitiesChosen(p, s.liabilities)
    && |s.liabilities| <= 3
  }

  /** Choosing or un-choosing an asset keeps the choices consistent. */
  lemma AssetChoicesKeepSelectionsValid(p: BankerTargetPlayerData, market: Market, s: Selections, idx: nat)
    requires SelectionsValid(p, market, s)
    ensures SelectedDivestAsset(p, idx, market, s.assets).Ok? ==>
      SelectionsValid(p, market, s.(assets := SelectedDivestAsset(p, idx, market, s.assets).value.1))
    ensures UnselectedDivestAsset(p, idx, s.assets).Ok? ==>
      SelectionsValid(p, market, s.(assets := UnselectedDivestAsset(p, idx, s.assets).value.1))
  {
  }

  /** Choosing or un-choosing a liability keeps the choices consistent, and never more than three. */
  lemma LiabilityChoicesKeepSelectionsValid(p: BankerTargetPlayerData, market: Market, s: Selections, idx: nat)
    requires SelectionsValid(p, market, s)
    ensures SelectedIssueLiability(p, idx, s.liabilities).Ok? ==>
      SelectionsValid(p, market, s.(liabilities := SelectedIssueLiability(p, idx, s.liabilities).value.1))
    ensures UnselectedIssueLiability(p, idx, s.liabilities).Ok? ==>
      SelectionsValid(p, market, s.(liabilities := UnselectedIssueLiability(p, idx, s.liabilities).value.1))
  {
    var chosen := s.liabilities;
    var sel := SelectedIssueLiability(p, idx, chosen);
    if sel.Ok? {
      LiabilityAddedStaysChosen(p, chosen, idx);
      assert sel.value.1 == chosen[idx := p.hand[idx].right.value];
    }
    var unsel := UnselectedIssueLiability(p, idx, chosen);
    if unsel.Ok? {
      LiabilityRemovedStaysChosen(p, chosen, idx);
      assert unsel.value.1 == chosen - {idx};
    }
  }

  /** The choices every entry of which is a liability in hand, recorded with its value. */
  predicate LiabilitiesChosen(p: BankerTargetPlayerData, chosen: map<nat, nat>)
  {
    forall k :: k in chosen ==> LiabilityInHand(p, k) && chosen[k] == p.hand[k].right.value
  }

  lemma LiabilityAddedStaysChosen(p: BankerTargetPlayerData, chosen: map<nat, nat>, idx: nat)
    requires LiabilitiesChosen(p, chosen) && |chosen| < 3
    requires LiabilityInHand(p, idx) && idx !in chosen
    ensures LiabilitiesChosen(p, chosen[idx := p.hand[idx].right.value])
    ensures |chosen[idx := p.hand[idx].right.value]| <= 3
  {
    var m := chosen[idx := p.hand[idx].right.value];
    forall k | k in m
      ensures LiabilityInHand(p, k) && m[k] == p.hand[k].right.value
    {
      if k != idx { assert k in chosen; }
    }
    MapAddSize(chosen, idx, p.hand[idx].right.value);
  }

  lemma MapAddSize(m: map<nat, nat>, k: nat, v: nat)
    requires k !in m
    ensures |m[k := v]| == |m| + 1
  {
    assert m[k := v].Keys == m.Keys + {k};
  }

  lemma LiabilityRemovedStaysChosen(p: BankerTargetPlayerData, chosen: map<nat, nat>, idx: nat)
    requires LiabilitiesChosen(p, chosen) && |chosen| <= 3
    ensures LiabilitiesChosen(p, chosen - {idx})
    ensures |chosen - {idx}| <= 3
  {
    var m := chosen - {idx};
    assert m.Keys == chosen.Keys - {idx};
    SubsetCardinality(m.Keys, chosen.Keys);
  }


  // ---------------------------------------------------------------- paying

  /** The sum of the values of a map, in no particular order. */
  ghost function SumValues(m: map<nat, nat>): nat
    decreases |m.Keys|
  {
    if m.Keys == {} then 0
    else
      var k :| k in m.Keys;
      assert |(m - {k}).Keys| < |m.Keys| by {
        assert (m - {k}).Keys == m.Keys - {k};
      }
      m[k] + SumValues(m - {k})
  }

  /** The sum does not depend on the order: any key can be taken out first. */
  lemma {:induction false} SumValuesRemove(m: map<nat, nat>, k: nat)
    requires k in m
    ensures SumValues(m) == m[k] + SumValues(m - {k})
    decreases |m.Keys|
  {
    var c :| c in m.Keys && SumValues(m) == m[c] + SumValues(m - {c});
    if c != k {
      assert (m - {c}).Keys == m.Keys - {c};
      assert (m - {k}).Keys == m.Keys - {k};
      SumValuesRemove(m - {c}, k);
      SumValuesRemove(m - {k}, c);
      assert (m - {c}) - {k} == (m - {k}) - {c};
    }
  }

  /** What `pay_banker` needs of the choices: the positions exist, the liabilities are in hand, and enough liabilities may be issued. */
  predicate PaymentFits(p: BankerTargetPlayerData, s: Selections)
  {
    && (forall k :: k in s.assets ==> k < |p.assets|)
    && (forall k :: k in s.liabilities ==> LiabilityInHand(p, k))
    && p.liabilitiesToPlay >= |s.liabilities.Keys|
  }

  /** The cash the choices would raise. */
  ghost function Raised(s: Selections): nat
  {
    SumValues(s.assets) + SumValues(s.liabilities)
  }

  /**
   * The inputs on which `pay_banker` does not panic: when the cash covers
   * the amount, the source unwraps each chosen hand card as a liability,
   * removes each chosen position and takes one issue allowance per chosen
   * liability, so the choices must then fit the payer. When the cash falls
   * short it answers `NotEnoughCash` whatever was chosen.
   */
  ghost predicate PaymentDoesNotPanic(p: BankerTargetPlayerData, amount: nat, s: Selections)
  {
    p.cash + Raised(s) >= amount ==> PaymentFits(p, s)
  }

  /**
   * `pay_banker`: when the cash plus what the choices raise covers the
   * amount, the banker gets the amount, the target keeps the rest, and the
   * chosen assets and hand cards are gone, each issued liability using one
   * of the liabilities the target may issue.
   */
  ghost function PaidBanker(p: BankerTargetPlayerData, amount: nat, s: Selections, banker: BankerTargetPlayerData): (r: Result<(BankerTargetPlayerData, BankerTargetPlayerData), PayBankerError>)
    requires PaymentDoesNotPanic(p, amount, s)
    ensures r.Ok? <==> p.cash + Raised(s) >= amount
    ensures r.Err? ==> r.error == PayNotEnoughCash
    ensures r.Ok? ==> var (q, b) := r.value;
      && b == banker.(cash := banker.cash + amount)
      && q.cash + amount == p.cash + Raised(s)
      && q.assets == Without(p.assets, s.assets.Keys, 0) && |q.assets| == |p.assets| - |s.assets.Keys|
      && q.hand == Without(p.hand, s.liabilities.Keys, 0) && |q.hand| == |p.hand| - |s.liabilities.Keys|
      && q.liabilitiesToPlay + |s.liabilities.Keys| == p.liabilitiesToPlay
      && q.(cash := p.cash, assets := p.assets, hand := p.hand, liabilitiesToPlay := p.liabilitiesToPlay) == p
  {
    if p.cash + Raised(s) >= amount then
      WithoutLength(p.assets, s.assets.Keys, 0);
      WithoutLength(p.hand, s.liabilities.Keys, 0);
      assert GoneFrom(p.assets, s.assets.Keys, 0) == s.assets.Keys;
      assert GoneFrom(p.hand, s.liabilities.Keys, 0) == s.liabilities.Keys;
      Ok((p.(cash := p.cash + Raised(s) - amount,
             assets := Without(p.assets, s.assets.Keys, 0),
             hand := Without(p.hand, s.liabilities.Keys, 0),
             liabilitiesToPlay := p.liabilitiesToPlay - |s.liabilities.Keys|),
          banker.(cash := banker.cash + amount)))
    else Err(PayNotEnoughCash)
  }

  /** The payment `PaidBanker` makes is the one its postconditions describe. */
  lemma PaidBankerIs(p: BankerTargetPlayerData, amount: nat, s: Selections, banker: BankerTargetPlayerData, q: BankerTargetPlayerData, b: BankerTargetPlayerData)
    requires PaymentFits(p, s) && p.cash + Raised(s) >= amount
    requires b == banker.(cash := banker.cash + amount)
    requires q == p.(cash := p.cash + Raised(s) - amount, assets := Without(p.assets, s.assets.Keys, 0),
                     hand := Without(p.hand, s.liabilities.Keys, 0), liabilitiesToPlay := q.liabilitiesToPlay)
    requires q.liabilitiesToPlay + |s.liabilities.Keys| == p.liabilitiesToPlay
    ensures PaidBanker(p, amount, s, banker) == Ok((q, b))
  {
  }

  /** A payment moves exactly the amount from the target's means to the banker. */
  lemma PaymentConservesCash(p: BankerTargetPlayerData, amount: nat, s: Selections, banker: BankerTargetPlayerData)
    requires PaymentDoesNotPanic(p, amount, s) && PaidBanker(p, amount, s, banker).Ok?
    ensures var (q, b) := PaidBanker(p, amount, s, banker).value;
      q.cash + b.cash == p.cash + Raised(s) + banker.cash
  {
  }

  /** A payer whose cash and choices fall short is refused with `NotEnoughCash`, whatever it chose. */
  lemma ShortPaymentIsRefused(p: BankerTargetPlayerData, amount: nat, s: Selections, banker: BankerTargetPlayerData)
    requires p.cash + Raised(s) < amount
    ensures PaymentDoesNotPanic(p, amount, s)
    ensures PaidBanker(p, amount, s, banker) == Err(PayNotEnoughCash)
  {
  }

  /** The report of a payment lists exactly the chosen assets and liabilities, each once. */
  ghost predicate Reports(report: SelectedCards, s: Selections, hand: seq<Card>)
  {
    && |report.soldAssets| == |s.assets.Keys|
    && (forall x :: x in report.soldAssets <==> x.assetIdx in s.assets && s.assets[x.assetIdx] == x.marketValue)
    && |report.issuedLiabilities| == |s.liabilities.Keys|
    && (forall x :: x in report.issuedLiabilities <==>
          x.cardIdx in s.liabilities && x.cardIdx < |hand| && hand[x.cardIdx] == Right(x.liability))
  }

  // ---------------------------------------------------------- going bankrupt

  /** The assets with a positive market value, with their positions, in order. */
  function PositiveAssets(assets: seq<Asset>, market: Market): (r: seq<SoldAsset>)
    ensures forall x :: x in r ==> x.assetIdx < |assets| && x.marketValue == MarketValue(assets[x.assetIdx], market) > 0
    decreases |assets|
  {
    if assets == [] then []
    else
      var last := |assets| - 1;
      var value := MarketValue(assets[last], market);
      var before := PositiveAssets(assets[..last], market);
      assert forall x :: x in before ==> assets[..last][x.assetIdx] == assets[x.assetIdx];
      before + (if value > 0 then [SoldAsset(last, value)] else [])
  }

  /** Every asset worth anything is listed, at its position. */
  lemma {:induction false} PositiveAssetsComplete(assets: seq<Asset>, market: Market, i: nat)
    requires i < |assets| && MarketValue(assets[i], market) > 0
    ensures SoldAsset(i, MarketValue(assets[i], market)) in PositiveAssets(assets, market)
    decreases |assets|
  {
    var last := |assets| - 1;
    if i < last {
      PositiveAssetsComplete(assets[..last], market, i);
      assert assets[..last][i] == assets[i];
    }
  }

  /** The positions sold exist. */
  lemma SoldInRange(assets: seq<Asset>, market: Market)
    ensures forall k :: k in SoldPositions(PositiveAssets(assets, market)) ==> k < |assets|
  {
  }

  /** The positions issued exist. */
  lemma IssuedInRange(p: BankerTargetPlayerData)
    requires BankruptDropsInRange(p)
    ensures forall k :: k in IssuedPositions(BankruptIssued(p)) ==> k < |p.hand|
  {
    var listed, issued := HandLiabilitiesAsWritten(p.hand), BankruptIssued(p);
    forall x | x in issued
      ensures x.cardIdx < |p.hand|
    {
      assert x in multiset(listed);
      var k :| 0 <= k < |listed| && listed[k] == x;
    }
  }

  /**
   * The `enumerate` over the hand's liabilities in `go_bankrupt_for_banker`,
   * as written: it enumerates after filtering, so `card_idx` is the card's
   * rank among the hand's liabilities, not its position in the hand.
   */
  function HandLiabilitiesAsWritten(hand: seq<Card>): (r: seq<IssuedLiability>)
    ensures |r| <= |hand|
    ensures forall k :: 0 <= k < |r| ==> r[k].cardIdx == k
    decreases |hand|
  {
    if hand == [] then []
    else
      var before := HandLiabilitiesAsWritten(hand[..|hand| - 1]);
      before + (if hand[|hand| - 1].Right? then [IssuedLiability(|before|, hand[|hand| - 1].right)] else [])
  }

  /** The hand's liabilities with their positions in the hand, in order, as intended. */
  function HandLiabilities(hand: seq<Card>): (r: seq<IssuedLiability>)
    ensures forall x :: x in r ==> x.cardIdx < |hand| && hand[x.cardIdx] == Right(x.liability)
    decreases |hand|
  {
    if hand == [] then []
    else
      var last := |hand| - 1;
      var before := HandLiabilities(hand[..last]);
      assert forall x :: x in before ==> hand[..last][x.cardIdx] == hand[x.cardIdx];
      before + (if hand[last].Right? then [IssuedLiability(last, hand[last].right)] else [])
  }

  /**
   * The collection as written lists the same liabilities in the same order
   * as the intended one; only the recorded positions differ, being ranks.
   */
  lemma {:induction false} AsWrittenListsSameLiabilities(hand: seq<Card>)
    ensures |HandLiabilitiesAsWritten(hand)| == |HandLiabilities(hand)|
    ensures forall k :: 0 <= k < |HandLiabilities(hand)| ==>
      HandLiabilitiesAsWritten(hand)[k] == IssuedLiability(k, HandLiabilities(hand)[k].liability)
    decreases |hand|
  {
    if hand != [] {
      AsWrittenListsSameLiabilities(hand[..|hand| - 1]);
    }
  }

  /**
   * With an asset before a liability, the liability is listed as position 0,
   * which is the asset: removing that position, as `go_bankrupt_for_banker`
   * then does, takes the asset out of the hand and leaves the liability.
   */
  lemma RankIsNotHandPosition(a: Asset, l: Liability)
    ensures HandLiabilitiesAsWritten([Left(a), Right(l)]) == [IssuedLiability(0, l)]
    ensures [Left(a), Right(l)][0] != Right(l)
    ensures HandLiabilities([Left(a), Right(l)]) == [IssuedLiability(1, l)]
  {
    var hand: seq<Card> := [Left(a), Right(l)];
    assert hand[..1] == [Left(a)];
    assert hand[..1][..0] == [];
    assert HandLiabilitiesAsWritten(hand[..1]) == [];
    assert HandLiabilities(hand[..1]) == [];
  }

  /**
   * The position the inner loop of `go_bankrupt_for_banker` removes, as
   * written: it counts how often a new largest value is met, starting from
   * 0, instead of remembering where the smallest one is.
   */
  function RunningMaxIndex(issued: seq<IssuedLiability>): (r: nat)
    ensures r <= |issued|
  {
    RecordsAbove(issued, 0)
  }

  /** How many times a value larger than every one before it (and than `floor`) is met. */
  function RecordsAbove(issued: seq<IssuedLiability>, floor: nat): (r: nat)
    ensures r <= |issued|
  {
    if issued == [] then 0
    else if floor < issued[0].liability.value then 1 + RecordsAbove(issued[1..], issued[0].liability.value)
    else RecordsAbove(issued[1..], floor)
  }

  /**
   * With four liabilities of increasing value the position is 4, past the
   * end of the list, and `Vec::remove` panics. With values 1, 5, 5, 5 it is 2,
   * which removes a 5 and keeps the 1.
   */
  lemma RunningMaxIndexMisses(l1: Liability, l2: Liability, l3: Liability, l4: Liability)
    requires l1.value == 1 && l2.value == 2 && l3.value == 3 && l4.value == 4
    ensures var issued := [IssuedLiability(0, l1), IssuedLiability(1, l2), IssuedLiability(2, l3), IssuedLiability(3, l4)];
      RunningMaxIndex(issued) == |issued|
    ensures var issued := [IssuedLiability(0, l1), IssuedLiability(1, l4.(value := 5)), IssuedLiability(2, l4.(value := 5)), IssuedLiability(3, l4.(value := 5))];
      RunningMaxIndex(issued) == 2 && issued[2].liability.value > issued[SmallestIndex(issued)].liability.value
  {
    var issued := [IssuedLiability(0, l1), IssuedLiability(1, l2), IssuedLiability(2, l3), IssuedLiability(3, l4)];
    assert issued[1..][1..][1..] == [IssuedLiability(3, l4)];
    assert RecordsAbove(issued[1..][1..][1..], 3) == 1 by {
      assert issued[1..][1..][1..][1..] == [];
    }
    assert issued[1..][1..] == [IssuedLiability(2, l3), IssuedLiability(3, l4)];
    assert RecordsAbove(issued[1..][1..], 2) == 2;
    assert issued[1..] == [IssuedLiability(1, l2), IssuedLiability(2, l3), IssuedLiability(3, l4)];
    assert RecordsAbove(issued[1..], 1) == 3;
    var five := l4.(value := 5);
    var other := [IssuedLiability(0, l1), IssuedLiability(1, five), IssuedLiability(2, five), IssuedLiability(3, five)];
    assert other[1..][1..][1..] == [IssuedLiability(3, five)];
    assert RecordsAbove(other[1..][1..][1..], 5) == 0 by {
      assert other[1..][1..][1..][1..] == [];
    }
    assert other[1..][1..] == [IssuedLiability(2, five), IssuedLiability(3, five)];
    assert RecordsAbove(other[1..][1..], 5) == 0;
    assert other[1..] == [IssuedLiability(1, five), IssuedLiability(2, five), IssuedLiability(3, five)];
    assert RecordsAbove(other[1..], 1) == 1;
    assert SmallestIndex(other) == 0;
  }

  /** The position of the first liability of smallest value, as intended. */
  function SmallestIndex(issued: seq<IssuedLiability>): (r: nat)
    requires issued != []
    ensures r < |issued|
    ensures forall k :: 0 <= k < |issued| ==> issued[r].liability.value <= issued[k].liability.value
    ensures forall k :: 0 <= k < r ==> issued[k].liability.value > issued[r].liability.value
  {
    if |issued| == 1 then 0
    else
      var rest := SmallestIndex(issued[1..]);
      if issued[0].liability.value <= issued[1..][rest].liability.value then 0 else rest + 1
  }

  /** Drops the smallest liabilities until at most three are left. */
  function KeepLargestThree(issued: seq<IssuedLiability>): (r: seq<IssuedLiability>)
    ensures |r| == if |issued| > 3 then 3 else |issued|
    ensures multiset(r) <= multiset(issued)
    decreases |issued|
  {
    if |issued| > 3 then
      var i := SmallestIndex(issued);
      RemoveAtMultiset(issued, i);
      KeepLargestThree(RemoveAt(issued, i))
    else issued
  }

  /** No liability dropped is worth more than one kept. */
  lemma {:induction false} KeepLargestThreeKeepsLargest(issued: seq<IssuedLiability>)
    ensures forall x, y :: x in issued && x !in KeepLargestThree(issued) && y in KeepLargestThree(issued) ==>
      x.liability.value <= y.liability.value
    decreases |issued|
  {
    if |issued| > 3 {
      var i := SmallestIndex(issued);
      var rest := RemoveAt(issued, i);
      KeepLargestThreeKeepsLargest(rest);
      RemoveAtMultiset(issued, i);
      forall x, y | x in issued && x !in KeepLargestThree(issued) && y in KeepLargestThree(issued)
        ensures x.liability.value <= y.liability.value
      {
        assert y in multiset(KeepLargestThree(rest));
        assert y in rest;
        if x !in rest {
          assert x in multiset(issued);
          assert x == issued[i];
          var k :| 0 <= k < |issued| && issued[k] == y;
          assert issued[i].liability.value <= issued[k].liability.value;
        }
      }
    }
  }

  /** What `go_bankrupt_for_banker` sells: every asset worth anything. */
  function BankruptSold(p: BankerTargetPlayerData, market: Market): (r: seq<SoldAsset>)
    ensures r == PositiveAssets(p.assets, market)
  {
    PositiveAssets(p.assets, market)
  }

  /** How many liabilities the outer loop drops from `n` listed: all but three. */
  function Surplus(n: nat): (r: nat)
    ensures r <= n && (n > 3 ==> r + 3 == n) && (n <= 3 ==> r == 0)
  {
    if n > 3 then n - 3 else 0
  }

  /**
   * Whether `n` rounds of the outer loop, as written, stay in range: each
   * removes the position `RunningMaxIndex` gives, and `Vec::remove` panics
   * when that position is the length.
   */
  predicate DropsInRange(issued: seq<IssuedLiability>, n: nat)
    decreases n
  {
    n == 0 || (RunningMaxIndex(issued) < |issued| && DropsInRange(RemoveAt(issued, RunningMaxIndex(issued)), n - 1))
  }

  /** The outer loop of `go_bankrupt_for_banker`, as written: `n` removals at `RunningMaxIndex`. */
  function DropRunningMax(issued: seq<IssuedLiability>, n: nat): (r: seq<IssuedLiability>)
    requires DropsInRange(issued, n)
    ensures n <= |issued| && |r| == |issued| - n
    ensures multiset(r) <= multiset(issued)
    decreases n
  {
    if n == 0 then issued
    else
      var i := RunningMaxIndex(issued);
      RemoveAtMultiset(issued, i);
      DropRunningMax(RemoveAt(issued, i), n - 1)
  }

  /** What the source demands of a CFO going bankrupt: the liability drops stay in range. */
  predicate BankruptDropsInRange(p: BankerTargetPlayerData)
  {
    p.character == CFO ==>
      var listed := HandLiabilitiesAsWritten(p.hand);
      DropsInRange(listed, Surplus(|listed|))
  }

  /**
   * What `go_bankrupt_for_banker` issues, as written: for the CFO, the
   * hand's liabilities numbered by rank, with all but three dropped by the
   * running-maximum loop; nothing for anyone else.
   */
  function BankruptIssued(p: BankerTargetPlayerData): (r: seq<IssuedLiability>)
    requires BankruptDropsInRange(p)
    ensures p.character != CFO ==> r == []
    ensures p.character == CFO ==> |r| == |HandLiabilitiesAsWritten(p.hand)| - Surplus(|HandLiabilitiesAsWritten(p.hand)|)
    ensures |r| <= 3
    ensures multiset(r) <= multiset(HandLiabilitiesAsWritten(p.hand))
  {
    if p.character == CFO then
      var listed := HandLiabilitiesAsWritten(p.hand);
      DropRunningMax(listed, Surplus(|listed|))
    else []
  }

  /** The sum of the values of a list of sold assets. */
  function SoldTotal(s: seq<SoldAsset>): (r: nat)
    decreases |s|
  {
    if s == [] then 0 else SoldTotal(s[..|s| - 1]) + s[|s| - 1].marketValue
  }

  /** The sum of the values of a list of issued liabilities. */
  function IssuedTotal(s: seq<IssuedLiability>): (r: nat)
    decreases |s|
  {
    if s == [] then 0 else IssuedTotal(s[..|s| - 1]) + s[|s| - 1].liability.value
  }

  function SoldPositions(s: seq<SoldAsset>): set<nat>
  {
    set x | x in s :: x.assetIdx
  }

  function IssuedPositions(s: seq<IssuedLiability>): set<nat>
  {
    set x | x in s :: x.cardIdx
  }

  /**
   * What `go_bankrupt_for_banker` needs: the liability drops stay in range,
   * and the target may issue the liabilities it will issue, since each
   * removal takes one from the `u8` counter.
   */
  predicate BankruptcyFits(p: BankerTargetPlayerData)
  {
    BankruptDropsInRange(p) && p.liabilitiesToPlay >= |IssuedPositions(BankruptIssued(p))|
  }

  /**
   * `go_bankrupt_for_banker`, as written: the target sells every asset
   * worth anything and, as CFO, issues what `BankruptIssued` lists, so the
   * hand cards removed are those at the liabilities' ranks. These cards are
   * gone whatever follows. If all that and its cash fall short of the
   * amount, the banker gets all of it and the target is left with nothing;
   * otherwise the call fails with `NotRightCashAmount`, and the target
   * keeps its old cash.
   */
  function WentBankrupt(p: BankerTargetPlayerData, amount: nat, banker: BankerTargetPlayerData, market: Market): (r: (BankerTargetPlayerData, BankerTargetPlayerData, Result<PayBankerPlayer, PayBankerError>))
    requires BankruptcyFits(p)
  {
    Settlement(p, amount, banker, Liquidated(p, market))
  }

  /** How the bankruptcy settles once target `p` has liquidated into `sale`: the target's rest, the cards and the proceeds. */
  function Settlement(p: BankerTargetPlayerData, amount: nat, banker: BankerTargetPlayerData, sale: (BankerTargetPlayerData, SelectedCards, nat)): (r: (BankerTargetPlayerData, BankerTargetPlayerData, Result<PayBankerPlayer, PayBankerError>))
  {
    var (q, cards, proceeds) := sale;
    var total := p.cash + proceeds;
    if total < amount then
      (q.(cash := 0), banker.(cash := banker.cash + total),
       Ok(PayBankerPlayer(total, banker.cash + total, 0, p.id, banker.id, cards)))
    else (q, banker, Err(NotRightCashAmount(total, amount)))
  }

  /** The target without the cards it sells when going bankrupt, those cards, and what they fetch. */
  function Liquidated(p: BankerTargetPlayerData, market: Market): (BankerTargetPlayerData, SelectedCards, nat)
    requires BankruptcyFits(p)
  {
    var sold, issued := BankruptSold(p, market), BankruptIssued(p);
    (p.(assets := Without(p.assets, SoldPositions(sold), 0),
        hand := Without(p.hand, IssuedPositions(issued), 0),
        liabilitiesToPlay := p.liabilitiesToPlay - |IssuedPositions(issued)|),
     SelectedCards(sold, issued),
     SoldTotal(sold) + IssuedTotal(issued))
  }

  /**
   * Going bankrupt sells what `BankruptSold` and `BankruptIssued` list, and
   * the cards are gone whatever follows. If the target's cash and the
   * proceeds fall short of the amount, the banker gets all of it and the
   * target is left with no cash; otherwise the call fails with
   * `NotRightCashAmount`, the banker gets nothing and the target keeps its
   * old cash, without the proceeds.
   */
  lemma BankruptcySettles(p: BankerTargetPlayerData, amount: nat, banker: BankerTargetPlayerData, market: Market)
    requires BankruptcyFits(p)
    ensures var w := WentBankrupt(p, amount, banker, market);
      var sold, issued := BankruptSold(p, market), BankruptIssued(p);
      var total := p.cash + SoldTotal(sold) + IssuedTotal(issued);
      && |w.0.assets| == |p.assets| - |SoldPositions(sold)|
      && |w.0.hand| == |p.hand| - |IssuedPositions(issued)|
      && w.0.liabilitiesToPlay + |IssuedPositions(issued)| == p.liabilitiesToPlay
      && (w.2.Ok? <==> total < amount)
      && (w.2.Ok? ==> (
            && w.0.cash == 0 && w.1 == banker.(cash := banker.cash + total)
            && w.2.value == PayBankerPlayer(total, banker.cash + total, 0, p.id, banker.id, SelectedCards(sold, issued))))
      && (w.2.Err? ==> w.0.cash == p.cash && w.1 == banker && w.2.error == NotRightCashAmount(total, amount))
      && w.0.(cash := p.cash, assets := p.assets, hand := p.hand, liabilitiesToPlay := p.liabilitiesToPlay) == p
  {
    var sale := Liquidated(p, market);
    LiquidatedLengths(p, market);
    LiquidatedParts(p, market);
    SettlementOutcome(p, amount, banker, sale);
    assert WentBankrupt(p, amount, banker, market) == Settlement(p, amount, banker, sale);
  }

  /** A settlement pays everything to the banker exactly when it falls short of the amount. */
  lemma SettlementOutcome(p: BankerTargetPlayerData, amount: nat, banker: BankerTargetPlayerData, sale: (BankerTargetPlayerData, SelectedCards, nat))
    ensures var (q, b, result) := Settlement(p, amount, banker, sale);
      var total := p.cash + sale.2;
      && (result.Ok? <==> total < amount)
      && (result.Ok? ==> q == sale.0.(cash := 0) && b == banker.(cash := banker.cash + total)
                         && result.value == PayBankerPlayer(total, banker.cash + total, 0, p.id, banker.id, sale.1))
      && (result.Err? ==> q == sale.0 && b == banker && result.error == NotRightCashAmount(total, amount))
  {
  }

  /** What liquidating yields: the cards listed by `BankruptSold` and `BankruptIssued`, their total, and the cash untouched. */
  lemma LiquidatedParts(p: BankerTargetPlayerData, market: Market)
    requires BankruptcyFits(p)
    ensures var (q, cards, proceeds) := Liquidated(p, market);
      && cards == SelectedCards(BankruptSold(p, market), BankruptIssued(p))
      && proceeds == SoldTotal(BankruptSold(p, market)) + IssuedTotal(BankruptIssued(p))
      && q.cash == p.cash
  {
  }

  /** Liquidating removes exactly one asset per sold position and one hand card per issued position. */
  lemma LiquidatedLengths(p: BankerTargetPlayerData, market: Market)
    requires BankruptcyFits(p)
    ensures var q := Liquidated(p, market).0;
      && |q.assets| == |p.assets| - |SoldPositions(BankruptSold(p, market))|
      && |q.hand| == |p.hand| - |IssuedPositions(BankruptIssued(p))|
  {
    var sold, issued := BankruptSold(p, market), BankruptIssued(p);
    SoldInRange(p.assets, market);
    IssuedInRange(p);
    WithoutLength(p.assets, SoldPositions(sold), 0);
    assert GoneFrom(p.assets, SoldPositions(sold), 0) == SoldPositions(sold);
    WithoutLength(p.hand, IssuedPositions(issued), 0);
    assert GoneFrom(p.hand, IssuedPositions(issued), 0) == IssuedPositions(issued);
  }

  /**
   * A CFO holding an asset and then a liability loses the asset from its
   * hand when going bankrupt, and keeps the liability it issued.
   */
  lemma BankruptRemovesWrongCard(p: BankerTargetPlayerData, a: Asset, l: Liability, amount: nat, banker: BankerTargetPlayerData, market: Market)
    requires p.character == CFO && p.hand == [Left(a), Right(l)] && p.liabilitiesToPlay >= 1
    ensures BankruptcyFits(p)
    ensures BankruptIssued(p) == [IssuedLiability(0, l)]
    ensures WentBankrupt(p, amount, banker, market).0.hand == [Right(l)]
  {
    RankIsNotHandPosition(a, l);
    assert BankruptIssued(p) == [IssuedLiability(0, l)];
    assert IssuedPositions([IssuedLiability(0, l)]) == {0};
    assert Without(p.hand, {0}, 2) == [];
    assert Without(p.hand, {0}, 1) == [Right(l)];
  }

  /**
   * A CFO with liabilities of values 1, 2, 3, 4 in hand cannot go bankrupt
   * as written: the one drop removes at position 4 and `Vec::remove` panics.
   */
  lemma BankruptPanicsOnRisingLiabilities(p: BankerTargetPlayerData, l1: Liability, l2: Liability, l3: Liability, l4: Liability)
    requires l1.value == 1 && l2.value == 2 && l3.value == 3 && l4.value == 4
    requires p.character == CFO && p.hand == [Right(l1), Right(l2), Right(l3), Right(l4)]
    ensures !BankruptDropsInRange(p)
  {
    var hand := p.hand;
    assert hand[..3][..2][..1][..0] == [];
    assert hand[..3][..2][..1] == [Right(l1)];
    assert hand[..3][..2] == [Right(l1), Right(l2)];
    assert hand[..3] == [Right(l1), Right(l2), Right(l3)];
    assert HandLiabilitiesAsWritten(hand[..3][..2][..1]) == [IssuedLiability(0, l1)];
    assert HandLiabilitiesAsWritten(hand[..3][..2]) == [IssuedLiability(0, l1), IssuedLiability(1, l2)];
    assert HandLiabilitiesAsWritten(hand[..3]) == [IssuedLiability(0, l1), IssuedLiability(1, l2), IssuedLiability(2, l3)];
    assert HandLiabilitiesAsWritten(hand) ==
      [IssuedLiability(0, l1), IssuedLiability(1, l2), IssuedLiability(2, l3), IssuedLiability(3, l4)];
    RunningMaxIndexMisses(l1, l2, l3, l4);
  }

  /** After going bankrupt the target holds no asset worth anything. */
  lemma {:induction false} BankruptKeepsNothingOfValue(p: BankerTargetPlayerData, amount: nat, banker: BankerTargetPlayerData, market: Market)
    requires BankruptcyFits(p)
    ensures forall a :: a in WentBankrupt(p, amount, banker, market).0.assets ==> MarketValue(a, market) <= 0
  {
    var sold := BankruptSold(p, market);
    forall a | a in Without(p.assets, SoldPositions(sold), 0)
      ensures MarketValue(a, market) <= 0
    {
      var i := WithoutMember(p.assets, SoldPositions(sold), 0, a);
      if MarketValue(p.assets[i], market) > 0 {
        PositiveAssetsComplete(p.assets, market, i);
        assert false;
      }
    }
  }

  /**
   * The round player a banker target becomes again (`From<BankerTargetPlayer>`
   * in the banker target file): cash, holdings, hand and the liabilities
   * still to issue are kept, the turn counters start afresh.
   */
  function RoundFromBankerTarget(b: BankerTargetPlayerData, isHuman: bool): (r: RoundPlayerData)
    ensures b.liabilitiesToPlay <= PlayableLiabilities(b.character) ==> PlayerInv(r)
    ensures r.id == b.id && r.name == b.name && r.cash == b.cash && r.character == b.character
    ensures r.assets == b.assets && r.liabilities == b.liabilities && r.hand == b.hand
    ensures r.liabilitiesToPlay == b.liabilitiesToPlay
    ensures r.playableAssets == PlayableAssetsOf(b.character) && r.assetsToPlay == r.playableAssets.total
    ensures r.cardsDrawn == [] && r.bonusDrawCards == 0 && r.totalCardsDrawn == 0 && r.totalCardsGivenBack == 0
    ensures !r.hasUsedAbility && !r.hasGottenBonusCash && !r.wasFirstToSixAssets && r.isHuman == isHuman
  {
    var playable := PlayableAssetsOf(b.character);
    RoundPlayerData(b.id, b.name, b.cash, b.assets, b.liabilities, b.character, b.hand, [], 0,
                    playable.total, playable, b.liabilitiesToPlay, 0, 0,
                    false, false, false, isHuman)
  }

  /**
   * The second conversion back into the round (`From<&BankerTargetPlayer>`
   * in the round player file). It differs from `RoundFromBankerTarget` in one
   * field: the six-asset flag is carried over instead of reset. It sets the
   * bonus cash flag to false itself; the humanity flag it omits is a parameter.
   */
  function RoundFromBankerTargetRef(b: BankerTargetPlayerData, isHuman: bool): (r: RoundPlayerData)
    ensures b.liabilitiesToPlay <= PlayableLiabilities(b.character) ==> PlayerInv(r)
    ensures r.id == b.id && r.name == b.name && r.cash == b.cash && r.character == b.character
    ensures r.assets == b.assets && r.liabilities == b.liabilities && r.hand == b.hand
    ensures r.liabilitiesToPlay == b.liabilitiesToPlay
    ensures r.playableAssets == PlayableAssetsOf(b.character) && r.assetsToPlay == r.playableAssets.total
    ensures r.cardsDrawn == [] && r.bonusDrawCards == 0 && r.totalCardsDrawn == 0 && r.totalCardsGivenBack == 0
    ensures !r.hasUsedAbility && !r.hasGottenBonusCash && r.isHuman == isHuman
    ensures r.wasFirstToSixAssets == b.wasFirstToSixAssets
  {
    var playable := PlayableAssetsOf(b.character);
    RoundPlayerData(b.id, b.name, b.cash, b.assets, b.liabilities, b.character, b.hand, [], 0,
                    playable.total, playable, b.liabilitiesToPlay, 0, 0,
                    false, false, b.wasFirstToSixAssets, isHuman)
  }

  /**
   * Leaving the round for the banker's turn and coming back through the
   * by-reference conversion keeps the player's holdings, cash and six-asset
   * flag; the by-value conversion gives the same player with the flag reset.
   */
  lemma BankerTargetRoundTrip(p: RoundPlayerData)
    requires PlayerInv(p)
    ensures var r := RoundFromBankerTargetRef(BankerTargetFromRound(p), p.isHuman);
      && PlayerInv(r)
      && r.id == p.id && r.name == p.name && r.cash == p.cash && r.character == p.character
      && r.assets == p.assets && r.liabilities == p.liabilities && r.hand == p.hand
      && r.liabilitiesToPlay == p.liabilitiesToPlay
      && r.wasFirstToSixAssets == p.wasFirstToSixAssets && r.isHuman == p.isHuman
      && RoundFromBankerTarget(BankerTargetFromRound(p), p.isHuman) == r.(wasFirstToSixAssets := false)
  {
  }

  // ---------------------------------------------------------------- the class

  class BankerTargetPlayer {
    const id: PlayerId
    const name: string
    var cash: nat
    var assets: seq<Asset>
    const liabilities: seq<Liability>
    const character: Character
    var hand: seq<Card>
    var liabilitiesToPlay: nat
    const wasFirstToSixAssets: bool

    constructor FromData(d: BankerTargetPlayerData)
      ensures Data() == d
    {
      id, name, cash, assets, liabilities := d.id, d.name, d.cash, d.assets, d.liabilities;
      character, hand, liabilitiesToPlay, wasFirstToSixAssets := d.character, d.hand, d.liabilitiesToPlay, d.wasFirstToSixAssets;
    }

    function Data(): BankerTargetPlayerData
      reads this
    {
      BankerTargetPlayerData(id, name, cash, assets, liabilities, character, hand, liabilitiesToPlay, wasFirstToSixAssets)
    }

    /**
     * `pay_banker`. The chosen assets and liabilities are listed in the
     * report in no particular order, as the maps are iterated.
     */
    method PayBanker(amount: nat, s: Selections, banker: BankerTargetPlayer) returns (r: Result<PayBankerPlayer, PayBankerError>)
      requires banker != this && PaymentDoesNotPanic(Data(), amount, s)
      modifies this, banker
      ensures match PaidBanker(old(Data()), amount, s, old(banker.Data()))
        case Ok((q, b)) =>
          && Data() == q && banker.Data() == b
          && r.Ok? && r.value.paidAmount == amount && r.value.newBankerCash == b.cash && r.value.newTargetCash == q.cash
          && r.value.targetId == id && r.value.bankerId == banker.id
          && Reports(r.value.selectedCards, s, old(hand))
        case Err(e) => r == Err(e) && Data() == old(Data()) && banker.Data() == old(banker.Data())
    {
      var q, b;
      q, b, r := Pay(Data(), amount, s, banker.Data());
      cash, assets, hand, liabilitiesToPlay := q.cash, q.assets, q.hand, q.liabilitiesToPlay;
      assert Data() == q;
      banker.cash := b.cash;
      assert banker.Data() == b;
    }

    /** `pay_banker` on copies of the two players. */
    static method Pay(d: BankerTargetPlayerData, amount: nat, s: Selections, bd: BankerTargetPlayerData)
      returns (q: BankerTargetPlayerData, b: BankerTargetPlayerData, r: Result<PayBankerPlayer, PayBankerError>)
      requires PaymentDoesNotPanic(d, amount, s)
      ensures match PaidBanker(d, amount, s, bd)
        case Ok((q', b')) =>
          && q == q' && b == b'
          && r.Ok? && r.value.paidAmount == amount && r.value.newBankerCash == b.cash && r.value.newTargetCash == q.cash
          && r.value.targetId == d.id && r.value.bankerId == bd.id
          && Reports(r.value.selectedCards, s, d.hand)
        case Err(e) => r == Err(e) && q == d && b == bd
      ensures q == d.(cash := q.cash, assets := q.assets, hand := q.hand, liabilitiesToPlay := q.liabilitiesToPlay)
      ensures b == bd.(cash := b.cash)
    {
      var extraAssetCash := SumOf(s.assets);
      var extraLiabilityCash := SumOf(s.liabilities);
      if d.cash + extraAssetCash + extraLiabilityCash < amount {
        return d, bd, Err(PayNotEnoughCash);
      }
      var soldAssets := SoldAssetsOf(s.assets);
      var issuedLiabilities := IssuedLiabilitiesOf(s.liabilities, d.hand);
      var newAssets := RemovePositions(d.assets, s.assets.Keys);
      var newHand, newToPlay := RemoveIssued(d.hand, s.liabilities.Keys, d.liabilitiesToPlay);
      b := bd.(cash := bd.cash + amount);
      q := d.(cash := d.cash + extraAssetCash + extraLiabilityCash - amount, assets := newAssets, hand := newHand, liabilitiesToPlay := newToPlay);
      r := Ok(PayBankerPlayer(amount, b.cash, q.cash, d.id, bd.id, SelectedCards(soldAssets, issuedLiabilities)));
      PaidBankerIs(d, amount, s, bd, q, b);
    }

    /** `go_bankrupt_for_banker` (see `WentBankrupt`). */
    method GoBankruptForBanker(amount: nat, banker: BankerTargetPlayer, market: Market) returns (r: Result<PayBankerPlayer, PayBankerError>)
      requires banker != this && BankruptcyFits(Data())
      modifies this, banker
      ensures (Data(), banker.Data(), r) == WentBankrupt(old(Data()), amount, old(banker.Data()), market)
    {
      var q, b;
      q, b, r := Bankrupt(Data(), amount, banker.Data(), market);
      assets, hand, liabilitiesToPlay, cash := q.assets, q.hand, q.liabilitiesToPlay, q.cash;
      assert Data() == q;
      banker.cash := b.cash;
      assert banker.Data() == b;
    }

    /** `go_bankrupt_for_banker` on copies of the two players. */
    static method Bankrupt(d: BankerTargetPlayerData, amount: nat, bd: BankerTargetPlayerData, market: Market)
      returns (q: BankerTargetPlayerData, b: BankerTargetPlayerData, r: Result<PayBankerPlayer, PayBankerError>)
      requires BankruptcyFits(d)
      ensures (q, b, r) == WentBankrupt(d, amount, bd, market)
      ensures q == d.(assets := q.assets, hand := q.hand, liabilitiesToPlay := q.liabilitiesToPlay, cash := q.cash)
      ensures b == bd.(cash := b.cash)
    {
      var cards, proceeds;
      q, cards, proceeds := Liquidate(d, market);
      var total := proceeds + d.cash;
      if total < amount {
        q := q.(cash := 0);
        b := bd.(cash := bd.cash + total);
        r := Ok(PayBankerPlayer(total, b.cash, 0, d.id, bd.id, cards));
      } else {
        b := bd;
        r := Err(NotRightCashAmount(total, amount));
      }
    }

    /** The loops of `go_bankrupt_for_banker` that sell the cards, on a copy of the target. */
    static method Liquidate(d: BankerTargetPlayerData, market: Market) returns (q: BankerTargetPlayerData, cards: SelectedCards, proceeds: nat)
      requires BankruptcyFits(d)
      ensures (q, cards, proceeds) == Liquidated(d, market)
    {
      var sold := CollectPositiveAssets(d.assets, market);
      var issued := CollectIssued(d);
      var extraAssetCash := SumSold(sold);
      var extraLiabilityCash := SumIssued(issued);
      SoldInRange(d.assets, market);
      IssuedInRange(d);
      var newAssets := RemovePositions(d.assets, SoldPositions(sold));
      var newHand, newToPlay := RemoveIssued(d.hand, IssuedPositions(issued), d.liabilitiesToPlay);
      q := d.(assets := newAssets, hand := newHand, liabilitiesToPlay := newToPlay);
      cards := SelectedCards(sold, issued);
      proceeds := extraAssetCash + extraLiabilityCash;
      assert sold == BankruptSold(d, market) && issued == BankruptIssued(d);
      ghost var expected := Liquidated(d, market);
      assert cards == expected.1 && proceeds == expected.2;
      assert q.assets == expected.0.assets && q.hand == expected.0.hand;
      assert q.liabilitiesToPlay == expected.0.liabilitiesToPlay;
    }

    /** `values().sum()` over a map. */
    static method SumOf(m: map<nat, nat>) returns (sum: nat)
      ensures sum == SumValues(m)
    {
      sum := 0;
      var rest := m;
      while rest.Keys != {}
        invariant sum + SumValues(rest) == SumValues(m)
        decreases |rest.Keys|
      {
        var k :| k in rest.Keys;
        SumValuesRemove(rest, k);
        sum := sum + rest[k];
        assert (rest - {k}).Keys == rest.Keys - {k};
        rest := rest - {k};
      }
    }

    /** The sold assets of a payment, one per entry of the map. */
    static method SoldAssetsOf(m: map<nat, nat>) returns (sold: seq<SoldAsset>)
      ensures |sold| == |m.Keys|
      ensures forall x :: x in sold <==> x.assetIdx in m && m[x.assetIdx] == x.marketValue
    {
      sold := [];
      var keys := m.Keys;
      while keys != {}
        invariant keys <= m.Keys
        invariant |sold| + |keys| == |m.Keys|
        invariant forall x :: x in sold <==> x.assetIdx in m && x.assetIdx !in keys && m[x.assetIdx] == x.marketValue
        decreases |keys|
      {
        var k :| k in keys;
        sold := sold + [SoldAsset(k, m[k])];
        keys := keys - {k};
      }
    }

    /** The issued liabilities of a payment, one per entry of the map, read from the hand. */
    static method IssuedLiabilitiesOf(m: map<nat, nat>, hand: seq<Card>) returns (issued: seq<IssuedLiability>)
      requires forall k :: k in m ==> k < |hand| && hand[k].Right?
      ensures |issued| == |m.Keys|
      ensures forall x :: x in issued <==> x.cardIdx in m && x.cardIdx < |hand| && hand[x.cardIdx] == Right(x.liability)
    {
      issued := [];
      var keys := m.Keys;
      while keys != {}
        invariant keys <= m.Keys
        invariant |issued| + |keys| == |m.Keys|
        invariant forall x :: x in issued <==>
          x.cardIdx in m && x.cardIdx !in keys && x.cardIdx < |hand| && hand[x.cardIdx] == Right(x.liability)
        decreases |keys|
      {
        var k :| k in keys;
        issued := issued + [IssuedLiability(k, hand[k].right)];
        keys := keys - {k};
      }
    }

    /**
     * Removes the positions of issued liabilities from the hand, from the
     * highest down, using one issuable liability for each.
     */
    static method RemoveIssued(hand: seq<Card>, gone: set<nat>, toPlay: nat) returns (h: seq<Card>, left: nat)
      requires forall k :: k in gone ==> k < |hand|
      requires toPlay >= |gone|
      ensures h == Without(hand, gone, 0)
      ensures left + |gone| == toPlay
    {
      var remaining := gone;
      h, left := hand, toPlay;
      ghost var t: nat := |hand|;
      while remaining != {}
        invariant t <= |hand|
        invariant forall k :: k in remaining <==> k in gone && k < t
        invariant remaining <= gone
        invariant h == hand[..t] + Without(hand, gone, t)
        invariant left + |gone| == toPlay + |remaining|
        decreases remaining
      {
        SetHasMax(remaining);
        var j :| j in remaining && forall k :: k in remaining ==> k <= j;
        WithoutStep(hand, gone, j, t);
        h := RemoveAt(h, j);
        SubsetCardinality(remaining, gone);
        left := left - 1;
        remaining := remaining - {j};
        t := j;
      }
      WithoutStretch(hand, gone, 0, t);
      assert hand[..t] == hand[0..t];
    }

    /** The loop over the assets that lists every asset worth anything. */
    static method CollectPositiveAssets(assets: seq<Asset>, market: Market) returns (sold: seq<SoldAsset>)
      ensures sold == PositiveAssets(assets, market)
    {
      sold := [];
      for i := 0 to |assets|
        invariant sold == PositiveAssets(assets[..i], market)
      {
        var value := MarketValue(assets[i], market);
        if value > 0 {
          sold := sold + [SoldAsset(i, value)];
        }
        assert assets[..i + 1][..i] == assets[..i];
      }
      assert assets[..|assets|] == assets;
    }

    /** The CFO's liabilities in hand, all but three dropped by the running-maximum loop; nothing for anyone else. */
    static method CollectIssued(d: BankerTargetPlayerData) returns (issued: seq<IssuedLiability>)
      requires BankruptDropsInRange(d)
      ensures issued == BankruptIssued(d)
    {
      issued := [];
      if d.character == CFO {
        issued := CollectHandLiabilities(d.hand);
        issued := DropSurplus(issued);
      }
    }

    /** The loop over the hand's liabilities, numbered by `enumerate` after `filter`. */
    static method CollectHandLiabilities(hand: seq<Card>) returns (issued: seq<IssuedLiability>)
      ensures issued == HandLiabilitiesAsWritten(hand)
    {
      issued := [];
      for i := 0 to |hand|
        invariant issued == HandLiabilitiesAsWritten(hand[..i])
      {
        if hand[i].Right? {
          issued := issued + [IssuedLiability(|issued|, hand[i].right)];
        }
        assert hand[..i + 1][..i] == hand[..i];
      }
      assert hand[..|hand|] == hand;
    }

    /** The outer loop: while more than three are listed, remove the position the inner loop gives. */
    static method DropSurplus(issued0: seq<IssuedLiability>) returns (issued: seq<IssuedLiability>)
      requires DropsInRange(issued0, Surplus(|issued0|))
      ensures issued == DropRunningMax(issued0, Surplus(|issued0|))
    {
      issued := issued0;
      var len := |issued|;
      if len > 3 {
        len := len - 3;
      } else {
        len := 0;
      }
      for dropped := 0 to len
        invariant DropsInRange(issued, len - dropped)
        invariant DropRunningMax(issued, len - dropped) == DropRunningMax(issued0, len)
      {
        var index := RunningMax(issued);
        issued := RemoveAt(issued, index);
      }
    }

    /** The inner loop: counts the new running maxima, starting from 0. */
    static method RunningMax(issued: seq<IssuedLiability>) returns (index: nat)
      ensures index == RunningMaxIndex(issued)
    {
      var smallestV: nat := 0;
      index := 0;
      for k := 0 to |issued|
        invariant index + RecordsAbove(issued[k..], smallestV) == RunningMaxIndex(issued)
      {
        assert issued[k..][1..] == issued[k + 1..];
        if smallestV < issued[k].liability.value {
          smallestV := issued[k].liability.value;
          index := index + 1;
        }
      }
    }

    /** The sum of a list of sold assets' values. */
    static method SumSold(sold: seq<SoldAsset>) returns (sum: nat)
      ensures sum == SoldTotal(sold)
    {
      sum := 0;
      for i := 0 to |sold|
        invariant sum == SoldTotal(sold[..i])
      {
        sum := sum + sold[i].marketValue;
        assert sold[..i + 1][..i] == sold[..i];
      }
      assert sold[..|sold|] == sold;
    }

    /** The sum of a list of issued liabilities' values. */
    static method SumIssued(issued: seq<IssuedLiability>) returns (sum: nat)
      ensures sum == IssuedTotal(issued)
    {
      sum := 0;
      for i := 0 to |issued|
        invariant sum == IssuedTotal(issued[..i])
      {
        sum := sum + issued[i].liability.value;
        assert issued[..i + 1][..i] == issued[..i];
      }
      assert issued[..|issued|] == issued;
    }
  }
}
