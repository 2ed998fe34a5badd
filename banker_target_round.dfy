// The banker-target phase (game/src/game/banker_target.rs): the round taken
// over when the banker targets the current player. It owes the banker one
// gold per asset colour it holds, plus one; it chooses assets to sell and,
// as CFO, liabilities to issue, and pays. The phase is built from the round
// it interrupts, keeping the decks, the market and the characters.
module BankerTargetRounds {
  import opened Wrappers
  import opened Vocabulary
  import opened Errors
  import opened PlayerRules
  import opened Sequences
  import opened Decks
  import opened PlayerLists
  import opened PlayerRecords
  import opened RoundPlayers
  import opened BankerTargetPlayers
  import opened RoundRules
  import opened Rounds

  datatype BankerTargetRoundData = BankerTargetRoundData(
    currentPlayer: PlayerId,
    players: seq<BankerTargetPlayerData>,
    assets: DeckData<Asset>,
    liabilities: DeckData<Liability>,
    markets: DeckData<MarketCard>,
    chairman: PlayerId,
    currentMarket: Market,
    currentEvents: seq<Event>,
    openCharacters: seq<Character>,
    firedCharacters: seq<Character>,
    goldToBePaid: nat,
    canPayBanker: bool,
    selectedCards: Selections,
    isFinalRound: bool)

  /**
   * The phase is well formed: the current player exists, ids are positions,
   * and what the current player has chosen is consistent with its holdings.
   */
  ghost predicate TargetRoundInv(r: BankerTargetRoundData)
  {
    && r.currentPlayer < |r.players|
    && (forall i :: 0 <= i < |r.players| ==> r.players[i].id == i)
    && SelectionsValid(r.players[r.currentPlayer], r.currentMarket, r.selectedCards)
  }

  // ---------------------------------------------------- what the target owes

  /** The colours of a list of assets, each once. */
  function ColorsHeld(assets: seq<Asset>): set<Color>
  {
    set a | a in assets :: a.color
  }

  /** There are five colours. */
  lemma ColorsHeldBound(assets: seq<Asset>)
    ensures |ColorsHeld(assets)| <= 5
  {
    var all := {Red, Green, Purple, Yellow, Blue};
    forall c | c in ColorsHeld(assets)
      ensures c in all
    {
      assert c.Red? || c.Green? || c.Purple? || c.Yellow? || c.Blue?;
    }
    SubsetCardinality(ColorsHeld(assets), all);
  }


  /**
   * The gold the target owes: one per distinct asset colour, plus one. It
   * fits the `u8` the source stores it in.
   */
  function GoldOwed(assets: seq<Asset>): (r: nat)
    ensures 1 <= r <= 6
    ensures assets == [] ==> r == 1
  {
    ColorsHeldBound(assets);
    |ColorsHeld(assets)| + 1
  }

  /** Buying an asset raises what is owed by one exactly when its colour is new. */
  lemma GoldOwedGrowsWithNewColors(assets: seq<Asset>, a: Asset)
    ensures GoldOwed(assets + [a]) == GoldOwed(assets) + (if a.color in ColorsHeld(assets) then 0 else 1)
  {
    var before, after := ColorsHeld(assets), ColorsHeld(assets + [a]);
    forall c | c in after
      ensures c in before + {a.color}
    {
      var b :| b in assets + [a] && b.color == c;
      if b != a { assert b in assets; }
    }
    forall c | c in before + {a.color}
      ensures c in after
    {
      if c != a.color {
        var b :| b in assets && b.color == c;
        assert b in assets + [a];
      } else {
        assert a in assets + [a];
      }
    }
    assert after == before + {a.color};
    if a.color !in before {
      assert |before + {a.color}| == |before| + 1;
    }
  }

  // ---------------------------------------------------- what the target has

  /** A market value counted as funds: negative values count as nothing. */
  function Funds(value: int): (r: nat)
    ensures r == if value > 0 then value else 0
  {
    if value > 0 then value else 0
  }

  /** The assets' market values, negative ones counted as 0, summed. */
  function AssetFunds(assets: seq<Asset>, market: Market): (r: nat)
    decreases |assets|
  {
    if assets == [] then 0
    else AssetFunds(assets[..|assets| - 1], market) + Funds(MarketValue(assets[|assets| - 1], market))
  }

  /** The asset funds the phase counts are what selling every asset worth anything fetches. */
  lemma {:induction false} AssetFundsAreBankruptSales(assets: seq<Asset>, market: Market)
    ensures AssetFunds(assets, market) == SoldTotal(PositiveAssets(assets, market))
    decreases |assets|
  {
    if assets != [] {
      var last := |assets| - 1;
      var before := PositiveAssets(assets[..last], market);
      AssetFundsAreBankruptSales(assets[..last], market);
      var value := MarketValue(assets[last], market);
      if value > 0 {
        assert (before + [SoldAsset(last, value)])[..|before|] == before;
      } else {
        assert before + [] == before;
      }
    }
  }

  /** The values of the liabilities in a hand, in hand order. */
  function HandLiabilityValues(hand: seq<Card>): seq<nat>
  {
    var value: Card -> nat := (c: Card) => if c.Right? then c.right.value else 0;
    FilterMap(hand, (c: Card) => c.Right?, value)
  }

  function Sum(s: seq<nat>): nat
  {
    if s == [] then 0 else s[0] + Sum(s[1..])
  }

  lemma {:induction false} SumThree(s: seq<nat>)
    requires |s| == 3
    ensures Sum(s) == s[0] + s[1] + s[2]
  {
    var a := s[1..];
    var b := a[1..];
    assert b[1..] == [];
    assert Sum(b) == b[0] && b[0] == s[2] && a[0] == s[1];
  }

  predicate Ascending(s: seq<nat>)
  {
    forall i, j :: 0 <= i < j < |s| ==> s[i] <= s[j]
  }

  /** Inserts a value into an ascending list. */
  function Inserted(x: nat, s: seq<nat>): (r: seq<nat>)
    requires Ascending(s)
    ensures Ascending(r) && multiset(r) == multiset(s) + multiset{x}
    ensures |r| == |s| + 1 && forall k :: 0 <= k < |r| ==> r[k] == x || r[k] in s
  {
    if s == [] then [x]
    else if x <= s[0] then
      assert forall k :: 1 <= k < |s| + 1 ==> ([x] + s)[k] == s[k - 1];
      [x] + s
    else
      var rest := Inserted(x, s[1..]);
      InsertedStep(x, s, rest);
      [s[0]] + rest
  }

  lemma InsertedStep(x: nat, s: seq<nat>, rest: seq<nat>)
    requires Ascending(s) && s != [] && x > s[0] && Ascending(rest)
    requires multiset(rest) == multiset(s[1..]) + multiset{x}
    requires |rest| == |s| && forall k :: 0 <= k < |rest| ==> rest[k] == x || rest[k] in s[1..]
    ensures Ascending([s[0]] + rest) && multiset([s[0]] + rest) == multiset(s) + multiset{x}
    ensures forall k :: 0 <= k < |rest| + 1 ==> ([s[0]] + rest)[k] == x || ([s[0]] + rest)[k] in s
  {
    assert s == [s[0]] + s[1..];
    forall k | 0 <= k < |rest|
      ensures s[0] <= rest[k]
    {
      if rest[k] != x {
        var j :| 0 <= j < |s[1..]| && s[1..][j] == rest[k];
        assert s[0] <= s[j + 1];
      }
    }
  }

  /** `sort()` on a list of values: ascending, with the same values. */
  function SortedAscending(s: seq<nat>): (r: seq<nat>)
    ensures Ascending(r) && multiset(r) == multiset(s)
  {
    if s == [] then []
    else
      assert s == [s[0]] + s[1..];
      Inserted(s[0], SortedAscending(s[1..]))
  }

  /**
   * The liability funds: none unless the target is the CFO; the CFO counts
   * all the liabilities in its hand when it has at most three, otherwise the
   * three smallest.
   */
  function LiabilityFunds(p: RoundPlayerData): (r: nat)
    ensures p.character != CFO ==> r == 0
    ensures p.character == CFO && |HandLiabilityValues(p.hand)| <= 3 ==> r == Sum(HandLiabilityValues(p.hand))
  {
    if p.character == CFO then
      var values := HandLiabilityValues(p.hand);
      if |values| <= 3 then Sum(values)
      else
        var sorted := SortedAscending(values);
        assert |sorted| == |multiset(values)|;
        sorted[0] + sorted[1] + sorted[2]
    else 0
  }

  /**
   * With more than three liabilities in hand, the CFO's funds are three of
   * its liabilities, none worth more than any liability left out.
   */
  lemma SmallestThreeCounted(p: RoundPlayerData) returns (counted: seq<nat>)
    requires p.character == CFO && |HandLiabilityValues(p.hand)| > 3
    ensures |counted| == 3 && multiset(counted) <= multiset(HandLiabilityValues(p.hand))
    ensures LiabilityFunds(p) == Sum(counted)
    ensures forall x, y :: x in counted && y in multiset(HandLiabilityValues(p.hand)) - multiset(counted) ==> x <= y
  {
    var values := HandLiabilityValues(p.hand);
    var sorted := SortedAscending(values);
    assert |sorted| == |multiset(values)|;
    counted := sorted[..3];
    SumThree(counted);
    assert sorted == counted + sorted[3..];
    assert multiset(values) == multiset(counted) + multiset(sorted[3..]);
    forall x, y | x in counted && y in multiset(values) - multiset(counted)
      ensures x <= y
    {
      assert y in multiset(sorted[3..]);
      var i :| 0 <= i < 3 && counted[i] == x;
      var j :| 0 <= j < |sorted[3..]| && sorted[3..][j] == y;
      assert sorted[i] <= sorted[3 + j];
    }
  }

  /** `can_pay_banker`: the owed gold is covered by the liability funds, the asset funds and the cash. */
  predicate CanPayBanker(p: RoundPlayerData, market: Market)
  {
    GoldOwed(p.assets) <= LiabilityFunds(p) + AssetFunds(p.assets, market) + p.cash
  }

  /**
   * For anyone but the CFO, the phase says the target can pay exactly when
   * selling everything worth anything, as going bankrupt does, would raise
   * the owed gold.
   */
  lemma NonCfoCanPayIffLiquidationCovers(p: RoundPlayerData, market: Market)
    requires p.character != CFO
    ensures BankruptcyFits(BankerTargetFromRound(p))
    ensures CanPayBanker(p, market) <==> GoldOwed(p.assets) <= p.cash + Liquidated(BankerTargetFromRound(p), market).2
  {
    var b := BankerTargetFromRound(p);
    assert BankruptIssued(b) == [];
    assert IssuedPositions([]) == {};
    AssetFundsAreBankruptSales(p.assets, market);
  }

  // -------------------------------------------------------- entering the phase

  /**
   * `From<&mut Round>`: every player continues as a banker target, the
   * decks, market, events and characters are copied, the owed gold and
   * whether it can be paid are computed for the current player, and nothing
   * is chosen yet.
   */
  function EnteredFromRound(r: RoundData): (b: BankerTargetRoundData)
    requires r.currentPlayer < |r.players|
    ensures |b.players| == |r.players|
    ensures forall i :: 0 <= i < |r.players| ==> b.players[i] == BankerTargetFromRound(r.players[i])
    ensures b.currentPlayer == r.currentPlayer && b.chairman == r.chairman && b.isFinalRound == r.isFinalRound
    ensures b.assets == r.assets && b.liabilities == r.liabilities && b.markets == r.markets
    ensures b.currentMarket == r.currentMarket && b.currentEvents == r.currentEvents
    ensures b.openCharacters == r.openCharacters && b.firedCharacters == r.firedCharacters
    ensures b.goldToBePaid == GoldOwed(r.players[r.currentPlayer].assets)
    ensures b.canPayBanker <==> CanPayBanker(r.players[r.currentPlayer], r.currentMarket)
    ensures b.selectedCards == NO_SELECTIONS
  {
    var current := r.players[r.currentPlayer];
    BankerTargetRoundData(
      r.currentPlayer,
      seq(|r.players|, i requires 0 <= i < |r.players| => BankerTargetFromRound(r.players[i])),
      r.assets, r.liabilities, r.markets, r.chairman, r.currentMarket, r.currentEvents,
      r.openCharacters, r.firedCharacters,
      GoldOwed(current.assets), CanPayBanker(current, r.currentMarket), NO_SELECTIONS, r.isFinalRound)
  }

  /** A well-formed round becomes a well-formed banker-target phase in which the target keeps its holdings. */
  lemma FromRoundKeepsInv(r: RoundData)
    requires RoundInv(r)
    ensures TargetRoundInv(EnteredFromRound(r))
    ensures var b := EnteredFromRound(r); var p := r.players[r.currentPlayer];
      && b.players[b.currentPlayer].cash == p.cash
      && b.players[b.currentPlayer].assets == p.assets && b.players[b.currentPlayer].hand == p.hand
  {
  }

  // ---------------------------------------------------------------- lookups

  /** `player_as_current_mut`: the player with this id, if it is the one targeted. */
  function TargetAsCurrent(r: BankerTargetRoundData, id: PlayerId): (res: Result<BankerTargetPlayerData, GameError>)
    ensures res.Ok? <==> id < |r.players| && r.players[id].id == r.currentPlayer
    ensures id >= |r.players| ==> res == Err(InvalidPlayerIndex(id))
    ensures id < |r.players| && r.players[id].id != r.currentPlayer ==> res == Err(NotPlayersTurn)
    ensures res.Ok? ==> res.value == r.players[id]
  {
    if id >= |r.players| then Err(InvalidPlayerIndex(id))
    else if r.players[id].id != r.currentPlayer then Err(NotPlayersTurn)
    else Ok(r.players[id])
  }

  /** `player_by_name` */
  function TargetByName(players: seq<BankerTargetPlayerData>, name: string): (r: Result<BankerTargetPlayerData, GameError>)
    ensures r.Err? <==> forall i :: 0 <= i < |players| ==> players[i].name != name
    ensures r.Err? ==> r.error == InvalidPlayerName(name)
    ensures r.Ok? ==> r.value in players && r.value.name == name
  {
    match FindIndex(players, (p: BankerTargetPlayerData) => p.name == name)
    case None => Err(InvalidPlayerName(name))
    case Some(i) => Ok(players[i])
  }

  /** The position of the first player holding the banker. */
  function BankerPosition(players: seq<BankerTargetPlayerData>): (k: Option<nat>)
    ensures k.None? <==> forall i :: 0 <= i < |players| ==> players[i].character != Banker
    ensures k.Some? ==> k.value < |players| && players[k.value].character == Banker
  {
    FindIndex(players, (p: BankerTargetPlayerData) => p.character == Banker)
  }

  // ---------------------------------------------------------------- choosing

  /** `player_select_divest_asset`: the target chooses an asset to sell. */
  function SelectedDivestAssetInRound(r: BankerTargetRoundData, id: PlayerId, assetIdx: nat): (res: Result<(BankerTargetRoundData, Selections), GameError>)
    ensures res.Ok? <==>
      TargetAsCurrent(r, id).Ok? && SelectedDivestAsset(r.players[id], assetIdx, r.currentMarket, r.selectedCards.assets).Ok?
    ensures TargetAsCurrent(r, id).Err? ==> res == Err(TargetAsCurrent(r, id).error)
    ensures TargetAsCurrent(r, id).Ok? && SelectedDivestAsset(r.players[id], assetIdx, r.currentMarket, r.selectedCards.assets).Err? ==>
      res == Err(BankerTargetSelectErr(SelectedDivestAsset(r.players[id], assetIdx, r.currentMarket, r.selectedCards.assets).error))
    ensures res.Ok? ==> var (q, s) := res.value;
      && q == r.(selectedCards := s) && s.liabilities == r.selectedCards.liabilities
      && s.assets == SelectedDivestAsset(r.players[id], assetIdx, r.currentMarket, r.selectedCards.assets).value.1
  {
    match TargetAsCurrent(r, id)
    case Err(e) => Err(e)
    case Ok(p) =>
      match SelectedDivestAsset(p, assetIdx, r.currentMarket, r.selectedCards.assets)
      case Err(e) => Err(BankerTargetSelectErr(e))
      case Ok((_, chosen)) =>
        var s := r.selectedCards.(assets := chosen);
        Ok((r.(selectedCards := s), s))
  }

  /** `player_unselect_divest_asset`: the target takes an asset off its choices. */
  function UnselectedDivestAssetInRound(r: BankerTargetRoundData, id: PlayerId, assetIdx: nat): (res: Result<(BankerTargetRoundData, Selections), GameError>)
    ensures res.Ok? <==> TargetAsCurrent(r, id).Ok? && UnselectedDivestAsset(r.players[id], assetIdx, r.selectedCards.assets).Ok?
    ensures TargetAsCurrent(r, id).Err? ==> res == Err(TargetAsCurrent(r, id).error)
    ensures TargetAsCurrent(r, id).Ok? && UnselectedDivestAsset(r.players[id], assetIdx, r.selectedCards.assets).Err? ==>
      res == Err(BankerTargetSelectErr(UnselectedDivestAsset(r.players[id], assetIdx, r.selectedCards.assets).error))
    ensures res.Ok? ==> var (q, s) := res.value;
      && q == r.(selectedCards := s) && s.liabilities == r.selectedCards.liabilities
      && s.assets == r.selectedCards.assets - {assetIdx}
  {
    match TargetAsCurrent(r, id)
    case Err(e) => Err(e)
    case Ok(p) =>
      match UnselectedDivestAsset(p, assetIdx, r.selectedCards.assets)
      case Err(e) => Err(BankerTargetSelectErr(e))
      case Ok((_, chosen)) =>
        var s := r.selectedCards.(assets := chosen);
        Ok((r.(selectedCards := s), s))
  }

  /** `player_select_issue_liability`: the targeted CFO chooses a liability to issue. */
  function SelectedIssueLiabilityInRound(r: BankerTargetRoundData, id: PlayerId, cardIdx: nat): (res: Result<(BankerTargetRoundData, Selections), GameError>)
    ensures res.Ok? <==> TargetAsCurrent(r, id).Ok? && SelectedIssueLiability(r.players[id], cardIdx, r.selectedCards.liabilities).Ok?
    ensures TargetAsCurrent(r, id).Err? ==> res == Err(TargetAsCurrent(r, id).error)
    ensures TargetAsCurrent(r, id).Ok? && SelectedIssueLiability(r.players[id], cardIdx, r.selectedCards.liabilities).Err? ==>
      res == Err(BankerTargetSelectErr(SelectedIssueLiability(r.players[id], cardIdx, r.selectedCards.liabilities).error))
    ensures res.Ok? ==> var (q, s) := res.value;
      && q == r.(selectedCards := s) && s.assets == r.selectedCards.assets
      && s.liabilities == r.selectedCards.liabilities[cardIdx := r.players[id].hand[cardIdx].right.value]
  {
    match TargetAsCurrent(r, id)
    case Err(e) => Err(e)
    case Ok(p) =>
      match SelectedIssueLiability(p, cardIdx, r.selectedCards.liabilities)
      case Err(e) => Err(BankerTargetSelectErr(e))
      case Ok((_, chosen)) =>
        var s := r.selectedCards.(liabilities := chosen);
        Ok((r.(selectedCards := s), s))
  }

  /** `player_unselect_issue_liability`: the targeted CFO takes a liability off its choices. */
  function UnselectedIssueLiabilityInRound(r: BankerTargetRoundData, id: PlayerId, cardIdx: nat): (res: Result<(BankerTargetRoundData, Selections), GameError>)
    ensures res.Ok? <==> TargetAsCurrent(r, id).Ok? && UnselectedIssueLiability(r.players[id], cardIdx, r.selectedCards.liabilities).Ok?
    ensures TargetAsCurrent(r, id).Err? ==> res == Err(TargetAsCurrent(r, id).error)
    ensures TargetAsCurrent(r, id).Ok? && UnselectedIssueLiability(r.players[id], cardIdx, r.selectedCards.liabilities).Err? ==>
      res == Err(BankerTargetSelectErr(UnselectedIssueLiability(r.players[id], cardIdx, r.selectedCards.liabilities).error))
    ensures res.Ok? ==> var (q, s) := res.value;
      && q == r.(selectedCards := s) && s.assets == r.selectedCards.assets
      && s.liabilities == r.selectedCards.liabilities - {cardIdx}
  {
    match TargetAsCurrent(r, id)
    case Err(e) => Err(e)
    case Ok(p) =>
      match UnselectedIssueLiability(p, cardIdx, r.selectedCards.liabilities)
      case Err(e) => Err(BankerTargetSelectErr(e))
      case Ok((_, chosen)) =>
        var s := r.selectedCards.(liabilities := chosen);
        Ok((r.(selectedCards := s), s))
  }

  /** Choosing and un-choosing keep the phase well formed. */
  lemma ChoicesKeepTargetRoundInv(r: BankerTargetRoundData, id: PlayerId, idx: nat)
    requires TargetRoundInv(r)
    ensures SelectedDivestAssetInRound(r, id, idx).Ok? ==> TargetRoundInv(SelectedDivestAssetInRound(r, id, idx).value.0)
    ensures UnselectedDivestAssetInRound(r, id, idx).Ok? ==> TargetRoundInv(UnselectedDivestAssetInRound(r, id, idx).value.0)
    ensures SelectedIssueLiabilityInRound(r, id, idx).Ok? ==> TargetRoundInv(SelectedIssueLiabilityInRound(r, id, idx).value.0)
    ensures UnselectedIssueLiabilityInRound(r, id, idx).Ok? ==> TargetRoundInv(UnselectedIssueLiabilityInRound(r, id, idx).value.0)
  {
    if id < |r.players| && r.players[id].id == r.currentPlayer {
      AssetChoicesKeepSelectionsValid(r.players[id], r.currentMarket, r.selectedCards, idx);
      LiabilityChoicesKeepSelectionsValid(r.players[id], r.currentMarket, r.selectedCards, idx);
    }
  }

  /** Choosing a card and un-choosing it gives back the phase as it was. */
  lemma SelectUnselectInRoundRoundTrip(r: BankerTargetRoundData, id: PlayerId, idx: nat)
    ensures SelectedDivestAssetInRound(r, id, idx).Ok? ==>
      UnselectedDivestAssetInRound(SelectedDivestAssetInRound(r, id, idx).value.0, id, idx) == Ok((r, r.selectedCards))
    ensures SelectedIssueLiabilityInRound(r, id, idx).Ok? ==>
      UnselectedIssueLiabilityInRound(SelectedIssueLiabilityInRound(r, id, idx).value.0, id, idx) == Ok((r, r.selectedCards))
  {
    if SelectedDivestAssetInRound(r, id, idx).Ok? {
      SelectUnselectRoundTrip(r.players[id], idx, r.currentMarket, r.selectedCards.assets);
    }
    if SelectedIssueLiabilityInRound(r, id, idx).Ok? {
      SelectUnselectRoundTrip(r.players[id], idx, r.currentMarket, r.selectedCards.liabilities);
    }
  }

  // ---------------------------------------------------------------- paying

  /**
   * Whether `player_pay_banker` gets as far as `pay_banker`: someone holds
   * the banker, payer and banker are two players, and the amount is the
   * gold owed.
   */
  predicate PaymentReached(r: BankerTargetRoundData, id: PlayerId, cash: nat)
  {
    match BankerPosition(r.players)
    case None => false
    case Some(k) => Disjoint(r.players, id, r.players[k].id) && cash == r.goldToBePaid
  }

  /**
   * Every liability chosen can still be issued when the target has its full
   * allowance of liabilities, as at the start of its turn.
   */
  lemma FreshTargetPaymentFits(p: BankerTargetPlayerData, market: Market, s: Selections)
    requires SelectionsValid(p, market, s) && p.liabilitiesToPlay >= 3
    ensures PaymentFits(p, s)
  {
    assert |s.liabilities.Keys| == |s.liabilities|;
  }

  /**
   * `player_pay_banker`: without a banker, or when the payer is the banker
   * or unknown, `NoBankerPlayer`; an amount other than the gold owed,
   * `NotRightCashAmount`; otherwise the payer pays the banker with the
   * chosen cards. The source unwraps the chosen hand cards and removes the
   * chosen positions, so it needs the choices to fit the payer.
   */
  ghost function PaidBankerInRound(r: BankerTargetRoundData, id: PlayerId, cash: nat): (res: Result<BankerTargetRoundData, GameError>)
    requires PaymentReached(r, id, cash) ==> PaymentDoesNotPanic(r.players[id], cash, r.selectedCards)
    ensures res.Ok? ==> PaymentReached(r, id, cash)
    ensures BankerPosition(r.players).None? ==> res == Err(PayBankerErr(NoBankerPlayer))
    ensures BankerPosition(r.players).Some? && !Disjoint(r.players, id, r.players[BankerPosition(r.players).value].id) ==>
      res == Err(PayBankerErr(NoBankerPlayer))
    ensures (BankerPosition(r.players).Some? && Disjoint(r.players, id, r.players[BankerPosition(r.players).value].id)
             && cash != r.goldToBePaid) ==>
      res == Err(PayBankerErr(NotRightCashAmount(r.goldToBePaid, cash)))
    ensures PaymentReached(r, id, cash) ==>
      (res.Ok? <==> r.players[id].cash + Raised(r.selectedCards) >= cash)
    ensures res.Ok? ==>
      var b := r.players[BankerPosition(r.players).value].id;
      && |res.value.players| == |r.players|
      && res.value == r.(players := res.value.players)
      && res.value.players[b] == r.players[b].(cash := r.players[b].cash + cash)
      && res.value.players[id].cash + cash == r.players[id].cash + Raised(r.selectedCards)
      && (forall i :: 0 <= i < |r.players| && i != id && i != b ==> res.value.players[i] == r.players[i])
  {
    match BankerPosition(r.players)
    case None => Err(PayBankerErr(NoBankerPlayer))
    case Some(k) =>
      var b := r.players[k].id;
      if !Disjoint(r.players, id, b) then Err(PayBankerErr(NoBankerPlayer))
      else if cash != r.goldToBePaid then Err(PayBankerErr(NotRightCashAmount(r.goldToBePaid, cash)))
      else
        match PaidBanker(r.players[id], cash, r.selectedCards, r.players[b])
        case Err(e) => Err(PayBankerErr(e))
        case Ok((payer, banker)) => Ok(r.(players := r.players[id := payer][b := banker]))
  }

  /** Paying moves the owed gold from the target's means to the banker; the players' cash grows by what the sold cards raise. */
  lemma PaymentConservesCashInRound(r: BankerTargetRoundData, id: PlayerId, cash: nat)
    requires PaymentReached(r, id, cash) ==> PaymentDoesNotPanic(r.players[id], cash, r.selectedCards)
    requires PaidBankerInRound(r, id, cash).Ok?
    ensures var b := r.players[BankerPosition(r.players).value].id;
      var q := PaidBankerInRound(r, id, cash).value;
      q.players[id].cash + q.players[b].cash == r.players[id].cash + r.players[b].cash + Raised(r.selectedCards)
  {
  }

  // ---------------------------------------------------------------- the class

  class BankerTargetRound {
    const currentPlayer: PlayerId
    var players: seq<BankerTargetPlayerData>
    const assets: Deck<Asset>
    const liabilities: Deck<Liability>
    const markets: Deck<MarketCard>
    const chairman: PlayerId
    const currentMarket: Market
    const currentEvents: seq<Event>
    const openCharacters: seq<Character>
    const firedCharacters: seq<Character>
    const goldToBePaid: nat
    const canPayBanker: bool
    var selectedCards: Selections
    const isFinalRound: bool

    /** `BankerTargetRound::from(&mut round)`: the decks are copies of the round's. */
    constructor FromRound(round: Round)
      requires round.currentPlayer < |round.players|
      ensures fresh(assets) && fresh(liabilities) && fresh(markets)
      ensures Data() == EnteredFromRound(round.Data())
    {
      var d := EnteredFromRound(round.Data());
      currentPlayer, players := d.currentPlayer, d.players;
      assets := new Deck<Asset>.FromData(d.assets);
      liabilities := new Deck<Liability>.FromData(d.liabilities);
      markets := new Deck<MarketCard>.FromData(d.markets);
      chairman, currentMarket, currentEvents := d.chairman, d.currentMarket, d.currentEvents;
      openCharacters, firedCharacters := d.openCharacters, d.firedCharacters;
      goldToBePaid, canPayBanker, selectedCards, isFinalRound := d.goldToBePaid, d.canPayBanker, d.selectedCards, d.isFinalRound;
    }

    function Data(): BankerTargetRoundData
      reads this, assets, liabilities, markets
    {
      BankerTargetRoundData(currentPlayer, players, assets.Data(), liabilities.Data(), markets.Data(), chairman,
                            currentMarket, currentEvents, openCharacters, firedCharacters, goldToBePaid,
                            canPayBanker, selectedCards, isFinalRound)
    }

    ghost predicate Valid()
      reads this, assets, liabilities, markets
    {
      TargetRoundInv(Data())
    }

    /** `player_select_divest_asset`: stores the new choices and returns them. */
    method PlayerSelectDivestAsset(id: PlayerId, assetIdx: nat) returns (res: Result<Selections, GameError>)
      requires Valid()
      modifies this`selectedCards
      ensures Valid()
      ensures Settled(SelectedDivestAssetInRound(old(Data()), id, assetIdx), res, old(Data()), Data())
    {
      ChoicesKeepTargetRoundInv(Data(), id, assetIdx);
      if id >= |players| {
        return Err(InvalidPlayerIndex(id));
      }
      if players[id].id != currentPlayer {
        return Err(NotPlayersTurn);
      }
      match SelectedDivestAsset(players[id], assetIdx, currentMarket, selectedCards.assets) {
        case Err(e) =>
          res := Err(BankerTargetSelectErr(e));
        case Ok((_, chosen)) =>
          selectedCards := selectedCards.(assets := chosen);
          res := Ok(selectedCards);
      }
    }

    /** `player_unselect_divest_asset` */
    method PlayerUnselectDivestAsset(id: PlayerId, assetIdx: nat) returns (res: Result<Selections, GameError>)
      requires Valid()
      modifies this`selectedCards
      ensures Valid()
      ensures Settled(UnselectedDivestAssetInRound(old(Data()), id, assetIdx), res, old(Data()), Data())
    {
      ChoicesKeepTargetRoundInv(Data(), id, assetIdx);
      if id >= |players| {
        return Err(InvalidPlayerIndex(id));
      }
      if players[id].id != currentPlayer {
        return Err(NotPlayersTurn);
      }
      match UnselectedDivestAsset(players[id], assetIdx, selectedCards.assets) {
        case Err(e) =>
          res := Err(BankerTargetSelectErr(e));
        case Ok((_, chosen)) =>
          selectedCards := selectedCards.(assets := chosen);
          res := Ok(selectedCards);
      }
    }

    /** `player_select_issue_liability` */
    method PlayerSelectIssueLiability(id: PlayerId, cardIdx: nat) returns (res: Result<Selections, GameError>)
      requires Valid()
      modifies this`selectedCards
      ensures Valid()
      ensures Settled(SelectedIssueLiabilityInRound(old(Data()), id, cardIdx), res, old(Data()), Data())
    {
      ChoicesKeepTargetRoundInv(Data(), id, cardIdx);
      if id >= |players| {
        return Err(InvalidPlayerIndex(id));
      }
      if players[id].id != currentPlayer {
        return Err(NotPlayersTurn);
      }
      match SelectedIssueLiability(players[id], cardIdx, selectedCards.liabilities) {
        case Err(e) =>
          res := Err(BankerTargetSelectErr(e));
        case Ok((_, chosen)) =>
          selectedCards := selectedCards.(liabilities := chosen);
          res := Ok(selectedCards);
      }
    }

    /** `player_unselect_issue_liability` */
    method PlayerUnselectIssueLiability(id: PlayerId, cardIdx: nat) returns (res: Result<Selections, GameError>)
      requires Valid()
      modifies this`selectedCards
      ensures Valid()
      ensures Settled(UnselectedIssueLiabilityInRound(old(Data()), id, cardIdx), res, old(Data()), Data())
    {
      ChoicesKeepTargetRoundInv(Data(), id, cardIdx);
      if id >= |players| {
        return Err(InvalidPlayerIndex(id));
      }
      if players[id].id != currentPlayer {
        return Err(NotPlayersTurn);
      }
      match UnselectedIssueLiability(players[id], cardIdx, selectedCards.liabilities) {
        case Err(e) =>
          res := Err(BankerTargetSelectErr(e));
        case Ok((_, chosen)) =>
          selectedCards := selectedCards.(liabilities := chosen);
          res := Ok(selectedCards);
      }
    }

    /**
     * `player_pay_banker`: payer and banker are updated as `pay_banker`
     * leaves them, and the report of the payment is returned.
     */
    method PlayerPayBanker(id: PlayerId, cash: nat) returns (res: Result<PayBankerPlayer, GameError>)
      requires PaymentReached(Data(), id, cash) ==> PaymentDoesNotPanic(players[id], cash, selectedCards)
      modifies this`players
      ensures match PaidBankerInRound(old(Data()), id, cash)
        case Ok(d) =>
          && Data() == d && res.Ok?
          && res.value.paidAmount == cash && res.value.targetId == old(players[id].id)
          && res.value.newTargetCash == players[id].cash
          && Reports(res.value.selectedCards, selectedCards, old(players[id].hand))
        case Err(e) => res == Err(e) && Data() == old(Data())
    {
      var k := BankerPosition(players);
      if k.None? {
        return Err(PayBankerErr(NoBankerPlayer));
      }
      var b := players[k.value].id;
      if !(id < |players| && b < |players| && id != b) {
        return Err(PayBankerErr(NoBankerPlayer));
      }
      if cash != goldToBePaid {
        return Err(PayBankerErr(NotRightCashAmount(goldToBePaid, cash)));
      }
      var payer := new BankerTargetPlayer.FromData(players[id]);
      var banker := new BankerTargetPlayer.FromData(players[b]);
      var r := payer.PayBanker(cash, selectedCards, banker);
      match r {
        case Err(e) =>
          res := Err(PayBankerErr(e));
        case Ok(report) =>
          players := players[id := payer.Data()][b := banker.Data()];
          res := Ok(report);
      }
    }
  }
}
