// The lobby (game/src/game/lobby.rs): players join under a unique name and
// may leave again, which renumbers the others so that ids stay positions.
// With four to seven players the game starts: each player is dealt two
// assets and then two liabilities and one coin, the first market of the
// market deck becomes the current market, and player 0 chairs the first
// draft. The decks are inputs here; reading them from a file is not modelled.
module Lobbies {
  import opened Wrappers
  import opened Vocabulary
  import opened Errors
  import opened Sequences
  import opened Decks
  import opened PlayerRecords
  import opened LobbyPlayers
  import opened SelectingPlayers
  import opened PlayerRules
  import opened Draft
  import opened RoundRules
  import opened SelectingPhase

  /** `STARTING_GOLD`: the cash every player starts with. */
  const STARTING_GOLD: nat := 1

  /** Every player's id is its position (as a `u8`) and no name occurs twice. */
  ghost predicate LobbyInv(l: seq<LobbyPlayerData>)
  {
    && (forall i :: 0 <= i < |l| ==> l[i].id == AsU8(i))
    && (forall i, j :: 0 <= i < j < |l| ==> l[i].name != l[j].name)
  }

  // ---------------------------------------------------------------- queries

  /** `usernames`: the names in list order. */
  function Usernames(l: seq<LobbyPlayerData>): (r: seq<string>)
    ensures |r| == |l| && forall i :: 0 <= i < |l| ==> r[i] == l[i].name
  {
    seq(|l|, i requires 0 <= i < |l| => l[i].name)
  }

  /** `can_start`: four to seven players. */
  predicate CanStart(l: seq<LobbyPlayerData>)
  {
    4 <= |l| <= 7
  }

  /** `player_info`: the public view of every player but `id`, in order. */
  function LobbyOthersInfo(l: seq<LobbyPlayerData>, id: PlayerId): (r: seq<PlayerInfo>)
    ensures |r| <= |l|
  {
    FilterMap(l, (p: LobbyPlayerData) => p.id != id, LobbyInfo)
  }

  /** In a well-formed lobby of at most 256 players, the others' views are those of the list without `id`. */
  lemma LobbyOthersInfoSkipsSelf(l: seq<LobbyPlayerData>, id: PlayerId)
    requires LobbyInv(l) && id < |l| <= 256
    ensures |LobbyOthersInfo(l, id)| == |l| - 1
    ensures forall k :: 0 <= k < |l| - 1 ==> LobbyOthersInfo(l, id)[k] == LobbyInfo(RemoveAt(l, id)[k])
  {
    FilterMapAllButOne(l, (p: LobbyPlayerData) => p.id != id, LobbyInfo, id);
  }

  // ---------------------------------------------------------- join and leave

  /** Whether some player already has this name. */
  predicate NameTaken(l: seq<LobbyPlayerData>, name: string)
  {
    exists i :: 0 <= i < |l| && l[i].name == name
  }

  /**
   * `join`: a taken name is refused; otherwise a player with the next id
   * is appended and returned.
   */
  function Joined(l: seq<LobbyPlayerData>, name: string, isHuman: bool): (r: Result<(seq<LobbyPlayerData>, LobbyPlayerData), LobbyError>)
    ensures r.Err? <==> NameTaken(l, name)
    ensures r.Err? ==> r.error == UsernameAlreadyTaken(name)
    ensures r.Ok? ==> var (m, p) := r.value;
      && p == LobbyPlayerData(AsU8(|l|), name, isHuman)
      && |m| == |l| + 1 && m[..|l|] == l && m[|l|] == p
  {
    match FindIndex(l, (p: LobbyPlayerData) => p.name == name)
    case Some(_) => Err(UsernameAlreadyTaken(name))
    case None =>
      var p := LobbyPlayerData(AsU8(|l|), name, isHuman);
      Ok((l + [p], p))
  }

  /** Ids `0, 1, ...` by position, as `zip(0u8..)` hands them out. */
  function Renumbered(l: seq<LobbyPlayerData>): (r: seq<LobbyPlayerData>)
    ensures |r| == |l| && forall i :: 0 <= i < |l| ==> r[i] == l[i].(id := AsU8(i))
  {
    seq(|l|, i requires 0 <= i < |l| => l[i].(id := AsU8(i)))
  }

  /**
   * `leave`: the player with this name is removed and the others are
   * renumbered; an unknown name changes nothing and gives false.
   */
  function LeftLobby(l: seq<LobbyPlayerData>, name: string): (r: (seq<LobbyPlayerData>, bool))
  {
    match FindIndex(l, (p: LobbyPlayerData) => p.name == name)
    case None => (l, false)
    case Some(pos) => (Renumbered(RemoveAt(l, pos)), true)
  }

  /** Joining keeps ids positions and names unique. */
  lemma JoinKeepsLobbyInv(l: seq<LobbyPlayerData>, name: string, isHuman: bool)
    requires LobbyInv(l) && Joined(l, name, isHuman).Ok?
    ensures LobbyInv(Joined(l, name, isHuman).value.0)
  {
    var m := Joined(l, name, isHuman).value.0;
    forall i, j | 0 <= i < j < |m|
      ensures m[i].name != m[j].name
    {
      if j == |l| {
        assert l[i].name != name;
      }
    }
  }

  /**
   * Leaving succeeds exactly for a present name and then removes that
   * player only: the others keep their order, names and humanity and get
   * their new positions as ids.
   */
  lemma LeaveRemovesThatPlayer(l: seq<LobbyPlayerData>, name: string) returns (pos: nat)
    requires LobbyInv(l)
    ensures var (m, left) := LeftLobby(l, name);
      && (left <==> NameTaken(l, name))
      && (!left ==> m == l)
      && (left ==> && pos < |l| && l[pos].name == name && |m| == |l| - 1
                   && forall i :: 0 <= i < |m| ==>
                        m[i] == (if i < pos then l[i] else l[i + 1]).(id := AsU8(i)))
  {
    pos := 0;
    match FindIndex(l, (p: LobbyPlayerData) => p.name == name)
    case None =>
    case Some(k) =>
      pos := k;
  }

  /** Leaving keeps ids positions and names unique, and the name is gone afterwards. */
  lemma LeaveKeepsLobbyInv(l: seq<LobbyPlayerData>, name: string)
    requires LobbyInv(l)
    ensures LobbyInv(LeftLobby(l, name).0)
    ensures LeftLobby(l, name).1 ==> !NameTaken(LeftLobby(l, name).0, name)
  {
    var pos := LeaveRemovesThatPlayer(l, name);
    var (m, left) := LeftLobby(l, name);
    if left {
      forall i | 0 <= i < |m|
        ensures m[i].name != name
      {
        var a := if i < pos then i else i + 1;
        assert m[i].name == l[a].name;
      }
      forall i, j | 0 <= i < j < |m|
        ensures m[i].name != m[j].name
      {
        var a := if i < pos then i else i + 1;
        var b := if j < pos then j else j + 1;
        assert m[i].name == l[a].name && m[j].name == l[b].name;
      }
    }
  }

  // -------------------------------------------------------- starting a game

  /** The two assets and two liabilities one player is dealt, and the piles left. */
  function DealtOne(a: seq<Asset>, aBackup: seq<Asset>, b: seq<Liability>, bBackup: seq<Liability>): (r: (seq<Asset>, seq<Liability>, seq<Asset>, seq<Liability>))
    requires aBackup != [] && bBackup != []
    ensures |r.0| == 2 && |r.1| == 2
  {
    var a1 := Drawn(a, aBackup);
    var a2 := Drawn(a1.1, aBackup);
    var l1 := Drawn(b, bBackup);
    var l2 := Drawn(l1.1, bBackup);
    ([a1.0, a2.0], [l1.0, l2.0], a2.1, l2.1)
  }

  /** From piles of at least two cards, a player is dealt the top two of each. */
  lemma DealtOneTakesTop(a: seq<Asset>, aBackup: seq<Asset>, b: seq<Liability>, bBackup: seq<Liability>)
    requires aBackup != [] && bBackup != [] && |a| >= 2 && |b| >= 2
    ensures DealtOne(a, aBackup, b, bBackup) == ([a[|a| - 1], a[|a| - 2]], [b[|b| - 1], b[|b| - 2]], a[..|a| - 2], b[..|b| - 2])
  {
    assert a[..|a| - 1][..|a| - 2] == a[..|a| - 2];
    assert b[..|b| - 1][..|b| - 2] == b[..|b| - 2];
  }

  /** The asset and liability decks after `n` players were dealt two of each. */
  function DecksAfter(assets: DeckData<Asset>, liabilities: DeckData<Liability>, n: nat): (r: (DeckData<Asset>, DeckData<Liability>))
    requires assets.backup != [] && liabilities.backup != []
    ensures r.0.backup == assets.backup && r.0.imageBackUrl == assets.imageBackUrl
    ensures r.1.backup == liabilities.backup && r.1.imageBackUrl == liabilities.imageBackUrl
  {
    if n == 0 then (assets, liabilities)
    else
      var prev := DecksAfter(assets, liabilities, n - 1);
      var one := DealtOne(prev.0.deck, prev.0.backup, prev.1.deck, prev.1.backup);
      (prev.0.(deck := one.2), prev.1.(deck := one.3))
  }

  /** What the player dealt after `n` others receives: `DealtOne` on the decks those `n` deals left. */
  function CardsDealt(assets: DeckData<Asset>, liabilities: DeckData<Liability>, n: nat): (r: (seq<Asset>, seq<Liability>, seq<Asset>, seq<Liability>))
    requires assets.backup != [] && liabilities.backup != []
    ensures |r.0| == 2 && |r.1| == 2
  {
    var prev := DecksAfter(assets, liabilities, n);
    DealtOne(prev.0.deck, prev.0.backup, prev.1.deck, prev.1.backup)
  }

  /** The picker lobby player `p` becomes when it is dealt `one`, with the starting gold. */
  function DealtPlayer(p: LobbyPlayerData, one: (seq<Asset>, seq<Liability>, seq<Asset>, seq<Liability>)): (r: SelectingPlayerData)
    requires |one.0| == 2 && |one.1| == 2
    ensures DealtPlayerOk(r, p)
  {
    NewSelectingPlayer(p.name, p.id, one.0, one.1, STARTING_GOLD, p.isHuman)
  }

  /** The players dealt so far and the decks left. */
  type Dealing = (seq<SelectingPlayerData>, DeckData<Asset>, DeckData<Liability>)

  /**
   * `init_players`: the players in order, player i dealt two assets and
   * then two liabilities from the decks the first i deals left, with the
   * starting gold; and the decks left after all of them.
   */
  function Dealt(l: seq<LobbyPlayerData>, assets: DeckData<Asset>, liabilities: DeckData<Liability>): (r: Dealing)
    requires assets.backup != [] && liabilities.backup != []
    ensures |r.0| == |l|
    ensures r.1.backup == assets.backup && r.1.imageBackUrl == assets.imageBackUrl
    ensures r.2.backup == liabilities.backup && r.2.imageBackUrl == liabilities.imageBackUrl
  {
    var decks := DecksAfter(assets, liabilities, |l|);
    (seq(|l|, i requires 0 <= i < |l| => DealtPlayer(l[i], CardsDealt(assets, liabilities, i))), decks.0, decks.1)
  }

  /** Dealing to more players leaves the players dealt before as they were. */
  lemma DealtKeepsEarlier(l: seq<LobbyPlayerData>, assets: DeckData<Asset>, liabilities: DeckData<Liability>, k: nat)
    requires assets.backup != [] && liabilities.backup != [] && k <= |l|
    ensures Dealt(l, assets, liabilities).0[..k] == Dealt(l[..k], assets, liabilities).0
  {
    var ps, qs := Dealt(l, assets, liabilities).0, Dealt(l[..k], assets, liabilities).0;
    forall i | 0 <= i < k
      ensures ps[..k][i] == qs[i]
    {
      assert l[..k][i] == l[i];
    }
  }

  /** Dealing to one player more appends the player dealt after the first `i`. */
  lemma DealtOneMore(l: seq<LobbyPlayerData>, assets: DeckData<Asset>, liabilities: DeckData<Liability>, i: nat)
    requires assets.backup != [] && liabilities.backup != [] && i < |l|
    ensures Dealt(l[..i + 1], assets, liabilities).0 == Dealt(l[..i], assets, liabilities).0 + [DealtPlayer(l[i], CardsDealt(assets, liabilities, i))]
  {
    var ps, qs := Dealt(l[..i + 1], assets, liabilities).0, Dealt(l[..i], assets, liabilities).0;
    forall k | 0 <= k < i
      ensures ps[k] == qs[k]
    {
      assert l[..i + 1][k] == l[..i][k];
    }
    assert l[..i + 1][i] == l[i];
  }

  /**
   * Every dealt player keeps its lobby id, name and humanity, has the
   * starting gold, no character and nothing owned, and holds two assets
   * followed by two liabilities.
   */
  lemma DealtPlayers(l: seq<LobbyPlayerData>, assets: DeckData<Asset>, liabilities: DeckData<Liability>)
    requires assets.backup != [] && liabilities.backup != []
    ensures forall i :: 0 <= i < |l| ==> DealtPlayerOk(Dealt(l, assets, liabilities).0[i], l[i])
  {
  }

  /** A freshly dealt player, as `init_players` makes it from lobby player `q`. */
  predicate DealtPlayerOk(p: SelectingPlayerData, q: LobbyPlayerData)
  {
    && p.id == q.id && p.name == q.name && p.isHuman == q.isHuman
    && p.cash == STARTING_GOLD && p.character.None?
    && p.assets == [] && p.liabilities == []
    && HandKinds(p.hand) == [AssetCard, AssetCard, LiabilityCard, LiabilityCard]
  }

  /** A prefix of a prefix is the shorter prefix. */
  lemma PrefixOfPrefix<T>(s: seq<T>, i: nat, j: nat)
    requires j <= i <= |s|
    ensures s[..i][..j] == s[..j]
  {
  }

  /** With enough cards, `n` deals take exactly the top 2n cards of each deck. */
  lemma {:induction false} DecksAfterTakesTop(assets: DeckData<Asset>, liabilities: DeckData<Liability>, n: nat)
    requires assets.backup != [] && liabilities.backup != []
    requires |assets.deck| >= 2 * n && |liabilities.deck| >= 2 * n
    ensures DecksAfter(assets, liabilities, n).0.deck == assets.deck[..|assets.deck| - 2 * n]
    ensures DecksAfter(assets, liabilities, n).1.deck == liabilities.deck[..|liabilities.deck| - 2 * n]
  {
    var A, B := assets.deck, liabilities.deck;
    if n == 0 {
      assert A[..|A| - 0] == A && B[..|B| - 0] == B;
    } else {
      var prev := DecksAfter(assets, liabilities, n - 1);
      DecksAfterTakesTop(assets, liabilities, n - 1);
      DealtOneTakesTop(prev.0.deck, prev.0.backup, prev.1.deck, prev.1.backup);
      PrefixOfPrefix(A, |A| - 2 * (n - 1), |A| - 2 * n);
      PrefixOfPrefix(B, |B| - 2 * (n - 1), |B| - 2 * n);
    }
  }

  /** The hand of the player dealt `i`-th from full piles: the (2i)-th and (2i+1)-th cards from the top of each. */
  function DealtHand(a: seq<Asset>, b: seq<Liability>, i: nat): (hand: seq<Card>)
    requires 2 * i + 2 <= |a| && 2 * i + 2 <= |b|
  {
    [Left(a[|a| - 1 - 2 * i]), Left(a[|a| - 2 - 2 * i]), Right(b[|b| - 1 - 2 * i]), Right(b[|b| - 2 - 2 * i])]
  }

  /**
   * With enough cards in the piles, dealing to n players takes the top 2n
   * cards of each.
   */
  lemma DealtTakesTop(l: seq<LobbyPlayerData>, assets: DeckData<Asset>, liabilities: DeckData<Liability>)
    requires assets.backup != [] && liabilities.backup != []
    requires |assets.deck| >= 2 * |l| && |liabilities.deck| >= 2 * |l|
    ensures Dealt(l, assets, liabilities).1.deck == assets.deck[..|assets.deck| - 2 * |l|]
    ensures Dealt(l, assets, liabilities).2.deck == liabilities.deck[..|liabilities.deck| - 2 * |l|]
  {
    DecksAfterTakesTop(assets, liabilities, |l|);
  }

  /** Player i of the dealt ones holds the 2i-th and (2i+1)-th cards from the top of either pile. */
  lemma DealtHandAt(l: seq<LobbyPlayerData>, assets: DeckData<Asset>, liabilities: DeckData<Liability>, i: nat)
    requires assets.backup != [] && liabilities.backup != []
    requires |assets.deck| >= 2 * |l| && |liabilities.deck| >= 2 * |l|
    requires i < |l|
    ensures Dealt(l, assets, liabilities).0[i].hand == DealtHand(assets.deck, liabilities.deck, i)
  {
    var prev := DecksAfter(assets, liabilities, i);
    DecksAfterTakesTop(assets, liabilities, i);
    DealtOneTakesTop(prev.0.deck, prev.0.backup, prev.1.deck, prev.1.backup);
    var A, B := assets.deck, liabilities.deck;
    var a, b := prev.0.deck, prev.1.deck;
    assert a[|a| - 1] == A[|A| - 1 - 2 * i] && a[|a| - 2] == A[|A| - 2 - 2 * i];
    assert b[|b| - 1] == B[|B| - 1 - 2 * i] && b[|b| - 2] == B[|B| - 2 - 2 * i];
  }

  /** `Vec::swap_remove(i)`: the last element takes the place of the one removed. */
  function SwapRemove<T>(s: seq<T>, i: nat): (r: seq<T>)
    requires i < |s|
    ensures |r| == |s| - 1
    ensures forall j :: 0 <= j < |r| && j != i ==> r[j] == s[j]
    ensures i < |r| ==> r[i] == s[|s| - 1]
    ensures multiset(r) + multiset{s[i]} == multiset(s)
  {
    if i == |s| - 1 then
      assert s == s[..i] + [s[i]];
      s[..i]
    else
      assert s == s[..i] + [s[i]] + s[i + 1..|s| - 1] + [s[|s| - 1]];
      s[..i] + [s[|s| - 1]] + s[i + 1..|s| - 1]
  }

  /** `initial_market`: takes the first market out of the market deck, if there is one. */
  function InitialMarket(markets: DeckData<MarketCard>): (r: (Option<Market>, DeckData<MarketCard>))
    ensures r.0.None? <==> forall k :: 0 <= k < |markets.deck| ==> markets.deck[k].Right?
    ensures r.0.None? ==> r.1 == markets
    ensures r.1.backup == markets.backup && r.1.imageBackUrl == markets.imageBackUrl
  {
    match FindIndex(markets.deck, (c: MarketCard) => c.Left?)
    case None => (None, markets)
    case Some(pos) => (Some(markets.deck[pos].left), markets.(deck := SwapRemove(markets.deck, pos)))
  }

  /** The market taken is the first market card, and exactly that card leaves the deck. */
  lemma InitialMarketIsFirst(markets: DeckData<MarketCard>) returns (pos: nat)
    requires InitialMarket(markets).0.Some?
    ensures pos < |markets.deck| && markets.deck[pos] == Left(InitialMarket(markets).0.value)
    ensures forall k :: 0 <= k < pos ==> markets.deck[k].Right?
    ensures multiset(InitialMarket(markets).1.deck) + multiset{markets.deck[pos]} == multiset(markets.deck)
  {
    pos := FindIndex(markets.deck, (c: MarketCard) => c.Left?).value;
  }

  /** `sort_by_key(|p| p.id())` leaves a list that is already in id order as it is. */
  predicate InIdOrder(l: seq<LobbyPlayerData>)
  {
    forall i, j :: 0 <= i < j < |l| ==> l[i].id <= l[j].id
  }

  /**
   * `start_game`: with four to seven players, deals the hands, takes the
   * first market (or the default one), and opens the first draft with
   * player 0 as chairman; otherwise `InvalidPlayerCount`.
   */
  function StartedGame(l: seq<LobbyPlayerData>, assets: DeckData<Asset>, liabilities: DeckData<Liability>, markets: DeckData<MarketCard>): (res: Result<SelectingData, GameError>)
    requires InIdOrder(l)
    requires assets.backup != [] && liabilities.backup != []
    ensures !CanStart(l) ==> res == Err(InvalidPlayerCount(AsU8(|l|)))
  {
    if !CanStart(l) then Err(InvalidPlayerCount(AsU8(|l|)))
    else
      var d := Dealt(l, assets, liabilities);
      var im := InitialMarket(markets);
      var current := if im.0.Some? then im.0.value else DEFAULT_MARKET;
      var chairman := d.0[0].id;
      match NewDraft(|d.0|, chairman)
      case Err(e) => Err(e)
      case Ok(draft) => Ok(SelectingData(d.0, draft, d.1, d.2, im.1, chairman, current, []))
  }

  /** A game that can start is built from the dealt players, the fresh draft and the initial market. */
  lemma StartedGameUnfold(l: seq<LobbyPlayerData>, assets: DeckData<Asset>, liabilities: DeckData<Liability>, markets: DeckData<MarketCard>)
    requires InIdOrder(l) && CanStart(l)
    requires assets.backup != [] && liabilities.backup != []
    ensures var d := Dealt(l, assets, liabilities); var im := InitialMarket(markets);
      && NewDraft(|d.0|, d.0[0].id).Ok?
      && StartedGame(l, assets, liabilities, markets)
         == Ok(SelectingData(d.0, NewDraft(|d.0|, d.0[0].id).value, d.1, d.2, im.1, d.0[0].id,
                             if im.0.Some? then im.0.value else DEFAULT_MARKET, []))
  {
  }

  /** A well-formed lobby of at most 256 players is in id order. */
  lemma LobbyInIdOrder(l: seq<LobbyPlayerData>)
    requires LobbyInv(l) && |l| <= 256
    ensures InIdOrder(l)
  {
  }

  /** A game that starts opens a well-formed draft phase. */
  lemma StartedGameInv(l: seq<LobbyPlayerData>, assets: DeckData<Asset>, liabilities: DeckData<Liability>, markets: DeckData<MarketCard>)
    requires LobbyInv(l) && InIdOrder(l)
    requires assets.backup != [] && liabilities.backup != [] && HasMarket(markets.backup)
    ensures StartedGame(l, assets, liabilities, markets).Ok? ==> SelectingInv(StartedGame(l, assets, liabilities, markets).value)
  {
    if CanStart(l) {
      DealtPlayers(l, assets, liabilities);
      var s := StartedGame(l, assets, liabilities, markets).value;
      assert s.players[0].id == 0;
      EnteredSelectingInv(s);
    }
  }

  /**
   * The game starts exactly with four to seven players, and then the draft
   * phase is well formed: player 0 chairs it, every player has one coin,
   * two assets and two liabilities in hand and no character, nobody has
   * picked, and no event has happened yet.
   */
  lemma StartGameOutcome(l: seq<LobbyPlayerData>, assets: DeckData<Asset>, liabilities: DeckData<Liability>, markets: DeckData<MarketCard>)
    requires LobbyInv(l) && InIdOrder(l)
    requires assets.backup != [] && liabilities.backup != [] && HasMarket(markets.backup)
    ensures StartedGame(l, assets, liabilities, markets).Ok? <==> 4 <= |l| <= 7
    ensures StartedGame(l, assets, liabilities, markets).Ok? ==> var s := StartedGame(l, assets, liabilities, markets).value;
      && SelectingInv(s)
      && s.chairman == 0 && s.draft.drawIdx == 0 && s.currentEvents == []
      && Usernames(l) == seq(|s.players|, i requires 0 <= i < |s.players| => s.players[i].name)
      && (forall i :: 0 <= i < |s.players| ==> s.players[i].cash == STARTING_GOLD && |s.players[i].hand| == 4)
      && (InitialMarket(markets).0.Some? ==> s.currentMarket == InitialMarket(markets).0.value)
      && (InitialMarket(markets).0.None? ==> s.currentMarket == DEFAULT_MARKET)
  {
    if CanStart(l) {
      DealtPlayers(l, assets, liabilities);
      var s := StartedGame(l, assets, liabilities, markets).value;
      assert s.players[0].id == 0;
      EnteredSelectingInv(s);
    }
  }

  // ---------------------------------------------------------------- the class

  class Lobby {
    var players: seq<LobbyPlayerData>

    /** `Lobby::new`: nobody has joined. */
    constructor ()
      ensures players == [] && Valid()
    {
      players := [];
    }

    /** A lobby holding these players. */
    constructor FromData(l: seq<LobbyPlayerData>)
      ensures players == l
    {
      players := l;
    }

    ghost predicate Valid()
      reads this
    {
      LobbyInv(players)
    }

    /** `join`: the new player is returned. */
    method Join(name: string, isHuman: bool) returns (res: Result<LobbyPlayerData, LobbyError>)
      requires Valid()
      modifies this
      ensures Valid()
      ensures Settled(Joined(old(players), name, isHuman), res, old(players), players)
    {
      var taken := FindIndex(players, (p: LobbyPlayerData) => p.name == name);
      if taken.Some? {
        return Err(UsernameAlreadyTaken(name));
      }
      JoinKeepsLobbyInv(players, name, isHuman);
      var p := new LobbyPlayer(AsU8(|players|), name, isHuman);
      players := players + [p.Data()];
      return Ok(p.Data());
    }

    /** `leave`: removes the named player, then hands out the ids again in a loop. */
    method Leave(name: string) returns (left: bool)
      requires Valid()
      modifies this
      ensures Valid()
      ensures (players, left) == LeftLobby(old(players), name)
    {
      LeaveKeepsLobbyInv(players, name);
      var pos := FindIndex(players, (p: LobbyPlayerData) => p.name == name);
      if pos.None? {
        return false;
      }
      ghost var removed := RemoveAt(players, pos.value);
      players := RemoveAt(players, pos.value);
      for i := 0 to |players|
        invariant |players| == |removed|
        invariant forall k :: 0 <= k < i ==> players[k] == removed[k].(id := AsU8(k))
        invariant forall k :: i <= k < |players| ==> players[k] == removed[k]
      {
        players := players[i := players[i].(id := AsU8(i))];
      }
      assert players == Renumbered(removed);
      return true;
    }

    /**
     * `start_game`: deals from the given decks, takes the first market and
     * returns the draft phase, which takes the decks over.
     */
    method StartGame(assets: Deck<Asset>, liabilities: Deck<Liability>, markets: Deck<MarketCard>) returns (res: Result<SelectingCharacters, GameError>)
      requires Valid() && |players| <= 256
      requires assets.backup != [] && liabilities.backup != [] && HasMarket(markets.backup)
      modifies assets, liabilities, markets
      ensures players == old(players)
      ensures InIdOrder(players)
      ensures StartedGame(players, old(assets.Data()), old(liabilities.Data()), old(markets.Data())).Err? ==>
        res == Err(StartedGame(players, old(assets.Data()), old(liabilities.Data()), old(markets.Data())).error)
      ensures StartedGame(players, old(assets.Data()), old(liabilities.Data()), old(markets.Data())).Ok? ==>
        && res.Ok? && fresh(res.value) && res.value.Valid()
        && res.value.Data() == StartedGame(players, old(assets.Data()), old(liabilities.Data()), old(markets.Data())).value
    {
      LobbyInIdOrder(players);
      StartedGameInv(players, assets.Data(), liabilities.Data(), markets.Data());
      if !CanStart(players) {
        return Err(InvalidPlayerCount(AsU8(|players|)));
      }
      ghost var a0, b0, m0 := assets.Data(), liabilities.Data(), markets.Data();
      StartedGameUnfold(players, a0, b0, m0);
      var dealt := DealPlayers(players, assets, liabilities);
      var market := TakeInitialMarket(markets);
      var current := if market.Some? then market.value else DEFAULT_MARKET;
      var chairman := dealt[0].id;
      var draft := ObtainingCharacters.New(|dealt|, chairman);
      var s := SelectingData(dealt, draft.value.Data(), assets.Data(), liabilities.Data(), markets.Data(),
                             chairman, current, []);
      var phase := new SelectingCharacters.FromData(s);
      return Ok(phase);
    }

    /** `init_players`: deals to every player in turn, drawing from the two decks. */
    static method DealPlayers(l: seq<LobbyPlayerData>, assets: Deck<Asset>, liabilities: Deck<Liability>) returns (dealt: seq<SelectingPlayerData>)
      requires assets.backup != [] && liabilities.backup != []
      modifies assets`deck, liabilities`deck
      ensures (dealt, assets.Data(), liabilities.Data()) == Dealt(l, old(assets.Data()), old(liabilities.Data()))
    {
      ghost var a0, b0 := assets.Data(), liabilities.Data();
      dealt := [];
      for i := 0 to |l|
        invariant assets.backup == a0.backup && liabilities.backup == b0.backup
        invariant (assets.Data(), liabilities.Data()) == DecksAfter(a0, b0, i)
        invariant dealt == Dealt(l[..i], a0, b0).0
      {
        ghost var one := CardsDealt(a0, b0, i);
        var twoAssets, twoLiabilities := DealOne(assets, liabilities);
        assert (twoAssets, twoLiabilities, assets.deck, liabilities.deck) == one;
        var p := NewSelectingPlayer(l[i].name, l[i].id, twoAssets, twoLiabilities, STARTING_GOLD, l[i].isHuman);
        DealtOneMore(l, a0, b0, i);
        dealt := dealt + [p];
      }
      assert l[..|l|] == l;
    }

    /** The four draws for one player: two assets, then two liabilities. */
    static method DealOne(assets: Deck<Asset>, liabilities: Deck<Liability>) returns (twoAssets: seq<Asset>, twoLiabilities: seq<Liability>)
      requires assets.backup != [] && liabilities.backup != []
      modifies assets`deck, liabilities`deck
      ensures (twoAssets, twoLiabilities, assets.deck, liabilities.deck) ==
        DealtOne(old(assets.deck), assets.backup, old(liabilities.deck), liabilities.backup)
    {
      var a0 := assets.Draw();
      var a1 := assets.Draw();
      var l0 := liabilities.Draw();
      var l1 := liabilities.Draw();
      twoAssets, twoLiabilities := [a0, a1], [l0, l1];
    }

    /** `initial_market` on the market deck object. */
    static method TakeInitialMarket(markets: Deck<MarketCard>) returns (market: Option<Market>)
      modifies markets`deck
      ensures (market, markets.Data()) == InitialMarket(old(markets.Data()))
    {
      var pos := FindIndex(markets.deck, (c: MarketCard) => c.Left?);
      if pos.None? {
        return None;
      }
      market := Some(markets.deck[pos.value].left);
      markets.deck := SwapRemove(markets.deck, pos.value);
    }
  }
}
