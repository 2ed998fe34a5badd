// `SelectingCharactersPlayer` (game/src/player/selecting_characters.rs): a
// player during the character draft. It holds the cash, holdings and hand
// carried between rounds and, once it has picked, its character.
module SelectingPlayers {
  import opened Wrappers
  import opened Vocabulary
  import opened Errors
  import opened PlayerRules
  import opened PlayerRecords

  /**
   * `SelectingCharactersPlayer::new`: the two assets and then the two
   * liabilities dealt become the hand; nothing is owned or picked yet.
   */
  function NewSelectingPlayer(name: string, id: PlayerId, assets: seq<Asset>, liabilities: seq<Liability>,
                              cash: nat, isHuman: bool): (r: SelectingPlayerData)
    requires |assets| == 2 && |liabilities| == 2
    ensures |r.hand| == 4
    ensures forall i :: 0 <= i < 2 ==> r.hand[i] == Left(assets[i]) && r.hand[2 + i] == Right(liabilities[i])
    ensures HandKinds(r.hand) == [AssetCard, AssetCard, LiabilityCard, LiabilityCard]
    ensures r.assets == [] && r.liabilities == [] && r.character == None
    ensures r.id == id && r.name == name && r.cash == cash && r.isHuman == isHuman
  {
    SelectingPlayerData(id, name, cash, [], [], None, [Left(assets[0]), Left(assets[1]), Right(liabilities[0]), Right(liabilities[1])], isHuman)
  }

  /** `select_character`: a player picks once; afterwards the first pick is reported back. */
  function Selected(p: SelectingPlayerData, c: Character): (r: Result<SelectingPlayerData, SelectingCharactersError>)
    ensures r.Ok? <==> p.character.None?
    ensures r.Ok? ==> r.value == p.(character := Some(c))
    ensures r.Err? ==> r.error == AlreadySelectedCharacter(p.character.value)
  {
    match p.character
    case Some(existing) => Err(AlreadySelectedCharacter(existing))
    case None => Ok(p.(character := Some(c)))
  }

  /**
   * A new player shows the others two assets and two liabilities in hand,
   * nothing owned and no character, and its first pick succeeds.
   */
  lemma NewPlayerCanSelect(name: string, id: PlayerId, assets: seq<Asset>, liabilities: seq<Liability>,
                           cash: nat, isHuman: bool, c: Character)
    requires |assets| == 2 && |liabilities| == 2
    ensures var p := NewSelectingPlayer(name, id, assets, liabilities, cash, isHuman);
      && SelectingInfo(p) == PlayerInfo(name, id, [AssetCard, AssetCard, LiabilityCard, LiabilityCard], [], [], cash, None)
      && Selected(p, c) == Ok(p.(character := Some(c)))
  {
  }

  /** After one successful pick every further pick fails and names the first character. */
  lemma {:induction false} SelectOnlyOnce(p: SelectingPlayerData, c: Character, later: seq<Character>)
    requires Selected(p, c).Ok?
    ensures forall d :: d in later ==>
      Selected(Selected(p, c).value, d) == Err(AlreadySelectedCharacter(c))
  {
  }

  /**
   * `From<RoundPlayer>`: a player going back to the draft keeps cash,
   * holdings and hand, and gives up its character.
   */
  function SelectingFromRound(p: RoundPlayerData): (r: SelectingPlayerData)
    ensures r.character == None
    ensures r.id == p.id && r.name == p.name && r.cash == p.cash && r.isHuman == p.isHuman
    ensures r.assets == p.assets && r.liabilities == p.liabilities && r.hand == p.hand
  {
    SelectingPlayerData(p.id, p.name, p.cash, p.assets, p.liabilities, None, p.hand, p.isHuman)
  }

  /** `PlayerInfo::from(&SelectingCharactersPlayer)` */
  function SelectingInfo(p: SelectingPlayerData): (r: PlayerInfo)
    ensures r.hand == HandKinds(p.hand) && |r.hand| == |p.hand|
    ensures r.name == p.name && r.id == p.id && r.cash == p.cash && r.character == p.character
    ensures r.assets == p.assets && r.liabilities == p.liabilities
  {
    PlayerInfo(p.name, p.id, HandKinds(p.hand), p.assets, p.liabilities, p.cash, p.character)
  }

  class SelectingCharactersPlayer {
    const id: PlayerId
    const name: string
    const cash: nat
    const assets: seq<Asset>
    const liabilities: seq<Liability>
    var character: Option<Character>
    const hand: seq<Card>
    var isHuman: bool

    constructor FromData(d: SelectingPlayerData)
      ensures Data() == d
    {
      id := d.id;
      name := d.name;
      cash := d.cash;
      assets := d.assets;
      liabilities := d.liabilities;
      character := d.character;
      hand := d.hand;
      isHuman := d.isHuman;
    }

    function Data(): SelectingPlayerData
      reads this
    {
      SelectingPlayerData(id, name, cash, assets, liabilities, character, hand, isHuman)
    }

    /** `set_is_human`: only that flag changes. */
    method SetIsHuman(human: bool)
      modifies this
      ensures Data() == old(Data()).(isHuman := human)
    {
      isHuman := human;
    }

    /** `select_character`; on failure the player is unchanged. */
    method SelectCharacter(c: Character) returns (r: Result<(), SelectingCharactersError>)
      modifies this
      ensures r.Ok? <==> Selected(old(Data()), c).Ok?
      ensures r.Ok? ==> Data() == Selected(old(Data()), c).value
      ensures r.Err? ==> r.error == Selected(old(Data()), c).error && Data() == old(Data())
    {
      match character {
        case Some(existing) =>
          return Err(AlreadySelectedCharacter(existing));
        case None =>
          character := Some(c);
          return Ok(());
      }
    }

    function Info(): (r: PlayerInfo)
      reads this
      ensures r == SelectingInfo(Data())
    {
      PlayerInfo(name, id, HandKinds(hand), assets, liabilities, cash, character)
    }
  }
}
