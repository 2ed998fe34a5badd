// `ObtainingCharacters` (game/src/game/mod.rs): the character draft of one
// selection phase. Some characters are laid open, one is put aside closed,
// and the players pick in turn starting with the chairman; the first picker
// sees the closed character and the last picker may take it. The model is
// the unshuffled build, in which every draw takes the end of `CHARACTERS`.
module Draft {
  import opened Wrappers
  import opened Vocabulary
  import opened Errors
  import opened Sequences
  import opened Decks

  /** The draft as a value. */
  datatype DraftData = DraftData(
    playerCount: nat,
    drawIdx: nat,
    chairmanId: nat,
    available: seq<Character>,
    open: seq<Character>,
    closed: Character)

  /** How many characters are laid open for a player count. */
  function OpenCharacterCount(playerCount: nat): (r: Result<nat, GameError>)
    ensures r.Ok? <==> 4 <= playerCount <= 7
    ensures r.Err? ==> r.error == InvalidPlayerCount(AsU8(playerCount))
    ensures r.Ok? ==> r.value <= 2 && r.value + playerCount <= 7
  {
    match playerCount
    case 4 => Ok(2)
    case 5 => Ok(1)
    case 6 => Ok(0)
    case 7 => Ok(0)
    case _ => Err(InvalidPlayerCount(AsU8(playerCount)))
  }

  /**
   * `ObtainingCharacters::new`, unshuffled: the open characters are drawn
   * from the end of `CHARACTERS`, then the closed one, leaving the rest.
   */
  function NewDraft(playerCount: nat, chairmanId: nat): (r: Result<DraftData, GameError>)
    ensures r.Err? <==> OpenCharacterCount(playerCount).Err?
    ensures r.Err? ==> r.error == InvalidPlayerCount(AsU8(playerCount))
  {
    match OpenCharacterCount(playerCount)
    case Err(e) => Err(e)
    case Ok(k) =>
      Ok(DraftData(playerCount, 0, chairmanId, CHARACTERS[..7 - k],
                   seq(k, i requires 0 <= i < k => CHARACTERS[7 - i]), CHARACTERS[7 - k]))
  }

  /** 4, 5 and 6 or 7 players give 2, 1 and 0 open characters; none of them is the CEO. */
  lemma NewDraftOpenCharacters(playerCount: nat, chairmanId: nat)
    requires NewDraft(playerCount, chairmanId).Ok?
    ensures var d := NewDraft(playerCount, chairmanId).value;
      && |d.open| == (if playerCount == 4 then 2 else if playerCount == 5 then 1 else 0)
      && CEO !in d.open
      && (forall c :: c in d.open ==> c in {HeadRnD, Stakeholder})
      && |d.available| == 7 - |d.open|
      && (forall c :: c in CHARACTERS <==> c in d.available || c in d.open || c == d.closed)
      && d.closed !in d.available && d.closed !in d.open
      && (forall c :: c in d.available ==> c !in d.open)
  {
    var d := NewDraft(playerCount, chairmanId).value;
    if playerCount == 4 {
      assert d.available == [Shareholder, Banker, Regulator, CEO, CFO];
      assert d.open == [Stakeholder, HeadRnD] && d.closed == CSO;
      assert forall i :: 0 <= i < |d.available| ==> d.available[i] != d.closed;
    } else if playerCount == 5 {
      assert d.available == [Shareholder, Banker, Regulator, CEO, CFO, CSO];
      assert d.open == [Stakeholder] && d.closed == HeadRnD;
      assert forall i :: 0 <= i < |d.available| ==> d.available[i] != d.closed;
    } else {
      assert d.available == [Shareholder, Banker, Regulator, CEO, CFO, CSO, HeadRnD];
      assert d.open == [] && d.closed == Stakeholder;
      assert forall i :: 0 <= i < |d.available| ==> d.available[i] != d.closed;
    }
  }

  /**
   * `peek`: the first picker also sees the closed character, the last picker
   * may pick it, and once everyone has picked nothing is offered.
   */
  function Peek(d: DraftData): (r: Result<PickableCharacters, SelectingCharactersError>)
    requires d.playerCount >= 1
    ensures r.Ok? <==> d.drawIdx < d.playerCount
    ensures r.Err? ==> r.error == NotPickingCharacters
    ensures r.Ok? ==> (r.value.closedCharacter.Some? <==> d.drawIdx == 0)
    ensures r.Ok? && d.drawIdx == 0 ==> r.value.closedCharacter == Some(d.closed)
    ensures r.Ok? && d.drawIdx == 0 ==> r.value.characters == d.available
    ensures r.Ok? && 0 < d.drawIdx < d.playerCount - 1 ==> r.value.characters == d.available
    ensures r.Ok? && 0 < d.drawIdx == d.playerCount - 1 ==> r.value.characters == d.available + [d.closed]
  {
    if d.drawIdx == 0 then Ok(PickableCharacters(d.available, Some(d.closed)))
    else if d.drawIdx < d.playerCount - 1 then Ok(PickableCharacters(d.available, None))
    else if d.drawIdx == d.playerCount - 1 then Ok(PickableCharacters(d.available + [d.closed], None))
    else Err(NotPickingCharacters)
  }

  /** `pick`: removes the character from what `peek` lists and moves on to the next picker. */
  function Pick(d: DraftData, c: Character): (r: Result<DraftData, SelectingCharactersError>)
    requires d.playerCount >= 1
  {
    match Peek(d)
    case Err(e) => Err(e)
    case Ok(p) =>
      if c in p.characters
      then Ok(d.(drawIdx := d.drawIdx + 1, available := RemoveFirst(p.characters, c)))
      else Err(UnavailableCharacter)
  }

  /**
   * A successful pick removes exactly one occurrence of the character from
   * the offered list and advances the draw index; the other fields stay. A
   * pick fails exactly when peeking fails or the character is not offered.
   */
  lemma PickRemovesOne(d: DraftData, c: Character)
    requires d.playerCount >= 1
    ensures Pick(d, c).Ok? <==> Peek(d).Ok? && c in Peek(d).value.characters
    ensures Peek(d).Err? ==> Pick(d, c) == Err(Peek(d).error)
    ensures Peek(d).Ok? && c !in Peek(d).value.characters ==> Pick(d, c) == Err(UnavailableCharacter)
    ensures Pick(d, c).Ok? ==>
      var e := Pick(d, c).value;
      && multiset(e.available) + multiset{c} == multiset(Peek(d).value.characters)
      && e.drawIdx == d.drawIdx + 1
      && e.playerCount == d.playerCount && e.chairmanId == d.chairmanId
      && e.open == d.open && e.closed == d.closed
  {
  }

  /** `applies_to_player`: the picker is the chairman's seat plus the number of picks so far. */
  function AppliesToPlayer(d: DraftData): (r: nat)
    requires d.playerCount >= 1
    ensures r < d.playerCount
    ensures d.drawIdx == 0 ==> r == d.chairmanId % d.playerCount
  {
    (d.drawIdx + d.chairmanId) % d.playerCount
  }

  /**
   * The size of the offer during the draft: everything the draft started
   * with, except what was laid open, put aside, or already picked.
   */
  ghost predicate DraftInv(d: DraftData)
  {
    && 4 <= d.playerCount <= 7
    && OpenCharacterCount(d.playerCount) == Ok(|d.open|)
    && d.drawIdx <= d.playerCount
    && (d.drawIdx < d.playerCount ==> |d.available| == 7 - |d.open| - d.drawIdx)
    && (d.drawIdx == d.playerCount ==> |d.available| == 8 - |d.open| - d.playerCount)
  }

  lemma NewDraftInv(playerCount: nat, chairmanId: nat)
    requires NewDraft(playerCount, chairmanId).Ok?
    ensures DraftInv(NewDraft(playerCount, chairmanId).value)
  {
    NewDraftOpenCharacters(playerCount, chairmanId);
  }

  lemma PickInv(d: DraftData, c: Character)
    requires DraftInv(d) && Pick(d, c).Ok?
    ensures DraftInv(Pick(d, c).value)
  {
  }

  /**
   * What each picker is offered: the chairman n+1 characters for 4, 5 or 6
   * players and 7 for 7 players, one fewer for each later picker, and the
   * last picker one more because the closed character is added.
   */
  lemma {:induction false} OfferSize(d: DraftData)
    requires DraftInv(d) && d.drawIdx < d.playerCount
    ensures Peek(d).Ok?
    ensures d.drawIdx == 0 ==> |Peek(d).value.characters| == (if d.playerCount == 7 then 7 else d.playerCount + 1)
    ensures 0 < d.drawIdx < d.playerCount - 1 ==> |Peek(d).value.characters| == 7 - |d.open| - d.drawIdx
    ensures 0 < d.drawIdx == d.playerCount - 1 ==>
      |Peek(d).value.characters| == 9 - |d.open| - d.playerCount
      && d.closed in Peek(d).value.characters
  {
    var p := Peek(d).value;
    if d.drawIdx == 0 {
      assert |p.characters| == 7 - |d.open|;
    }
  }

  class ObtainingCharacters {
    var playerCount: nat
    var drawIdx: nat
    var chairmanId: nat
    var availableCharacters: Deck<Character>
    var openCharacters: seq<Character>
    var closedCharacter: Character

    function Data(): DraftData
      reads this, availableCharacters
    {
      DraftData(playerCount, drawIdx, chairmanId, availableCharacters.deck, openCharacters, closedCharacter)
    }

    ghost predicate Valid()
      reads this, availableCharacters
    {
      DraftInv(Data())
    }

    constructor FromData(d: DraftData)
      requires DraftInv(d)
      ensures Valid() && Data() == d && fresh(availableCharacters)
    {
      playerCount := d.playerCount;
      drawIdx := d.drawIdx;
      chairmanId := d.chairmanId;
      availableCharacters := new Deck(d.available);
      openCharacters := d.open;
      closedCharacter := d.closed;
    }

    /** `ObtainingCharacters::new`: draws the open characters and then the closed one. */
    static method New(playerCount: nat, chairmanId: PlayerId) returns (r: Result<ObtainingCharacters, GameError>)
      ensures NewDraft(playerCount, chairmanId).Err? ==> r == Err(NewDraft(playerCount, chairmanId).error)
      ensures NewDraft(playerCount, chairmanId).Ok? ==>
        r.Ok? && fresh(r.value) && fresh(r.value.availableCharacters)
        && r.value.Valid() && r.value.Data() == NewDraft(playerCount, chairmanId).value
    {
      var count := OpenCharacterCount(playerCount);
      if count.Err? {
        return Err(count.error);
      }
      var k := count.value;
      var deck := new Deck(CHARACTERS);
      var open: seq<Character> := [];
      while |open| < k
        invariant |open| <= k
        invariant deck.backup == CHARACTERS
        invariant deck.deck == CHARACTERS[..8 - |open|]
        invariant forall i :: 0 <= i < |open| ==> open[i] == CHARACTERS[7 - i]
      {
        var c := deck.Draw();
        open := open + [c];
      }
      var closed := deck.Draw();
      var d := DraftData(playerCount, 0, chairmanId, deck.deck, open, closed);
      assert d == NewDraft(playerCount, chairmanId).value;
      NewDraftInv(playerCount, chairmanId);
      var draft := new ObtainingCharacters.FromData(d);
      return Ok(draft);
    }

    function PeekOffer(): (r: Result<PickableCharacters, SelectingCharactersError>)
      requires Valid()
      reads this, availableCharacters
      ensures r == Peek(Data())
    {
      if drawIdx == 0 then Ok(PickableCharacters(availableCharacters.deck, Some(closedCharacter)))
      else if drawIdx < playerCount - 1 then Ok(PickableCharacters(availableCharacters.deck, None))
      else if drawIdx == playerCount - 1 then Ok(PickableCharacters(availableCharacters.deck + [closedCharacter], None))
      else Err(NotPickingCharacters)
    }

    /** `pick`; on failure nothing changes. */
    method PickCharacter(c: Character) returns (r: Result<(), SelectingCharactersError>)
      requires Valid()
      modifies this, availableCharacters
      ensures Valid() && availableCharacters == old(availableCharacters)
      ensures r.Ok? <==> Pick(old(Data()), c).Ok?
      ensures r.Ok? ==> Data() == Pick(old(Data()), c).value
      ensures r.Err? ==> r.error == Pick(old(Data()), c).error && Data() == old(Data())
    {
      var offer := PeekOffer();
      match offer {
        case Err(e) => return Err(e);
        case Ok(p) =>
          if c in p.characters {
            PickInv(Data(), c);
            var i := IndexOf(p.characters, c);
            drawIdx := drawIdx + 1;
            availableCharacters.deck := RemoveAt(p.characters, i);
            return Ok(());
          }
          return Err(UnavailableCharacter);
      }
    }

    function AppliesTo(): (r: nat)
      requires Valid()
      reads this, availableCharacters
      ensures r == AppliesToPlayer(Data())
    {
      (drawIdx + chairmanId) % playerCount
    }
  }
}
