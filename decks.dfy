// `Deck<T>` (game/src/game/mod.rs): a draw pile whose top is the END of the
// list, with a backup copy of the initial cards taken at construction. An
// empty pile is refilled from the backup before drawing; a card put back goes
// to the bottom (the front of the list). Shuffling is not part of the model.
module Decks {

  /** The card that `draw` returns and the pile it leaves, from the pile and the backup. */
  function Drawn<T>(pile: seq<T>, backup: seq<T>): (r: (T, seq<T>))
    requires pile != [] || backup != []
    ensures |r.1| + 1 == |if pile != [] then pile else backup|
  {
    if pile != [] then (pile[|pile| - 1], pile[..|pile| - 1])
    else (backup[|backup| - 1], backup[..|backup| - 1])
  }

  /** The card drawn is the last one of the pile drawn from (the backup once the pile is empty), and the rest stays. */
  lemma DrawnIsLast<T>(pile: seq<T>, backup: seq<T>)
    requires pile != [] || backup != []
    ensures Drawn(pile, backup).1 + [Drawn(pile, backup).0] == (if pile != [] then pile else backup)
  {
  }

  /** `put_back`: the card becomes the bottom of the pile. */
  function PutBackOnto<T>(pile: seq<T>, card: T): (r: seq<T>)
    ensures |r| == |pile| + 1 && r[0] == card && r[1..] == pile
  {
    [card] + pile
  }

  /** The cards `n` successive draws from a pile return, in draw order, and the pile left. */
  function DrawMany<T>(pile: seq<T>, n: nat): (r: (seq<T>, seq<T>))
    requires n <= |pile|
    ensures |r.0| == n && |r.1| == |pile| - n
    ensures r.1 == pile[..|pile| - n]
  {
    if n == 0 then ([], pile)
    else
      var (card, rest) := Drawn(pile, []);
      var (more, left) := DrawMany(rest, n - 1);
      ([card] + more, left)
  }

  /**
   * A card put back is not drawn again before every card that was already in
   * the pile: after at most |pile| draws it is still at the bottom, and the
   * draws return what they would have returned without it.
   */
  lemma {:induction false} PutBackStaysAtBottom<T>(pile: seq<T>, card: T, n: nat)
    requires n <= |pile|
    ensures DrawMany(PutBackOnto(pile, card), n).0 == DrawMany(pile, n).0
    ensures DrawMany(PutBackOnto(pile, card), n).1 == PutBackOnto(DrawMany(pile, n).1, card)
  {
    if n > 0 {
      var p := PutBackOnto(pile, card);
      assert Drawn(p, []).0 == Drawn(pile, []).0;
      assert Drawn(p, []).1 == PutBackOnto(Drawn(pile, []).1, card);
      PutBackStaysAtBottom(Drawn(pile, []).1, card, n - 1);
    }
  }

  /** Drawing the whole pile returns it top first, so all cards come back in reverse list order. */
  lemma {:induction false} DrawAllReverses<T>(pile: seq<T>, i: nat)
    requires i < |pile|
    ensures DrawMany(pile, |pile|).0[i] == pile[|pile| - 1 - i]
  {
    var (card, rest) := Drawn(pile, []);
    if i > 0 {
      DrawAllReverses(rest, i - 1);
    }
  }

  /** The state of a deck as a value. */
  datatype DeckData<T> = DeckData(imageBackUrl: string, deck: seq<T>, backup: seq<T>)

  class Deck<T> {
    var imageBackUrl: string
    var deck: seq<T>
    var backup: seq<T>

    function Data(): DeckData<T>
      reads this
    {
      DeckData(imageBackUrl, deck, backup)
    }

    constructor FromData(d: DeckData<T>)
      ensures Data() == d
    {
      imageBackUrl, deck, backup := d.imageBackUrl, d.deck, d.backup;
    }

    /** `Deck::new`: the backup is a copy of the initial cards. */
    constructor (cards: seq<T>)
      ensures deck == cards && backup == cards && imageBackUrl == ""
    {
      deck := cards;
      backup := cards;
      imageBackUrl := "";
    }

    /** `Deck::new_with_url` */
    constructor WithUrl(cards: seq<T>, url: string)
      ensures deck == cards && backup == cards && imageBackUrl == url
    {
      deck := cards;
      backup := cards;
      imageBackUrl := url;
    }

    function Len(): (n: nat)
      reads this
      ensures n == |deck|
    {
      |deck|
    }

    predicate IsEmpty()
      reads this
    {
      |deck| == 0
    }

    /**
     * `draw`: pops the top card; an empty pile is first restored from the
     * backup. The source panics when both are empty.
     */
    method Draw() returns (card: T)
      requires deck != [] || backup != []
      modifies this`deck
      ensures (card, deck) == Drawn(old(deck), backup)
    {
      if deck == [] {
        deck := backup;
      }
      card := deck[|deck| - 1];
      deck := deck[..|deck| - 1];
    }

    /** `put_back` */
    method PutBack(card: T)
      modifies this`deck
      ensures deck == PutBackOnto(old(deck), card)
    {
      deck := [card] + deck;
    }

    method SetImageBackUrl(url: string)
      modifies this`imageBackUrl
      ensures imageBackUrl == url
    {
      imageBackUrl := url;
    }
  }
}
