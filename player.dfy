/** A hand of cards and its HandleCards operations (player/src/lib.rs). */
module Players {
  import opened Wrappers
  import opened Cards
  import opened HasCards

  /** A seat at the table, as a game state stores it: the cards in its hand. */
  datatype Player = Player(hand: seq<Card>)

  /** The dealer, as a game state stores it: the cards in its hand. */
  datatype House = House(hand: seq<Card>)

  class Hand {
    var cards: seq<Card>

    /** Default: an empty hand. */
    constructor ()
      ensures cards == []
      ensures NumberOfCards() == 0
    {
      cards := [];
    }

    /** cards: the cards held, oldest first. */
    function Cards(): seq<Card>
      reads this
    {
      cards
    }

    /** number_of_cards: how many cards are held. */
    function NumberOfCards(): (n: nat)
      reads this
      ensures n == |Cards()|
    {
      |cards|
    }

    /** recieve: takes a card on top of the hand. */
    method Receive(c: Card)
      modifies this
      ensures cards == old(cards) + [c]
      ensures NumberOfCards() == old(NumberOfCards()) + 1
    {
      cards := cards + [c];
    }

    /** show_card: the first card received, None exactly when the hand is empty. */
    function ShowCard(): (r: Option<Card>)
      reads this
      ensures r.None? <==> Cards() == []
      ensures r.Some? ==> r.value == Cards()[0]
    {
      if cards == [] then None else Some(cards[0])
    }

    /** show_hand: the same cards as Cards. */
    function ShowHand(): (r: seq<Card>)
      reads this
      ensures r == Cards()
    {
      Cards()
    }

    /** trash: hands back every card in order and leaves the hand empty. */
    method Trash() returns (trashed: seq<Card>)
      modifies this
      ensures trashed == old(cards)
      ensures cards == []
    {
      trashed := cards;
      cards := [];
    }

    /** trash_card: discards the most recent card, None when the hand is empty. */
    method TrashCard() returns (c: Option<Card>)
      modifies this
      ensures (c, cards) == Pop(old(cards))
      ensures old(cards) != [] ==> NumberOfCards() == old(NumberOfCards()) - 1
    {
      c, cards := Pop(cards).0, Pop(cards).1;
    }
  }
}
