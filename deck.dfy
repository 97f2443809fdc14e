/** A standard 52-card deck without jokers (cards/src/deck.rs). */
module Decks {
  import opened Wrappers
  import opened Cards
  import opened HasCards

  /** The order in which Deck::new appends the suits. */
  const DeckSuits: seq<Suit> := [Clubs, Diamonds, Hearts, Spades]

  /** The values 1..=13 that create_cards iterates over. */
  const AceToKing: seq<i32> := [1, 2, 3, 4, 5, 6, 7, 8, 9, 10, 11, 12, 13]

  /** The layout of a fresh deck: card i has value i mod 13 + 1 and the (i / 13)-th suit. */
  function StandardDeck(): (r: seq<Card>)
    ensures |r| == 52
  {
    seq(52, i requires 0 <= i < 52 => Card(i % 13 + 1, DeckSuits[i / 13]))
  }

  /** Collecting an iterator of Card::new results into a Result: the cards in
      order, or the error of the first value out of range (see FirstErrorWins). */
  function CollectCards(values: seq<i32>, suit: Suit): (r: Result<seq<Card>, CardError>)
    ensures r.Ok? <==> forall i :: 0 <= i < |values| ==> InRange(values[i])
    ensures r.Ok? ==> |r.value| == |values|
    ensures r.Ok? ==> forall i :: 0 <= i < |values| ==> r.value[i] == Card(values[i], suit)
  {
    if values == [] then Ok([])
    else match NewCard(values[0], suit)
      case Err(e) => Err(e)
      case Ok(c) =>
        match CollectCards(values[1..], suit)
        case Err(e) =>
          assert forall j :: 1 <= j < |values| ==> values[j] == values[1..][j - 1];
          Err(e)
        case Ok(rest) => Ok([c] + rest)
  }

  /** Collecting stops at the first value out of range and reports that value. */
  lemma {:induction false} FirstErrorWins(values: seq<i32>, suit: Suit, i: nat)
    requires i < |values| && !InRange(values[i])
    requires forall j :: 0 <= j < i ==> InRange(values[j])
    ensures CollectCards(values, suit) == Err(ValueOutOfRange(values[i]))
  {
    if i > 0 {
      FirstErrorWins(values[1..], suit, i - 1);
    }
  }

  /** create_cards: the thirteen cards of one suit, Ace to King; it never fails. */
  function CreateCards(suit: Suit): (r: Result<seq<Card>, CardError>)
    ensures r.Ok? && |r.value| == 13
    ensures forall i :: 0 <= i < 13 ==> r.value[i] == Card(i + 1, suit)
  {
    AceToKingAscends();
    CollectCards(AceToKing, suit)
  }

  lemma AceToKingAscends()
    ensures |AceToKing| == 13 && forall i :: 0 <= i < 13 ==> AceToKing[i] == i + 1
  {
  }

  /** Position i of block k (13 cards each) is value i - 13k + 1 of suit k. */
  lemma DivMod13(i: int, k: int)
    requires 0 <= k && 13 * k <= i < 13 * k + 13
    ensures i / 13 == k && i % 13 == i - 13 * k
  {
  }

  /** Card j of the k-th block of thirteen is value j + 1 of the k-th suit. */
  lemma StandardDeckAt(k: nat, j: nat)
    requires k < 4 && j < 13
    ensures StandardDeck()[13 * k + j] == Card(j + 1, DeckSuits[k])
  {
    DivMod13(13 * k + j, k);
  }

  /** The k-th block of thirteen cards of a fresh deck is Ace to King of the k-th suit. */
  lemma StandardDeckBlock(k: nat, block: seq<Card>)
    requires k < 4 && |block| == 13
    requires forall j :: 0 <= j < 13 ==> block[j] == Card(j + 1, DeckSuits[k])
    ensures StandardDeck()[13 * k .. 13 * k + 13] == block
  {
    var d := StandardDeck();
    forall j | 0 <= j < 13
      ensures d[13 * k .. 13 * k + 13][j] == block[j]
    {
      StandardDeckAt(k, j);
    }
  }

  /** The k-th block of thirteen cards of a fresh deck is create_cards of the k-th suit. */
  lemma SuitBlock(k: nat)
    requires k < 4
    ensures StandardDeck()[13 * k .. 13 * k + 13] == CreateCards(DeckSuits[k]).value
  {
    StandardDeckBlock(k, CreateCards(DeckSuits[k]).value);
  }

  /** A fresh deck is the four create_cards runs in suit order. */
  lemma StandardDeckBySuit()
    ensures StandardDeck() == CreateCards(Clubs).value + CreateCards(Diamonds).value
                              + CreateCards(Hearts).value + CreateCards(Spades).value
  {
    SuitBlock(0);
    SuitBlock(1);
    SuitBlock(2);
    SuitBlock(3);
    FourBlocks(StandardDeck(), CreateCards(Clubs).value, CreateCards(Diamonds).value,
               CreateCards(Hearts).value, CreateCards(Spades).value);
  }

  /** A 52-card sequence is the concatenation of its four blocks of thirteen. */
  lemma FourBlocks(d: seq<Card>, a: seq<Card>, b: seq<Card>, c: seq<Card>, e: seq<Card>)
    requires |d| == 52
    requires d[..13] == a && d[13..26] == b && d[26..39] == c && d[39..52] == e
    ensures d == a + b + c + e
  {
    assert d == d[..13] + d[13..26] + d[26..39] + d[39..52];
  }

  /** A fresh deck holds every valid card exactly once. */
  lemma StandardDeckIsComplete(c: Card)
    requires IsValid(c)
    ensures multiset(StandardDeck())[c] == 1
  {
    var k := match c.suit case Clubs => 0 case Diamonds => 1 case Hearts => 2 case Spades => 3;
    var at := 13 * k + c.value - 1;
    var d := StandardDeck();
    assert d[at] == c;
    CountOnce(d, c, at);
  }

  /** An element that sits at exactly one index occurs once. */
  lemma {:induction false} CountOnce(s: seq<Card>, c: Card, at: nat)
    requires at < |s| && s[at] == c
    requires forall i :: 0 <= i < |s| && i != at ==> s[i] != c
    ensures multiset(s)[c] == 1
  {
    var n := |s| - 1;
    assert s == s[..n] + [s[n]];
    if n == at {
      assert c !in s[..n];
    } else {
      CountOnce(s[..n], c, at);
    }
  }

  class Deck {
    var cards: seq<Card>

    /** The struct literal `Deck { cards }`. */
    constructor FromCards(cards: seq<Card>)
      ensures this.cards == cards
    {
      this.cards := cards;
    }

    /** Deck::new: the four suits appended in order Clubs, Diamonds, Hearts, Spades.
        The `?` after each create_cards never fires, since create_cards never fails. */
    static method New() returns (r: Result<Deck, CardError>)
      ensures r.Ok? && fresh(r.value)
      ensures r.value.cards == StandardDeck()
    {
      var cards: seq<Card> := [];
      var clubs := CreateCards(Clubs).value;
      cards := cards + clubs;
      assert cards == clubs;
      var diamonds := CreateCards(Diamonds).value;
      cards := cards + diamonds;
      var hearts := CreateCards(Hearts).value;
      cards := cards + hearts;
      var spades := CreateCards(Spades).value;
      cards := cards + spades;
      StandardDeckBySuit();
      var deck := new Deck.FromCards(cards);
      r := Ok(deck);
    }

    /** Default: Deck::new().unwrap(), which cannot panic. */
    constructor Default()
      ensures cards == StandardDeck()
    {
      var r := New();
      cards := r.value.cards;
    }

    /** deal: pops the last card, None when the deck is empty. */
    method Deal() returns (c: Option<Card>)
      modifies this
      ensures (c, cards) == Pop(old(cards))
    {
      c, cards := Pop(cards).0, Pop(cards).1;
    }

    /** cards_left: the number of cards still in the deck. */
    function CardsLeft(): (n: nat)
      reads this
      ensures n == |cards|
    {
      |cards|
    }

    /** shuffle: reorders the deck, keeping every card. */
    method Shuffle(draw: nat -> nat)
      modifies this
      ensures Permutes(cards, old(cards))
    {
      cards := HasCards.Shuffle(cards, draw);
    }
  }
}
