/** A shoe: several standard decks stacked together (cards/src/shoe.rs). */
module Shoes {
  import opened Wrappers
  import opened Cards
  import opened HasCards
  import opened Decks

  /** The number of decks Shoe::default asks for. */
  const DefaultDecks: i32 := 7

  /** k copies of s, one after another. */
  function Repeat(s: seq<Card>, k: nat): seq<Card> {
    if k == 0 then [] else Repeat(s, k - 1) + s
  }

  lemma {:induction false} RepeatLength(s: seq<Card>, k: nat)
    ensures |Repeat(s, k)| == k * |s|
  {
    if k > 0 {
      RepeatLength(s, k - 1);
    }
  }

  /** Card j of the m-th copy in k stacked copies of s is card j of s. */
  lemma {:induction false} RepeatAt(s: seq<Card>, k: nat, m: nat, j: nat)
    requires m < k && j < |s|
    ensures m * |s| + j < |Repeat(s, k)|
    ensures Repeat(s, k)[m * |s| + j] == s[j]
  {
    RepeatLength(s, k - 1);
    assert (k - 1) * |s| + |s| == k * |s|;
    if m < k - 1 {
      RepeatAt(s, k - 1, m, j);
    } else {
      assert m * |s| == (k - 1) * |s|;
    }
  }

  /** How many decks `for _ in 0..n` appends: none when n is zero or negative. */
  function DeckCount(n: i32): nat {
    if n <= 0 then 0 else n
  }

  /** The cards of a default shoe, as GameState::default stores them. */
  function DefaultShoeCards(): (r: seq<Card>)
    ensures |r| == 364
  {
    RepeatLength(StandardDeck(), DeckCount(DefaultDecks));
    Repeat(StandardDeck(), DeckCount(DefaultDecks))
  }

  class Shoe {
    var cards: seq<Card>

    /** The struct literal `Shoe { cards }`. */
    constructor FromCards(cards: seq<Card>)
      ensures this.cards == cards
    {
      this.cards := cards;
    }

    /** Shoe::new: n fresh decks appended one after another; it never fails, since
        Deck::new never fails. */
    static method New(n: i32) returns (r: Result<Shoe, CardError>)
      ensures r.Ok? && fresh(r.value)
      ensures r.value.cards == Repeat(StandardDeck(), DeckCount(n))
      ensures |r.value.cards| == 52 * DeckCount(n)
    {
      var cards: seq<Card> := [];
      var i := 0;
      while i < n
        invariant 0 <= i <= DeckCount(n)
        invariant cards == Repeat(StandardDeck(), i)
      {
        var deck := Deck.New();
        cards := cards + deck.value.cards;
        i := i + 1;
      }
      RepeatLength(StandardDeck(), DeckCount(n));
      var shoe := new Shoe.FromCards(cards);
      r := Ok(shoe);
    }

    /** Default: Shoe::new(7).unwrap(), which cannot panic; the shoe is not shuffled. */
    constructor Default()
      ensures cards == DefaultShoeCards()
      ensures |cards| == 364
    {
      var r := New(DefaultDecks);
      cards := r.value.cards;
    }

    /** deal: pops the last card, None when the shoe is empty. */
    method Deal() returns (c: Option<Card>)
      modifies this
      ensures (c, cards) == Pop(old(cards))
    {
      c, cards := Pop(cards).0, Pop(cards).1;
    }

    /** cards_left: the number of cards still in the shoe. */
    function CardsLeft(): (n: nat)
      reads this
      ensures n == |cards|
    {
      |cards|
    }

    /** shuffle: reorders the shoe, keeping every card. */
    method Shuffle(draw: nat -> nat)
      modifies this
      ensures Permutes(cards, old(cards))
    {
      cards := HasCards.Shuffle(cards, draw);
    }
  }
}
