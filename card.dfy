/** A playing card: a range-checked constructor and the rank and value mappings
    (cards/src/card.rs). */
module Cards {
  import opened Wrappers

  /** Rust's i32. */
  type i32 = x: int | -0x8000_0000 <= x < 0x8000_0000

  /** The suits, in the order the source enum declares them. */
  datatype Suit = Clubs | Hearts | Spades | Diamonds

  /** The one error card construction can report (cards/src/error.rs). */
  datatype CardError = ValueOutOfRange(value: i32)

  /** The fields are private in the source, so every card in circulation comes
      from NewCard. The source's `suit()` accessor is the destructor `suit`. */
  datatype Card = Card(value: i32, suit: Suit)

  /** What NewCard accepts: Ace (1) to King (13). */
  predicate InRange(v: int) {
    1 <= v <= 13
  }

  predicate IsValid(c: Card) {
    InRange(c.value)
  }

  /** Card::new: the value must lie in 1..=13, otherwise the rejected value is reported. */
  function NewCard(v: i32, s: Suit): (r: Result<Card, CardError>)
    ensures r.Ok? <==> InRange(v)
    ensures r.Ok? ==> IsValid(r.value) && r.value.value == v && r.value.suit == s
    ensures r.Err? ==> r.error == ValueOutOfRange(v)
  {
    if !InRange(v) then Err(ValueOutOfRange(v)) else Ok(Card(v, s))
  }

  /** Every valid card is what NewCard builds from its own value and suit. */
  lemma NewCardRoundTrip(c: Card)
    requires IsValid(c)
    ensures NewCard(c.value, c.suit) == Ok(c)
  {
  }

  /** The decimal digit for 0 <= d < 10. */
  function Digit(d: int): (ch: char)
    requires 0 <= d < 10
    ensures '0' <= ch <= '9'
    ensures DigitValue(ch) == d
  {
    "0123456789"[d]
  }

  /** The number a decimal digit character stands for. */
  function DigitValue(ch: char): int {
    ch as int - '0' as int
  }

  /** The number a string of decimal digits spells, most significant digit first. */
  function DigitsValue(r: string): int
    decreases |r|
  {
    if |r| == 0 then 0 else DigitsValue(r[..|r| - 1]) * 10 + DigitValue(r[|r| - 1])
  }

  /** i32::to_string: optional minus sign, then the decimal digits, most significant
      first, with no leading zero. */
  function DecimalString(n: int): (r: string)
    ensures |r| > 0
    ensures n >= 0 ==> forall k :: 0 <= k < |r| ==> '0' <= r[k] <= '9'
    ensures n >= 0 ==> DigitsValue(r) == n
    ensures n >= 0 ==> (r[0] == '0' <==> n == 0) && (n == 0 ==> |r| == 1)
    ensures n < 0 ==> |r| > 1 && r[0] == '-' && r[1] != '0' && DigitsValue(r[1..]) == -n
    ensures n < 0 ==> forall k :: 1 <= k < |r| ==> '0' <= r[k] <= '9'
    decreases if n < 0 then 1 - n else n
  {
    if n < 0 then "-" + DecimalString(-n)
    else if n < 10 then [Digit(n)]
    else DecimalString(n / 10) + [Digit(n % 10)]
  }

  /** The rank names of Ace through King, indexed by value - 1. */
  const RankNames: seq<string> :=
    ["Ace", "2", "3", "4", "5", "6", "7", "8", "9", "10", "Jack", "Queen", "King"]

  /** The face name of a card: Ace, Jack, Queen and King by name, any other value
      as its decimal string. */
  function Rank(c: Card): (r: string)
    ensures IsValid(c) ==> r == RankNames[c.value - 1]
  {
    match c.value
    case 1 => "Ace"
    case 11 => "Jack"
    case 12 => "Queen"
    case 13 => "King"
    case _ => DecimalString(c.value)
  }

  /** Two valid cards have the same rank name exactly when they have the same value. */
  lemma RankDistinguishesValues(c: Card, d: Card)
    requires IsValid(c) && IsValid(d)
    ensures Rank(c) == Rank(d) <==> c.value == d.value
  {
  }

  /** The blackjack value: Jack, Queen and King count 10, every other value counts itself. */
  function Value(c: Card): (r: i32)
    ensures IsValid(c) ==> 1 <= r <= 10
    ensures IsValid(c) ==> (r == 10 <==> c.value >= 10)
    ensures c.value <= 10 ==> r == c.value
  {
    match c.value
    case 1 => 1
    case 11 => 10
    case 12 => 10
    case 13 => 10
    case _ => c.value
  }
}
