/** The operations Deck and Shoe share through the HasCards trait
    (cards/src/has_cards.rs): a pile of cards dealt from its end, and shuffled. */
module HasCards {
  import opened Wrappers
  import opened Cards

  /** Vec::pop on a pile of cards: the top card is the last one. */
  function Pop(s: seq<Card>): (r: (Option<Card>, seq<Card>))
    ensures s == [] <==> r.0.None?
    ensures s == [] ==> r.1 == []
    ensures s != [] ==> r.1 + [r.0.value] == s
  {
    if s == [] then (None, []) else (Some(s[|s| - 1]), s[..|s| - 1])
  }

  /** Popping undoes pushing. */
  lemma PopAfterPush(s: seq<Card>, c: Card)
    ensures Pop(s + [c]) == (Some(c), s)
  {
  }

  /** Two piles holding the same cards (as a multiset) and as many of them. */
  ghost predicate Permutes(t: seq<Card>, s: seq<Card>) {
    |t| == |s| && multiset(t) == multiset(s)
  }

  /** SliceRandom::shuffle: the Fisher-Yates walk from the last position down to
      position 1, swapping position i with a drawn position j in 0..=i. The random
      generator is the parameter `draw`; any index in 0..=i can come out of it, which
      is all the permutation property depends on. How gen_range samples is not modelled. */
  method Shuffle(s: seq<Card>, draw: nat -> nat) returns (t: seq<Card>)
    ensures Permutes(t, s)
  {
    t := s;
    var i := |t|;
    while i > 1
      invariant 0 <= i <= |t|
      invariant |t| == |s| && multiset(t) == multiset(s)
    {
      i := i - 1;
      var j := draw(i) % (i + 1);
      t := t[i := t[j]][j := t[i]];
    }
  }
}
