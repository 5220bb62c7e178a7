/** The deck: built in order, shuffled, and drawn from the back of its `Vec`. */
module Decks {
  import opened Prelude
  import opened Cards

  /** The nested loops of `Deck::new`: ranks 2..14 outside, suits 0..3 inside,
      each card pushed onto the end. */
  method BuildOrdered() returns (cards: seq<Card>)
    ensures cards == Standard()
    ensures |cards| == 52 && NoDuplicates(cards)
    ensures forall c :: c in cards <==> InStandardDeck(c)
  {
    cards := [];
    for i := 2 to 15
      invariant cards == Standard()[..4 * (i - 2)]
    {
      for j := 0 to 4
        invariant cards == Standard()[..4 * (i - 2) + j]
      {
        assert Standard()[4 * (i - 2) + j] == Card(i, j) by {
          assert StandardIndex(Card(i, j)) == 4 * (i - 2) + j;
        }
        cards := cards + [Card(i, j)];
      }
    }
    StandardDeck();
  }

  /** What the random source promises `shuffle`: the index drawn for position
      `i` lies in 0..=i. Entry 0 is never used. */
  predicate ValidPicks(picks: seq<nat>, n: nat) {
    |picks| == n && forall i | 0 <= i < n :: picks[i] <= i
  }

  /** `SliceRandom::shuffle`: Fisher-Yates from the back, swapping position `i`
      with the position `picks[i]` the random source drew. Whatever is drawn,
      the result is a permutation of `cards`. */
  method Shuffle(cards: seq<Card>, picks: seq<nat>) returns (r: seq<Card>)
    requires ValidPicks(picks, |cards|)
    ensures multiset(r) == multiset(cards)
  {
    r := cards;
    var i := |r|;
    while i > 1
      invariant i <= |r| == |cards|
      invariant multiset(r) == multiset(cards)
    {
      i := i - 1;
      var j := picks[i];
      r := r[i := r[j]][j := r[i]];
    }
  }

  class Deck {
    var cards: seq<Card>

    /** `Deck::new`: the 52 cards of a standard deck, each once, in an order the
        random source chose. */
    constructor (picks: seq<nat>)
      requires ValidPicks(picks, 52)
      ensures multiset(cards) == multiset(Standard())
      ensures |cards| == 52 && NoDuplicates(cards)
      ensures forall c :: c in cards <==> InStandardDeck(c)
    {
      var ordered := BuildOrdered();
      var shuffled := Shuffle(ordered, picks);
      cards := shuffled;
      new;
      PermutedStandard(shuffled);
    }

    /** `Deck::remove_card`: `Vec::pop`, the last card or `None` on an empty
        deck, which it leaves alone. */
    method RemoveCard() returns (c: Option<Card>)
      modifies this
      ensures c.Some? <==> old(cards) != []
      ensures c.Some? ==> old(cards) == cards + [c.value]
      ensures c.None? ==> cards == old(cards)
    {
      if cards == [] {
        c := None;
      } else {
        c := Some(cards[|cards| - 1]);
        cards := cards[..|cards| - 1];
      }
    }
  }
}
