/** Cards, their total order, and the standard 52-card deck that `Deck::new`
    lays out before shuffling. */
module Cards {
  import opened Prelude

  /** A playing card. In a standard deck `rank` runs 2..14 (11..14 being jack,
      queen, king and ace) and `suit` runs 0..3; equality is structural. */
  datatype Card = Card(rank: u8, suit: u8)

  /** `Ord::cmp` for cards: rank first, and the suit only to break a tie in rank. */
  function Compare(a: Card, b: Card): (o: Ordering)
    ensures o == Equal <==> a == b
    ensures o == Less <==> a.rank < b.rank || (a.rank == b.rank && a.suit < b.suit)
    ensures o == Greater <==> a.rank > b.rank || (a.rank == b.rank && a.suit > b.suit)
  {
    if a.rank == b.rank then CompareInt(a.suit, b.suit) else CompareInt(a.rank, b.rank)
  }

  /** `PartialOrd::partial_cmp`: always defined, and `Equal` exactly when the
      derived `PartialEq` says the cards are equal. */
  function PartialCompare(a: Card, b: Card): (o: Option<Ordering>)
    ensures o.Some?
    ensures o.value == Equal <==> a == b
    ensures o.value == Less <==> Compare(b, a) == Greater
  {
    Some(Compare(a, b))
  }

  predicate LessOrEqual(a: Card, b: Card) {
    Compare(a, b) != Greater
  }

  /** `Compare` is a total order: reflexive, antisymmetric, transitive and
      total, and swapping the operands reverses the answer. */
  lemma CompareIsTotalOrder()
    ensures forall a :: LessOrEqual(a, a)
    ensures forall a, b :: LessOrEqual(a, b) && LessOrEqual(b, a) ==> a == b
    ensures forall a, b, c :: LessOrEqual(a, b) && LessOrEqual(b, c) ==> LessOrEqual(a, c)
    ensures forall a, b :: LessOrEqual(a, b) || LessOrEqual(b, a)
    ensures forall a, b :: Compare(b, a) == Compare(a, b).Reverse()
  {
  }

  /** The cards of a standard deck. */
  predicate InStandardDeck(c: Card) {
    2 <= c.rank <= 14 && c.suit <= 3
  }

  predicate NoDuplicates(s: seq<Card>) {
    forall i, j | 0 <= i < j < |s| :: s[i] != s[j]
  }

  predicate Ascending(s: seq<Card>) {
    forall i, j | 0 <= i < j < |s| :: Compare(s[i], s[j]) == Less
  }

  /** The deck `Deck::new` builds before it shuffles: ranks ascending from 2,
      and within a rank the suits 0..3, so position `k` holds rank `2 + k / 4`
      and suit `k % 4`. */
  function Standard(): (s: seq<Card>)
    ensures |s| == 52
    ensures s[0] == Card(2, 0) && s[51] == Card(14, 3)
  {
    seq(52, k requires 0 <= k < 52 => Card(2 + k / 4, k % 4))
  }

  /** The position of a card of the standard deck in `Standard()`. */
  function StandardIndex(c: Card): (k: nat)
    requires InStandardDeck(c)
    ensures k < 52 && Standard()[k] == c
  {
    4 * (c.rank - 2) + c.suit
  }

  /** The unshuffled deck holds 52 cards, exactly the cards of a standard deck,
      each once, in ascending order under `Compare`. */
  lemma StandardDeck()
    ensures |Standard()| == 52
    ensures forall c :: c in Standard() <==> InStandardDeck(c)
    ensures Ascending(Standard())
    ensures NoDuplicates(Standard())
  {
    var s := Standard();
    forall c ensures c in s <==> InStandardDeck(c) {
      if InStandardDeck(c) {
        assert s[StandardIndex(c)] == c;
      }
    }
    forall i, j | 0 <= i < j < |s| ensures Compare(s[i], s[j]) == Less {
      assert i / 4 < j / 4 || (i / 4 == j / 4 && i % 4 < j % 4);
    }
  }

  /** A sequence without repeats holds each card at most once. */
  lemma {:induction false} DistinctCounts(s: seq<Card>)
    requires NoDuplicates(s)
    ensures forall c :: multiset(s)[c] <= 1
  {
    if s != [] {
      var t, last := s[..|s| - 1], s[|s| - 1];
      assert s == t + [last];
      assert forall i | 0 <= i < |t| :: t[i] == s[i];
      DistinctCounts(t);
      assert last !in t;
    }
  }

  /** Two positions holding the same card make that card occur twice. */
  lemma RepeatedCount(s: seq<Card>, i: nat, j: nat)
    requires i < j < |s|
    ensures s[i] == s[j] ==> multiset(s)[s[j]] >= 2
  {
    assert s == s[..j] + [s[j]] + s[j + 1..];
    assert s[..j][i] == s[i];
  }

  /** Taking some of the cards of a sequence without repeats, in any order,
      gives a sequence without repeats. */
  lemma SubmultisetNoDuplicates(a: seq<Card>, b: seq<Card>)
    requires multiset(a) <= multiset(b)
    requires NoDuplicates(b)
    ensures NoDuplicates(a)
  {
    DistinctCounts(b);
    forall i, j | 0 <= i < j < |a| ensures a[i] != a[j] {
      RepeatedCount(a, i, j);
    }
  }

  /** Every permutation of the standard deck, such as a shuffled one, is 52
      distinct cards, exactly those of a standard deck. */
  lemma PermutedStandard(s: seq<Card>)
    requires multiset(s) == multiset(Standard())
    ensures |s| == 52
    ensures NoDuplicates(s)
    ensures forall c :: c in s <==> InStandardDeck(c)
  {
    StandardDeck();
    assert |s| == |multiset(s)|;
    SubmultisetNoDuplicates(s, Standard());
    forall c ensures c in s <==> c in Standard() {
      assert c in s <==> c in multiset(s);
      assert c in Standard() <==> c in multiset(Standard());
    }
  }
}
