/** The game: two players, a shuffled deck, the round loop of `play_game`, and
    the three-way comparison of `winner`. */
module Games {
  import opened Prelude
  import opened Cards
  import opened Decks

  // ---------------------------------------------------------------------------
  // The rules, as functions of the deck the loop starts from and the input lines
  // ---------------------------------------------------------------------------

  datatype Side = First | Second

  /** Who takes a round: player 1 only with a strictly higher rank. Suits play
      no part, so a tie in rank goes to player 2. */
  function RoundWinner(card1: Card, card2: Card): (w: Side)
    ensures w == First ==> Compare(card1, card2) == Greater
    ensures card1.rank == card2.rank ==> w == Second
  {
    if card1.rank > card2.rank then First else Second
  }

  /** Round resolution looks at ranks only: it is not `Compare`, and the two
      disagree exactly on equal ranks with player 1 holding the higher suit. */
  lemma RoundWinnerByRank(card1: Card, card2: Card)
    ensures RoundWinner(card1, card2) == First <==> card1.rank > card2.rank
    ensures card1.rank == card2.rank ==> RoundWinner(card1, card2) == Second
    ensures RoundWinner(card1, card2) == First ==> Compare(card1, card2) == Greater
    ensures Compare(card1, card2) == Greater && RoundWinner(card1, card2) == Second
            <==> card1.rank == card2.rank && card1.suit > card2.suit
  {
  }

  /** How many of the first `rounds` rounds played from `deck` player 1 takes:
      each round pops player 1's card and then player 2's off the end. */
  function FirstTally(deck: seq<Card>, rounds: nat): (t: nat)
    requires 2 * rounds <= |deck|
    ensures t <= rounds
    decreases rounds
  {
    if rounds == 0 then 0
    else
      var n := |deck|;
      (if RoundWinner(deck[n - 1], deck[n - 2]) == First then 1 else 0) + FirstTally(deck[..n - 2], rounds - 1)
  }

  /** What a round of `play_game` changes: the cards left in the deck and the
      two win counters. */
  datatype Table = Table(cards: seq<Card>, wins1: int, wins2: int)

  /** One round: player 1 pops a card off the end of the deck, then player 2
      does, and the winner of the two gets one more win. */
  function Round(t: Table): (u: Table)
    requires |t.cards| >= 2
    ensures |u.cards| == |t.cards| - 2
    ensures u.wins1 + u.wins2 == t.wins1 + t.wins2 + 1
  {
    var n := |t.cards|;
    var card1, card2 := t.cards[n - 1], t.cards[n - 2];
    var first := RoundWinner(card1, card2) == First;
    Table(t.cards[..n - 2], t.wins1 + (if first then 1 else 0), t.wins2 + (if first then 0 else 1))
  }

  /** A round takes two cards off the end and nothing else, so the cards left
      are cards that were there, still without repeats; exactly one counter
      goes up, by one. */
  lemma RoundKeepsDeck(t: Table)
    requires |t.cards| >= 2
    ensures |Round(t).cards| == |t.cards| - 2
    ensures NoDuplicates(t.cards) ==> NoDuplicates(Round(t).cards)
    ensures forall c | c in Round(t).cards :: c in t.cards
    ensures Round(t).wins1 + Round(t).wins2 == t.wins1 + t.wins2 + 1
    ensures t.wins1 <= Round(t).wins1 && t.wins2 <= Round(t).wins2
  {
  }

  /** Whether the response read for line `k` is "q"; `flags` holds one entry
      per line of input. Past the end of input the response is empty, which is
      not "q". */
  predicate QuitAt(flags: seq<bool>, k: nat) {
    k < |flags| && flags[k]
  }

  /** For each line of input, whether it trims to "q". */
  function QuitFlags(lines: seq<string>): (flags: seq<bool>) {
    seq(|lines|, i requires 0 <= i < |lines| => Trim(lines[i]) == "q")
  }

  /** The rounds `play_game` plays from a table, with `k` the next line to read
      and `stopped` whether the response read in the round before was "q": the
      guard looks at the card count and the PREVIOUS response, so the round that
      reads "q" is still played. */
  function PlayFrom(t: Table, flags: seq<bool>, k: nat, stopped: bool): Table
    decreases |t.cards|
  {
    if |t.cards| >= 2 && !stopped then PlayFrom(Round(t), flags, k + 1, QuitAt(flags, k)) else t
  }

  /** How many rounds `PlayFrom` plays from a deck of `n` cards. */
  function RoundsFrom(n: nat, flags: seq<bool>, k: nat, stopped: bool): (r: nat)
    ensures 2 * r <= n
    ensures r > 0 <==> n >= 2 && !stopped
    decreases n
  {
    if n >= 2 && !stopped then 1 + RoundsFrom(n - 2, flags, k + 1, QuitAt(flags, k)) else 0
  }

  /** The rounds `play_game` plays from a deck of `n` cards, given the lines of
      input: the response starts out empty, which is not "q". */
  function RoundsPlayed(n: nat, lines: seq<string>): nat {
    RoundsFrom(n, QuitFlags(lines), 0, false)
  }

  /** The cards `PlayFrom` leaves: `r` rounds take the last `2 * r`. */
  lemma {:induction false} PlayFromCards(t: Table, flags: seq<bool>, k: nat, stopped: bool)
    ensures PlayFrom(t, flags, k, stopped).cards
              == t.cards[..|t.cards| - 2 * RoundsFrom(|t.cards|, flags, k, stopped)]
    decreases |t.cards|
  {
    if |t.cards| >= 2 && !stopped {
      var n, r := |t.cards|, RoundsFrom(|t.cards|, flags, k, stopped);
      var u, quit := Round(t), QuitAt(flags, k);
      assert r == 1 + RoundsFrom(n - 2, flags, k + 1, quit);
      assert u.cards == t.cards[..n - 2];
      PlayFromCards(u, flags, k + 1, quit);
      assert t.cards[..n - 2][..n - 2 - 2 * (r - 1)] == t.cards[..n - 2 * r];
    }
  }

  /** The counters `PlayFrom` leaves: of the `r` rounds, player 1 wins
      `FirstTally` and player 2 the rest. */
  lemma {:induction false} PlayFromWins(t: Table, flags: seq<bool>, k: nat, stopped: bool)
    ensures var r := RoundsFrom(|t.cards|, flags, k, stopped);
      PlayFrom(t, flags, k, stopped).wins1 == t.wins1 + FirstTally(t.cards, r)
      && PlayFrom(t, flags, k, stopped).wins2 == t.wins2 + (r - FirstTally(t.cards, r))
    decreases |t.cards|
  {
    if |t.cards| >= 2 && !stopped {
      var n, r := |t.cards|, RoundsFrom(|t.cards|, flags, k, stopped);
      var u, quit := Round(t), QuitAt(flags, k);
      assert r == 1 + RoundsFrom(n - 2, flags, k + 1, quit);
      var first := if RoundWinner(t.cards[n - 1], t.cards[n - 2]) == First then 1 else 0;
      assert u == Table(t.cards[..n - 2], t.wins1 + first, t.wins2 + 1 - first);
      assert FirstTally(t.cards, r) == first + FirstTally(u.cards, r - 1);
      PlayFromWins(u, flags, k + 1, quit);
    }
  }

  /** What `PlayFrom` leaves, in closed form: `r` rounds take the last `2 * r`
      cards, player 1 wins `FirstTally` of them and player 2 the rest. */
  lemma PlayFromClosedForm(t: Table, flags: seq<bool>, k: nat, stopped: bool)
    ensures var n, r := |t.cards|, RoundsFrom(|t.cards|, flags, k, stopped);
      PlayFrom(t, flags, k, stopped)
        == Table(t.cards[..n - 2 * r], t.wins1 + FirstTally(t.cards, r), t.wins2 + (r - FirstTally(t.cards, r)))
  {
    PlayFromCards(t, flags, k, stopped);
    PlayFromWins(t, flags, k, stopped);
  }

  /** The first line at or after `k` that trims to "q". */
  function NextQuit(flags: seq<bool>, k: nat): (q: Option<nat>)
    ensures q.Some? ==> k <= q.value < |flags| && QuitAt(flags, q.value)
    ensures q.Some? ==> forall i | k <= i < q.value :: !QuitAt(flags, i)
    ensures q.None? ==> forall i | k <= i :: !QuitAt(flags, i)
    decreases |flags| - k
  {
    if k >= |flags| then None
    else if QuitAt(flags, k) then Some(k)
    else NextQuit(flags, k + 1)
  }

  /** The number of rounds in closed form: every round is played while two
      cards remain, up to and INCLUDING the round that read "q"; the round after
      it is not played. */
  lemma {:induction false} RoundsFromQuit(n: nat, flags: seq<bool>, k: nat)
    ensures RoundsFrom(n, flags, k, false) ==
              match NextQuit(flags, k)
              case None => n / 2
              case Some(j) => Min(n / 2, j - k + 1)
    decreases n
  {
    if n >= 2 {
      if QuitAt(flags, k) {
        assert NextQuit(flags, k) == Some(k);
      } else {
        RoundsFromQuit(n - 2, flags, k + 1);
        assert NextQuit(flags, k) == NextQuit(flags, k + 1);
      }
    }
  }

  /** The read at the top of each round of `play_game`: clear the buffer,
      `read_line` line `k` into it (nothing at end of input, where `read_line`
      returns `Ok(0)`), trim it and compare it with "q". */
  method ReadQuit(lines: seq<string>, k: nat) returns (quit: bool)
    ensures quit == QuitAt(QuitFlags(lines), k)
  {
    var line := if k < |lines| then lines[k] else "";
    var response := Trim(line);
    quit := response == "q";
  }

  /** The outcome `winner` reports, without its wording: who won and with how
      many round wins, or a tie and the shared count. */
  datatype Outcome = FirstWins(wins: i32) | SecondWins(wins: i32) | Tie(wins: i32)

  // ---------------------------------------------------------------------------
  // The objects
  // ---------------------------------------------------------------------------

  class Player {
    const name: string
    var wins: i32

    /** `Player::new`: the given name and no wins yet. */
    constructor (name: string)
      ensures this.name == name && wins == 0
    {
      this.name := name;
      wins := 0;
    }
  }

  class Game {
    const deck: Deck
    const player1: Player
    const player2: Player

    /** What holds of every game from construction on: each round so far took
        two cards off the 52 and gave exactly one win to one player, and what is
        left are cards of the standard deck. */
    ghost predicate Valid()
      reads this, deck, player1, player2
    {
      && player1 != player2
      && 0 <= player1.wins
      && 0 <= player2.wins
      && 2 * (player1.wins + player2.wins) + |deck.cards| == 52
      && NoDuplicates(deck.cards)
      && (forall c | c in deck.cards :: InStandardDeck(c))
    }

    /** In a valid game the deck holds an even number of cards, and the two
        counters add up to the rounds played so far. */
    lemma ValidDeck()
      requires Valid()
      ensures |deck.cards| % 2 == 0 && |deck.cards| <= 52
      ensures player1.wins + player2.wins == (52 - |deck.cards|) / 2
    {
    }

    /** `Game::new`: a freshly shuffled full deck, players "A" and "B", no wins. */
    constructor (picks: seq<nat>)
      requires ValidPicks(picks, 52)
      ensures Valid()
      ensures fresh(deck) && fresh(player1) && fresh(player2)
      ensures multiset(deck.cards) == multiset(Standard())
      ensures player1.name == "A" && player2.name == "B"
      ensures player1.wins == 0 && player2.wins == 0
      ensures Winner() == Tie(0)
    {
      deck := new Deck(picks);
      player1 := new Player("A");
      player2 := new Player("B");
    }

    /** The cards left and the two counters, as a value. */
    function State(): Table
      reads this, deck, player1, player2
    {
      Table(deck.cards, player1.wins, player2.wins)
    }

    /** `Game::play_game`, with the lines typed on stdin as `lines`: the game
        ends up where `PlayFrom` says, which is the last `2 * r` cards gone for
        the `r` rounds played, each won by exactly one player. */
    method PlayGame(lines: seq<string>)
      requires Valid()
      modifies deck, player1, player2
      ensures Valid()
      ensures State() == PlayFrom(old(State()), QuitFlags(lines), 0, false)
      ensures var n, r := |old(deck.cards)|, RoundsPlayed(|old(deck.cards)|, lines);
        && deck.cards == old(deck.cards)[..n - 2 * r]
        && player1.wins == old(player1.wins) + FirstTally(old(deck.cards), r)
        && player2.wins == old(player2.wins) + (r - FirstTally(old(deck.cards), r))
      ensures player1.wins + player2.wins == old(player1.wins + player2.wins) + RoundsPlayed(|old(deck.cards)|, lines)
      ensures old(player1.wins) <= player1.wins && old(player2.wins) <= player2.wins
    {
      ghost var flags := QuitFlags(lines);
      ghost var final := PlayFrom(State(), flags, 0, false);
      var quit := false;
      var next := 0;
      while |deck.cards| >= 2 && !quit
        invariant Valid()
        invariant PlayFrom(State(), flags, next, quit) == final
        decreases |deck.cards|
      {
        quit := ReadQuit(lines, next);
        PlayRound();
        next := next + 1;
      }
      PlayFromClosedForm(old(State()), flags, 0, false);
    }

    /** The body of the loop of `play_game` after the read: each player pops a
        card, player 1 first, and neither `unwrap` can fail since the guard left
        two cards; then the round is scored. */
    method PlayRound()
      requires Valid() && |deck.cards| >= 2
      modifies deck, player1, player2
      ensures Valid()
      ensures State() == Round(old(State()))
    {
      ghost var before := State();
      var drawn1 := deck.RemoveCard();
      var drawn2 := deck.RemoveCard();
      var card1 := drawn1.value;
      var card2 := drawn2.value;
      RoundKeepsDeck(before);
      assert deck.cards == Round(before).cards;
      if card1.rank > card2.rank {
        player1.wins := player1.wins + 1;
      } else {
        player2.wins := player2.wins + 1;
      }
    }

    /** `Game::winner`: player 1 iff they have more wins, player 2 iff they do,
        otherwise a tie; the count reported is the larger (or shared) one. */
    function Winner(): (o: Outcome)
      reads player1, player2
      ensures o.FirstWins? <==> player1.wins > player2.wins
      ensures o.SecondWins? <==> player1.wins < player2.wins
      ensures o.wins == Max(player1.wins, player2.wins)
    {
      if player1.wins > player2.wins then FirstWins(player1.wins)
      else if player1.wins < player2.wins then SecondWins(player2.wins)
      else Tie(player1.wins)
    }

    /** Once the whole deck is played out the 26 rounds are split between the
        players: a tie is 13 each, and a winner has at least 14. */
    lemma FinishedGame()
      requires Valid() && deck.cards == []
      ensures player1.wins + player2.wins == 26
      ensures Winner().Tie? ==> Winner().wins == 13
      ensures !Winner().Tie? ==> Winner().wins >= 14
    {
    }
  }
}
