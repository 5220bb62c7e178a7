# War, modelled in Dafny

A model of the "War" card game engine in `src/main.rs`. A standard deck of 52
cards (ranks 2..14, suits 0..3) is built in order and shuffled. Two players,
"A" and "B", then play rounds. In each round one line of input is read and
trimmed; player 1 pops the last card of the deck and player 2 the next one;
player 1 takes the round only with a strictly higher rank. The loop stops when
fewer than two cards remain, or when the response read in the previous round
was "q". `winner` compares the two win counters.

Files:

- `prelude.dfy` (module `Prelude`): the parts of Rust's standard library the
  game uses: `u8` and `i32` as bounded integer types, `Option`, `Ordering`,
  integer comparison, and `str::trim` with `char::is_whitespace`.
- `cards.dfy` (module `Cards`): `Card`, its `Ord`/`PartialOrd`, and the
  standard deck in the order `Deck::new` builds it.
- `deck.dfy` (module `Decks`): the `Deck` class over a `seq<Card>`, the nested
  loops of `Deck::new`, the shuffle, and `remove_card`.
- `game.dfy` (module `Games`): `Player`, the `Game` class, the round loop of
  `play_game` and `winner`.

The round loop is a method on the `Game` class that changes the deck and the
two counters in place. It is proved against `PlayFrom`, a function on a value
`Table` (the cards left and the two counters) that plays the same rounds. The
properties of the game are lemmas about `PlayFrom`, `RoundsFrom` and
`FirstTally`:

- each round takes the last two cards;
- the counters add up to the rounds played;
- the round that read "q" is still played;
- the number of rounds in closed form.

## Model

| member | source | states |
|---|---|---|
| `Cards.Compare` | `src/main.rs:16-24` | `Equal` exactly when the cards are equal (the derived `Eq`); `Less`/`Greater` exactly when the rank is lower/higher, or the ranks agree and the suit is lower/higher |
| `Cards.PartialCompare` | `src/main.rs:26-30` | always `Some`; `Equal` exactly on equal cards, `Less` exactly when `cmp` with the operands swapped gives `Greater` |
| `Cards.CompareIsTotalOrder` | `src/main.rs:16-24` | the card order is reflexive, antisymmetric, transitive and total, and swapping the operands reverses the answer |
| `Cards.StandardIndex` | `src/main.rs:40-42` | card `(i, j)` of a standard deck sits at position `4 * (i - 2) + j` of the ordered deck |
| `Cards.StandardDeck` | `src/main.rs:38-44` | the ordered deck has 52 cards, exactly the cards with rank 2..14 and suit 0..3, each once, in ascending `cmp` order |
| `Cards.PermutedStandard` | `src/main.rs:46-49` | any permutation of the standard deck is 52 distinct cards, exactly the standard ones |
| `Cards.Standard` | `src/main.rs:39-44` | the deck before the shuffle has 52 cards, from rank 2 suit 0 first to rank 14 suit 3 last; `StandardDeck` states the rest |
| `Decks.BuildOrdered` | `src/main.rs:39-44` | the nested `for` loops push exactly the ordered standard deck |
| `Decks.Shuffle` | `src/main.rs:46-47` | whatever indices the random source draws, the shuffle returns a permutation of its input |
| `Decks.Deck.constructor` | `src/main.rs:38-50` | `Deck::new` holds a permutation of the standard deck: 52 distinct cards, exactly those with rank 2..14 and suit 0..3 |
| `Decks.Deck.RemoveCard` | `src/main.rs:52-54` | on a non-empty deck returns the last card and leaves the rest; on an empty deck returns `None` and changes nothing |
| `Prelude.Trim` | `src/main.rs:95` | `str::trim` never lengthens the line and leaves a line that starts and ends with non-whitespace as it is; `TrimDropsBothEnds` characterises it |
| `Prelude.SkipStartSkipsWhitespace` | `src/main.rs:95` | trimming the front passes over whitespace only and stops at a non-whitespace character or the end |
| `Prelude.SkipEndSkipsWhitespace` | `src/main.rs:95` | trimming the back passes over whitespace only and stops after a non-whitespace character or at the start |
| `Prelude.SkipStartStops` | `src/main.rs:95` | a run of whitespace followed by a non-whitespace character is exactly what trimming the front drops |
| `Prelude.SkipEndStops` | `src/main.rs:95` | a run of whitespace preceded by a non-whitespace character is exactly what trimming the back drops |
| `Prelude.TrimDropsBothEnds` | `src/main.rs:95` | `trim` returns the slice of the line left once leading and trailing whitespace are dropped, and that slice neither starts nor ends with whitespace |
| `Prelude.TrimQuitLine` | `src/main.rs:94-95` | a line holding "q" with any whitespace around it, such as the newline `read_line` keeps, trims to exactly "q" |
| `Games.ReadQuit` | `src/main.rs:93-95` | the read at the top of a round tells whether line `k` trims to "q"; past the end of input the buffer stays empty, which is not "q" |
| `Games.RoundWinner` | `src/main.rs:102-108` | player 1 takes the round only when its card is `Greater` under `cmp`, never on equal ranks; `RoundWinnerByRank` gives the exact rule |
| `Games.Round` | `src/main.rs:96-108` | one round on the cards and counters: two cards leave the deck and the counters together gain exactly one win |
| `Games.PlayFrom` | `src/main.rs:92-109` | the loop on values: a round is played while two cards remain and the response read in the round before was not "q"; the next response is line `k`, or "" past the end of input; `PlayFromClosedForm` gives the state it ends in |
| `Games.RoundWinnerByRank` | `src/main.rs:102-108` | player 1 takes the round iff its rank is strictly higher; equal ranks go to player 2 whatever the suits; this differs from `cmp` exactly on equal ranks where player 1 has the higher suit |
| `Games.FirstTally` | `src/main.rs:102-108` | of `r` rounds, player 1 takes at most `r` |
| `Games.RoundKeepsDeck` | `src/main.rs:96-108` | a round removes exactly two cards and nothing else, keeps the remaining cards distinct, and raises exactly one counter, by one |
| `Games.RoundsFrom` | `src/main.rs:92` | the loop plays at most half as many rounds as there are cards, and it plays at least one round iff two cards remain and the previous response was not "q" |
| `Games.NextQuit` | `src/main.rs:92-95` | finds the first line at or after `k` that trims to "q", or reports that none of the remaining lines do |
| `Games.RoundsFromQuit` | `src/main.rs:92-97` | the number of rounds is `n / 2` when no line is "q", and otherwise `min(n / 2, j - k + 1)`, which counts the round that read "q" |
| `Games.PlayFromCards` | `src/main.rs:92-109` | the `r` rounds played take exactly the last `2 * r` cards off the deck |
| `Games.PlayFromWins` | `src/main.rs:96-108` | of the `r` rounds played, player 1 gains the `FirstTally` it won and player 2 the other `r - FirstTally` |
| `Games.PlayFromClosedForm` | `src/main.rs:92-109` | `r` rounds leave the deck minus its last `2 * r` cards; player 1 gains `FirstTally` wins and player 2 the rest of the `r` |
| `Games.Player.constructor` | `src/main.rs:63-68` | a new player has the given name and 0 wins |
| `Games.Game.ValidDeck` | `src/main.rs:92-108` | throughout a game the deck length is even and at most 52, and the counters add up to `(52 - cards left) / 2` |
| `Games.Game.constructor` | `src/main.rs:78-87` | a new game has a permuted standard deck, players "A" and "B" with no wins, and `winner` reports a tie at 0 |
| `Games.Game.PlayRound` | `src/main.rs:96-108` | one round of the loop body: both `unwrap`s succeed, the new deck and counters are those of `Round`, and the game invariant is kept |
| `Games.Game.PlayGame` | `src/main.rs:89-110` | the game ends in the state `PlayFrom` gives: the deck is its old self minus the last `2 * r` cards for the `r` rounds played; the counters gain `r` in total, player 1 the rounds it won and player 2 the others; neither counter decreases |
| `Games.Game.Winner` | `src/main.rs:112-120` | player 1 iff it has more wins, player 2 iff it has fewer, otherwise a tie; the count reported is the larger (or shared) one |
| `Games.Game.FinishedGame` | `src/main.rs:102-119` | once the deck is played out the 26 rounds are split: a tie is 13 wins each, and a winner has at least 14 |

## Left out

- The randomness of `cards.shuffle(&mut thread_rng())`. `Shuffle` and the
  `Deck` and `Game` constructors take the drawn indices as a parameter `picks`,
  with the one thing the random source guarantees (`picks[i] <= i`). No claim is
  made about the distribution.
- `Decks.Shuffle`: modelled as Fisher–Yates on a `seq` value, not as the
  in-place swap on the `Vec`. The order of the draws is not tied to a particular
  `rand` version. Only the permutation property is stated.
- Standard input. `PlayGame` takes the input as a sequence of lines. Past its
  end, `read_line` returns `Ok(0)` and leaves the cleared buffer empty, so the
  response is "" and play continues. Read errors (an I/O error, or
  input that is not valid UTF-8, which makes `unwrap` panic) are not modelled.
- `Games.Game.PlayGame`: the loop keeps whether the last response was "q"
  instead of the response string itself. The guard looks at nothing else, so
  the rounds played are the same.
- All `println!` output, including the `Debug` form of the drawn cards, and
  the wording that `format!` gives the result of `winner`. `Winner` returns
  which outcome occurred and the count it reports.
- `main` and the process around it.
- `Card::new` is the `Card` datatype constructor.
- The `i32` counters are a bounded subtype. The game invariant keeps them at
  26 or below, so `+= 1` cannot overflow.
