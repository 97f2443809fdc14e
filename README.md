# Blackjack game-logic model

A Dafny model of the game-logic layer of the `casino` workspace. It covers three parts:

- **The lifecycle rule engine** (`blackjack` crate). `Rules` owns a history tree of `GameState` snapshots (`Generation`). Its four guarded transitions move the game through Starting → Playing → Done → Starting and seat players while Starting. Each accepted transition clones the current snapshot, changes one field and pushes the copy as a new branch of the root.
- **Cards** (`cards` crate): the range-checked `Card::new`, the `rank` and `value` mappings, the 52-card `Deck` and the multi-deck `Shoe`.
- **Hands** (`player` crate): a `Hand` and its `HandleCards` operations.

Files, one module per source file:

| file | module | models |
|---|---|---|
| `wrappers.dfy` | `Wrappers` | Rust's `Option` and `Result` |
| `card.dfy` | `Cards` | cards/src/card.rs, cards/src/error.rs |
| `has_cards.dfy` | `HasCards` | what `Deck` and `Shoe` share through the `HasCards` trait: `Vec::pop` and `SliceRandom::shuffle` |
| `deck.dfy` | `Decks` | cards/src/deck.rs |
| `shoe.dfy` | `Shoes` | cards/src/shoe.rs |
| `player.dfy` | `Players` | player/src/lib.rs |
| `game_state.dfy` | `GameStates` | blackjack/src/game_state.rs |
| `generation.dfy` | `Generations` | blackjack/src/generation.rs |
| `rules.dfy` | `GameRules` | blackjack/src/rules.rs, blackjack/src/error.rs |

Modelling choices:

- **History tree.** `Generation` is a datatype. Each node owns its children (`Vec<Box<Generation>>`) and nothing shares them, so value semantics loses no aliasing. `add_generation` is the function `AddGeneration`, which returns the extended node. `Rules` keeps the root in a field and stores the result back into it.
- **Clock.** `SystemTime::now()` is replaced by a logical clock, the `clock` field of `Rules`. The root gets stamp 0. Each accepted transition stamps its new node with the clock and then advances it. `Rules.Valid()` records that the stamps increase and stay below the clock.
- **Current branch.** `current_branch` uses `Iterator::max_by` over timestamps. On ties `max_by` keeps the *last* maximal element. `LatestIndex` folds in the same way, and `TiesGoToTheLast` states the tie rule.
- **Snapshot contents.** `GameState` stores the dealer's hand, each player's hand and the shoe as card sequences. `#[derive(Clone)]` deep-copies all of them, so a value copy is exact. `Hand`, `Deck` and `Shoe` are classes because their methods change their `cards` vector in place.
- **Shuffling.** The random generator behind `shuffle` becomes a parameter `draw: nat -> nat`. `HasCards.Shuffle` runs rand's Fisher–Yates walk with indices drawn from it. The contract promises only what the source promises: the result is a permutation.
- **Errors.** `RuleError` and `CardError` each have one constructor.
- **Integers.** `i32` is a subset type of `int`. Card values are `i32`, and the argument of `Shoe::new` is `i32`.

How the code builds the history and the default state:

- Each accepted transition adds its snapshot as a new leaf child of the **root** (`add_generation` is called on `self.generation`, blackjack/src/rules.rs:44,70,96,123). The root therefore has one branch per accepted operation, and the tree is one level deep; the crate's own test expects one branch after the first `add_player`. `Rules.Valid` and `CurrentIsNewest` state this shape.
- `Shoe::default` (and hence `GameState::default`) builds seven decks **without** shuffling them.
- `new_game` keeps the seated players (blackjack/src/rules.rs:120-123). The `NewGame` contract states this.
- `Generation::default` (blackjack/src/generation.rs:13-21) is `NewGeneration(DefaultGameState(), t)`, which is how the `Rules` constructor builds its root. `Progress::default` (blackjack/src/game_state.rs:21-25) is Starting, which `DefaultGameState().progress == Starting` states.

## Model

| member | source | states |
|---|---|---|
| `Cards.NewCard` | cards/src/card.rs:22-27 | succeeds exactly for values 1..=13; on success the card holds the given value and suit and is valid; on failure the error is `ValueOutOfRange` carrying the rejected value |
| `Cards.NewCardRoundTrip` | cards/src/card.rs:11-27 | every valid card is exactly what `Card::new` builds from its own value and suit |
| `Cards.DecimalString` | cards/src/card.rs:37 | `to_string` of a non-negative number is a digit string with no leading zero whose decimal value (`DigitsValue`) is the number; a negative number is `-` followed by such a string for its magnitude |
| `Cards.Rank` | cards/src/card.rs:31-39 | a valid card's rank is the name in the table Ace, 2, …, 10, Jack, Queen, King at its value |
| `Cards.RankDistinguishesValues` | cards/src/card.rs:31-39 | two valid cards have the same rank name if and only if they have the same value |
| `Cards.Value` | cards/src/card.rs:43-51 | a valid card's value lies in 1..10 and is 10 exactly for 10, Jack, Queen and King; values up to 10 count as themselves |
| `HasCards.Pop` | cards/src/deck.rs:29-31 | popping an empty pile gives None and leaves it empty; otherwise the remaining pile followed by the returned card is the old pile |
| `HasCards.PopAfterPush` | player/src/lib.rs:52-72 | `trash_card` after `recieve(c)` returns `c` and restores the earlier cards |
| `HasCards.Shuffle` | cards/src/deck.rs:38-41 | the shuffled pile has the same length and the same multiset of cards |
| `Decks.StandardDeck` | cards/src/deck.rs:16-25 | a fresh deck has 52 cards; the function is the independent layout (card i is value i mod 13 + 1 of the (i / 13)-th suit of Clubs, Diamonds, Hearts, Spades) that `StandardDeckBySuit` and `Deck.New` are proved against |
| `Decks.CollectCards` | cards/src/deck.rs:50-55 | collecting `Card::new` results succeeds exactly when every value is in 1..=13, giving the cards in order; otherwise it reports the first value out of range |
| `Decks.CreateCards` | cards/src/deck.rs:50-55 | `create_cards` never fails and yields the 13 cards Ace to King of the suit in ascending order |
| `Decks.StandardDeckAt` | cards/src/deck.rs:19-22 | card j of the k-th block of thirteen is value j + 1 of the k-th suit |
| `Decks.StandardDeckBySuit` | cards/src/deck.rs:16-25 | the layout equals the four `create_cards` results appended in suit order |
| `Decks.StandardDeckIsComplete` | cards/src/deck.rs:15-25 | a fresh deck holds every valid card exactly once |
| `Decks.Deck.New` | cards/src/deck.rs:16-25 | `Deck::new` never fails and yields the standard layout |
| `Decks.Deck.Default` | cards/src/deck.rs:44-48 | the default deck is the standard layout |
| `Decks.Deck.Deal` | cards/src/deck.rs:29-31 | `deal` pops the last card (None on an empty deck), as `Pop` specifies |
| `Decks.Deck.CardsLeft` | cards/src/deck.rs:33-35 | `cards_left` is the number of cards held |
| `Decks.Deck.Shuffle` | cards/src/deck.rs:38-41 | `shuffle` leaves a permutation of the old cards |
| `Shoes.RepeatLength` | cards/src/shoe.rs:15-17 | n stacked decks hold n times as many cards as one |
| `Shoes.RepeatAt` | cards/src/shoe.rs:15-17 | card j of the m-th stacked deck is card j of a fresh deck |
| `Shoes.DefaultShoeCards` | cards/src/shoe.rs:39-43 | the default shoe holds 364 cards |
| `Shoes.Shoe.New` | cards/src/shoe.rs:12-20 | `Shoe::new(n)` never fails and holds n fresh decks one after another, 52·n cards; none for n ≤ 0 |
| `Shoes.Shoe.Default` | cards/src/shoe.rs:39-43 | the default shoe is seven fresh decks, 364 cards, unshuffled |
| `Shoes.Shoe.Deal` | cards/src/shoe.rs:24-26 | `deal` pops the last card (None on an empty shoe) |
| `Shoes.Shoe.CardsLeft` | cards/src/shoe.rs:28-30 | `cards_left` is the number of cards held |
| `Shoes.Shoe.Shuffle` | cards/src/shoe.rs:33-36 | `shuffle` leaves a permutation of the old cards |
| `Players.Hand.constructor` | player/src/lib.rs:3-6 | a default hand holds no cards |
| `Players.Hand.NumberOfCards` | player/src/lib.rs:48-50 | `number_of_cards` is the length of `cards()` |
| `Players.Hand.Receive` | player/src/lib.rs:52-54 | `recieve(c)` appends `c` after the earlier cards, one card more |
| `Players.Hand.ShowCard` | player/src/lib.rs:56-58 | `show_card` is the first card, None exactly when the hand is empty |
| `Players.Hand.ShowHand` | player/src/lib.rs:60-62 | `show_hand` is the same sequence as `cards()` |
| `Players.Hand.Trash` | player/src/lib.rs:64-68 | `trash` returns every card in its original order and leaves the hand empty |
| `Players.Hand.TrashCard` | player/src/lib.rs:70-72 | `trash_card` pops the most recent card (None when empty), one card fewer |
| `GameStates.Display` | blackjack/src/game_state.rs:11-19 | every phase displays as a non-empty name |
| `GameStates.DisplayIsInjective` | blackjack/src/game_state.rs:11-19 | different phases display differently |
| `GameStates.DefaultGameState` | blackjack/src/game_state.rs:27-33 | the default snapshot is Starting with no players, an empty house hand and a 364-card shoe |
| `Generations.NewGeneration` | blackjack/src/generation.rs:28-34 | a new node has no branches and is its own current state |
| `Generations.AddGeneration` | blackjack/src/generation.rs:52-55 | one more branch, the new node at the end, earlier branches and the node's own state and stamp unchanged |
| `Generations.Branches` | blackjack/src/generation.rs:88-90 | `branches` gives the direct children, each holding a snapshot recorded in the tree |
| `Generations.NumberOfBranches` | blackjack/src/generation.rs:70-72 | `number_of_branches` equals the length of `branches()` |
| `Generations.LatestIndex` | blackjack/src/generation.rs:109-113 | the index picked has a maximal timestamp and every later child has a strictly smaller one: the last maximum |
| `Generations.CurrentBranch` | blackjack/src/generation.rs:109-113 | None exactly for a node without children; otherwise a child with the latest timestamp, the last such on ties |
| `Generations.CurrentState` | blackjack/src/generation.rs:133-139 | the current state is a snapshot stored in the tree (the recursion terminates); a childless node's is its own |
| `Generations.TiesGoToTheLast` | blackjack/src/generation.rs:109-113 | among children with equal timestamps the last one is current |
| `Generations.LatestOfIncreasing` | blackjack/src/generation.rs:109-113 | with increasing timestamps the last child added is current |
| `Generations.AddedBecomesCurrent` | blackjack/src/generation.rs:97-139 | a node added with a timestamp later than every child becomes the current branch and its state the current state |
| `GameRules.Apply` | blackjack/src/rules.rs:36-125 | the transition table: accepted exactly in the guard phase, otherwise `InvalidState` with the current phase; an accepted action sets the target phase, `add_player` appends one empty-handed player, the others keep the players, and house and shoe are untouched |
| `GameRules.LifecycleIsACycle` | blackjack/src/rules.rs:62-125 | in every phase exactly one of `start_playing`, `done_playing`, `new_game` is allowed |
| `GameRules.RunKeepsSeats` | blackjack/src/rules.rs:36-125 | after any run of accepted actions the earlier players stay seated in order, one is added per `add_player`, and the phase is the target of the last action |
| `GameRules.Rules.constructor` | blackjack/src/rules.rs:14-20 | a default engine has a root with no branches, whose default snapshot is current: Starting, no players |
| `GameRules.Rules.CurrentState` | blackjack/src/rules.rs:200-202 | the current state is a snapshot stored in the history |
| `GameRules.Rules.ExactlyOnePhase` | blackjack/src/rules.rs:136-187 | exactly one of `is_starting`, `is_playing`, `is_done` holds, the one naming `current_progress` |
| `GameRules.Rules.CurrentIsNewest` | blackjack/src/rules.rs:200-202 | the current state is the newest root branch's, or the root's own before any branch exists |
| `GameRules.Rules.Commit` | blackjack/src/rules.rs:44 | the new snapshot is pushed as the newest root branch with a fresh stamp and becomes current |
| `GameRules.Rules.AddPlayer` | blackjack/src/rules.rs:36-46 | succeeds iff Starting, else `InvalidState(current)` and nothing changes; on success one more player, still Starting, one more root branch |
| `GameRules.Rules.StartPlaying` | blackjack/src/rules.rs:62-72 | succeeds iff Starting, else `InvalidState(current)` and nothing changes; on success Playing with the same players |
| `GameRules.Rules.DonePlaying` | blackjack/src/rules.rs:88-98 | succeeds iff Playing, else `InvalidState(current)` and nothing changes; on success Done with the same players |
| `GameRules.Rules.NewGame` | blackjack/src/rules.rs:115-125 | succeeds iff Done, else `InvalidState(current)` and nothing changes; on success Starting with the players carried over |

`Rules.CurrentProgress`, `IsStarting`, `IsPlaying` and `IsDone` are the one-line queries of blackjack/src/rules.rs:136-187. `ExactlyOnePhase` states their properties. The `suit()` accessor (cards/src/card.rs:54-56) is the datatype destructor `Card.suit`, and `NewCard` says what it returns. `Hand.Cards` is `cards()` (player/src/lib.rs:44-46); `NumberOfCards` and `ShowHand` are specified through it. `DefaultRulesExample`, `SeatingExample`, `PlayingExample`, `LifecycleExample` and `DocumentedRoundExample` (after `SeatTwoPlayers`) replay, as a client of the contracts, the documented examples of blackjack/src/rules.rs (two players seated, then start, done and new game) and its unit tests (blackjack/src/rules.rs:213-257: no branches by default, one branch and one player after the first `add_player`, the phase moves and the refused `done_playing`).

## Left out

- The `Iterator for Rules` impl (blackjack/src/rules.rs:205-211) is `todo!()` and always panics, so it has no behaviour to model.
- game/src/main.rs is a UI launcher for a foreign framework and is not part of this model.
- Wall-clock time: `SystemTime::now()` is replaced by the logical clock of `Rules`. Clock skew and equal or out-of-order stamps from a coarse clock are not modelled. The tie rule of `max_by` is modelled (`TiesGoToTheLast`).
- Randomness: the thread-local generator of `shuffle` is the `draw` parameter. Nothing about the distribution of shuffles is modelled.
- `Generations.AddGeneration`: the in-place `Vec::push` on a node's children is modelled as a function that returns the extended node. The owner stores that node back. Children are uniquely owned, so no aliasing is lost.
- `GameStates.Display`: its contract says only that names are non-empty, and `DisplayIsInjective` says they differ. The exact strings "Starting", "Playing" and "Done" appear only in its body.
- `#[derive(Clone)]` on `GameState` and `#[derive(Clone, PartialEq)]` on `Progress`: Dafny datatypes are values, so a clone is equal to its original by construction. `GameState` has no equality in the source, and neither has `Card` (cards/src/card.rs:11 derives `Debug, Copy, Clone` only); the structural equality the model uses on them exists only in the model, as a tool for writing contracts.
- Four places in the source do not type-check as written, and the model follows what they evidently mean: the `PartialEq` derived on `Deck` (cards/src/deck.rs:9) over cards without equality, `InvalidState(self.current_progress())` passing a `&Progress` where a `Progress` is expected (blackjack/src/rules.rs:38,64,90,117), `#[derive(Debug)]` on `Generation` (blackjack/src/generation.rs:6) over a `GameState` without `Debug`, and the `Rules` default calling the private `Generation::new` from a sibling module (blackjack/src/rules.rs:17, blackjack/src/generation.rs:28), which the `Rules` constructor models as `NewGeneration(DefaultGameState(), 0)`.
- The `thiserror` message formats of `RuleError` and `CardError`, the `Debug` derives and `Box` allocation are library detail.
- `House` and `Player` (player/src/lib.rs:8-16) appear only as the hands they wrap. A snapshot stores them as card sequences, not as `Hand` objects.
- The `?` operators in `Deck::new` and `Shoe::new` can never fire, because `create_cards` never fails (`CreateCards`). The model therefore takes the success value directly and has no unreachable error branch. `Deck::default` and `Shoe::default` likewise `unwrap` a result that is always `Ok`.
- `usize` results (`cards_left`, `number_of_cards`, `number_of_branches`) are unbounded `nat`s. No count in the model comes near the `usize` limit.
