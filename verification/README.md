# FutureSight deck and round engine, in Dafny

FutureSight estimates how many extra cards a "conditional future sight" effect
(Oracle of Mul Daya and the like) lets a player play per round. The player may
play the top card of the library if it has a given quality. Optionally, the
player may scry past cards without it: look at the top card and put it on the
bottom. This project models the engine that drives one such game:

- the deck (`MagicDeck`: a list of frozen `MagicCard`s whose last element is the
  top) and its in-place operations;
- `create_m_n_deck`, which builds an m-of-n deck;
- `fs_round_action`, the per-round play/scry loop with its two budgets;
- `simulate_fs_game`, the game loop: initial-hand discard, one normal draw per
  round, an optional round cap, and the extra plays of each round;
- the small party-composition helper: `hw` (Hamming weight), the `_cw_weight`
  table, the class-member bit constants, and `pm_reduce`.

Layout: `types.dfy` (module `Types`), `simulation.dfy` (module `Simulation`) and
`partycm.dfy` (module `PartyCm`), one per source file.

- `MagicDeck` is a class. Its `cards: seq<MagicCard>` field is reassigned by
  methods with `modifies this`, and each method states the new deck as a
  function of the old one.
- Those functions (`AddedCards`, `MovedToBottom`, `Scried`) take a `BuryRule`.
  `AsWritten` is the code's behaviour. `Intended` is the behaviour the
  docstrings describe: `add_cards` with an `else`. The class and
  `SimulateFsGame` use `AsWritten`. The `Intended` rule carries the correction
  of the findings below.
- The loops of `fs_round_action` and `simulate_fs_game` are methods. Their loop
  invariants tie them to tail-recursive specification functions (`RoundLoop`,
  `Discard`, `PlayRounds`). The lemmas state the properties of those functions.
- Exceptions are values of `Result<T>`: `EmptyDeckException`, `ValueError` and
  `ZeroDivisionError`.
- The average `virtual_draws / real_rounds` is an exact `real`. When no round
  was played, the code divides by zero without a guard. The model returns
  `Err(ZeroDivisionError)` in that case; it does not return an average of 0.
- `hw` reads `x & 1` as `x % 2` and `x >> 1` as `x / 2`. The two agree for
  the positive `x` on which the loop body runs.
- The class-member constants are 4-bit vectors, so `|` is a bitwise OR as in
  the source.

## Model

| member | source | states |
|---|---|---|
| `Types.AddedCards` | futuresight/futuresight/types.py:43-47 | without `to_bottom` the card is appended on top; with it the card is at index 0 with the old cards above it in order; as written the deck grows by 2 and the card is on top as well, as intended it grows by 1 |
| `Types.MovedToBottom` | futuresight/futuresight/types.py:59-64 | a deck of size at most 1 is unchanged; otherwise the former top is at index 0 and the other cards keep their order above it; as written the deck grows by one and the former top stays on top too, as intended the size is kept |
| `Types.Scried` | futuresight/futuresight/types.py:72-84 | the deck is unchanged unless it has two or more cards and the top lacks the quality, in which case the top is buried; as written, the deck changes exactly when `scry1` reports a move |
| `Types.MoveToBottomDuplicatesTop` | futuresight/futuresight/types.py:59-64 | as written, `move_to_bottom` on two or more cards turns `rest + [t]` into `[t] + rest + [t]`: the former top is counted twice, so the cards are not conserved |
| `Types.MoveToBottomIntendedConserves` | futuresight/futuresight/types.py:59-64 | with the `else`, `move_to_bottom` keeps the size and the multiset of cards and is a rotation `[t] + rest` |
| `Types.MagicDeck.constructor` | futuresight/futuresight/types.py:30-37 | the deck holds exactly the given cards |
| `Types.MagicDeck.Decksize` | futuresight/futuresight/types.py:39-41 | returns the number of cards and changes nothing |
| `Types.MagicDeck.AddCards` | futuresight/futuresight/types.py:43-47 | the new deck is `cards + [c]`, or `[c] + cards + [c]` when `to_bottom` is set |
| `Types.MagicDeck.Shuffle` | futuresight/futuresight/types.py:49-51 | the deck becomes the given permutation of its cards (same multiset) |
| `Types.MagicDeck.ObserveACard` | futuresight/futuresight/types.py:53-57 | an empty deck gives `EmptyDeckException`; otherwise the top card, with the deck unchanged |
| `Types.MagicDeck.MoveToBottom` | futuresight/futuresight/types.py:59-64 | the new deck is the as-written `MovedToBottom` of the old one; on two or more cards it grows by one |
| `Types.MagicDeck.PlayACard` | futuresight/futuresight/types.py:66-70 | an empty deck gives `EmptyDeckException` and is unchanged; otherwise the top card is returned and removed |
| `Types.MagicDeck.Scry1` | futuresight/futuresight/types.py:72-84 | returns true exactly when the deck has two or more cards and the top lacks the quality; the new deck is the as-written `Scried` of the old one |
| `Simulation.MNDeck` | futuresight/futuresight/simulation.py:7-18 | `ValueError` exactly when m > n; otherwise the deck of the two comprehensions: `n - min(m, 0)` cards, the card at index i has id `i + min(m, 0)` and the quality exactly when that id is in `0..m-1` |
| `Simulation.MNDeckComposition` | futuresight/futuresight/simulation.py:14-18 | for 0 <= m <= n the deck has n cards, exactly m with the quality; m = n = 0 gives the empty deck |
| `Simulation.CreateMNDeck` | futuresight/futuresight/simulation.py:7-18 | `ValueError` exactly when m > n; otherwise a fresh deck holding `MNDeck(m, n)` |
| `Simulation.RoundLoop` | futuresight/futuresight/simulation.py:25-41 | the reference definition of the round loop (play a quality top card, else scry while scries remain, else stop), which `FsRoundAction` is proved equal to; it stops only on an empty deck, an exhausted play budget, or a non-quality top card with no scry left |
| `Simulation.RoundAction` | futuresight/futuresight/simulation.py:21-42 | `fs_round_action` as a function: the round loop started from budgets `round_max` and `scry_max` with nothing played; it plays between 0 and `max(round_max, 0)` cards |
| `Simulation.RoundLoopBudgets` | futuresight/futuresight/simulation.py:25-41 | the round plays between 0 and `max(round_max, 0)` cards, each play spends one unit of `avail_cards`, and at most `max(scry_max, 0)` scries are taken |
| `Simulation.RoundLoopPlaysOnlyQuality` | futuresight/futuresight/simulation.py:28-34 | every card the round removes had the quality, one per counted play |
| `Simulation.RoundLoopSize` | futuresight/futuresight/simulation.py:28-41 | without scries, or with burying as intended, deck size plus plays is conserved; as written each scry may add one card |
| `Simulation.RoundLoopWithoutScries` | futuresight/futuresight/simulation.py:28-41 | with `scry_max <= 0` the round plays exactly `min(max(round_max, 0), run of quality cards on top)` cards |
| `Simulation.RoundLoopWithoutScriesKeepsRest` | futuresight/futuresight/simulation.py:28-41 | with `scry_max <= 0` the played cards are the top ones and the rest of the deck is unchanged |
| `Simulation.FsRoundAction` | futuresight/futuresight/simulation.py:21-42 | the loop leaves the deck and count given by `RoundAction`; the count is in `0..max(round_max, 0)`; without scries the deck shrinks by exactly the count |
| `Simulation.PlayRounds` | futuresight/futuresight/simulation.py:70-76 | the reference definition of the game loop (one normal draw per round, stop once the count passes the cap, else add the round's extra plays), which `PlayGame` is proved equal to; a non-empty deck plays at least one round, an empty deck none, and the counters never decrease |
| `Simulation.SimulatedGame` | futuresight/futuresight/simulation.py:45-78 | the reference definition of `simulate_fs_game` on the shuffled deck, which `SimulateFsGame` is proved equal to; `ValueError` exactly when m > n, and on success at least one round with `dpr * rounds == virtual_draws` |
| `Simulation.Discard` | futuresight/futuresight/simulation.py:64-69 | the initial-hand phase removes `min(max(init_hand_size, 0), decksize)` cards from the top and nothing else |
| `Simulation.DiscardInitialHand` | futuresight/futuresight/simulation.py:64-69 | the discard loop leaves the deck given by `Discard`; every `play_a_card` it makes succeeds, so it never raises |
| `Simulation.PlayGame` | futuresight/futuresight/simulation.py:70-76 | the round loop ends with the counters given by `PlayRounds`; it stops with an empty deck, or with a cap c and exactly `max(c, 0) + 1` rounds counted, so the game goes on until the cap is passed or the deck is empty |
| `Simulation.SimulateFsGame` | futuresight/futuresight/simulation.py:45-78 | the outcome is `SimulatedGame` of the shuffled deck; `ValueError` exactly when m > n |
| `Simulation.GameFailsExactlyWhenHandTakesDeck` | futuresight/futuresight/simulation.py:64-77 | the game raises `ZeroDivisionError` exactly when m <= n and the initial hand took the whole deck; otherwise rounds >= 1 and the average is the exact quotient |
| `Simulation.PlayRoundsCapped` | futuresight/futuresight/simulation.py:70-76 | with cap c, from any counters, at most `max(c, rounds) + 1` rounds are counted and at most `round_max` extra cards per round below the cap |
| `Simulation.CappedGameBounds` | futuresight/futuresight/simulation.py:70-76 | with cap c a game counts at most `max(c, 0) + 1` rounds and plays at most `max(c, 0) * max(round_max, 0)` extra cards: the round past the cap plays none |
| `Simulation.PlayRoundsConservesCards` | futuresight/futuresight/simulation.py:70-76 | with no cap, and without scries or with burying as intended, rounds plus extra plays equal the cards in the deck |
| `Simulation.GameCountsEveryCard` | futuresight/futuresight/simulation.py:60-78 | with no cap, and without scries or with burying as intended, an m-of-n game ends with `discarded + rounds + virtual_draws == n`, or raises `ZeroDivisionError` when the hand took every card |
| `Simulation.AllQualityRounds` | futuresight/futuresight/simulation.py:70-76 | an all-quality deck with one play and no scry per round plays `ceil(size / 2)` rounds and `floor(size / 2)` extra cards |
| `Simulation.AllQualityGame` | futuresight/futuresight/simulation.py:60-78 | an n-card all-quality game with `round_max = 1`, `scry_max = 0` and no cap gives `ceil(n / 2)` rounds and `floor(n / 2)` extra plays; n = 4 gives 2 rounds, 2 extra plays, average 1 |
| `Simulation.ScryGameCycles` | futuresight/futuresight/simulation.py:70-76 | as written, three non-quality cards with `round_max = 1`, `scry_max = 1` reach a 3-card deck after one round, then alternate between two 3-card decks |
| `Simulation.ScryCycleReachesCap` | futuresight/futuresight/simulation.py:70-76 | from either deck of that cycle, the capped loop runs until the cap is exceeded and plays nothing |
| `Simulation.ScryGameReachesEveryCap` | futuresight/futuresight/simulation.py:60-78 | as written, that game with cap c counts c + 1 rounds for every c, so without a cap its loop never ends |
| `Simulation.IntendedScryRounds` | futuresight/futuresight/simulation.py:70-76 | with burying as intended, each round of that game shrinks the deck by one |
| `Simulation.IntendedScryGameEnds` | futuresight/futuresight/simulation.py:60-78 | with burying as intended, that game ends uncapped after 3 rounds with no extra play |
| `PartyCm.Popcount` | futuresight/futuresight/partycm.py:28-34 | the reference definition `(x & 1) + hw(x >> 1)` that the `hw` loop is proved equal to; a positive x has weight between 1 and x |
| `PartyCm.Hw` | futuresight/futuresight/partycm.py:28-34 | the loop returns the number of 1 bits of x, and 0 for every x <= 0 |
| `PartyCm.PopcountBound` | futuresight/futuresight/partycm.py:28-34 | a number below 2^k has Hamming weight at most k |
| `PartyCm.PopcountAddHighBit` | futuresight/futuresight/partycm.py:28-34 | setting a bit above all bits of x adds exactly one to its weight; from 0 this gives the weight 1 of every single bit |
| `PartyCm.PopcountIsMembers` | futuresight/futuresight/partycm.py:10-25 | the weight of a 4-bit member set is the number of the classes F, R, W, C it contains |
| `PartyCm.PopcountDisjointOr` | futuresight/futuresight/partycm.py:10-25 | for member sets with no class in common, `hw(a \| b) == hw(a) + hw(b)` |
| `PartyCm.CwWeight` | futuresight/futuresight/partycm.py:37-38 | the table has 16 entries, each in 0..4 |
| `PartyCm.CwWeightValues` | futuresight/futuresight/partycm.py:37-38 | the table is `hw(0..15)`: 0,1,1,2,1,2,2,3,1,2,2,3,2,3,3,4 |
| `PartyCm.MemberWeights` | futuresight/futuresight/partycm.py:10-25 | the constants are the ORs of bits 1, 2, 4, 8 they name (`_FRWC = 15`); the weight of each is its number of letters, derived from the single-bit weights and the disjoint-OR lemma |
| `PartyCm.PmReduce` | futuresight/futuresight/partycm.py:41-46 | both branches return the list unchanged |

## Left out

- Randomness. `shuffle` and `create_m_n_deck` use numpy generators. The model
  takes the permutation the generator chose as a parameter, constrained to have
  the same multiset of cards. Seeds and reproducibility are not modelled.
- The `rng=` keyword passed to `MagicDeck` (simulation.py:15,18) and the
  argument-less `deck.shuffle()` (simulation.py:61) do not match `MagicDeck`'s
  single field and `shuffle(self, rng)`. Run literally, they raise `TypeError`.
  The model builds the deck from its cards and shuffles it with the chosen
  permutation.
- `FSGameOutcome.virtual_draws` is declared `list[int]`, but the code stores
  the integer total. The model stores the integer.
- Floating point: `dpr` is the exact quotient as a `real`.
- `MagicCard.unique_qual` and `cmc` are carried with their defaults but never
  used, as in the source.
- `simulate_n_fs_games`, the batch driver, is not part of this model. Its body
  is not in simulation.py.
- `_cli.py` (argument parsing, printing) and `__init__.py` (re-exports) are I/O
  and packaging.
- `Simulation.SimulateFsGame`: requires a round cap whenever `scry_max >= 1`
  and m <= n. The code accepts such a game, but as written its loop may never
  end (see Findings). `Simulation.PlayGame`, `Simulation.PlayRounds` and
  `Simulation.SimulatedGame` carry the same precondition; with the `Intended`
  rule no cap is needed.
- `Simulation.CappedGameBounds`: bounds the extra plays by
  `max(c, 0) * max(round_max, 0)` instead of counting `fs_round_action` calls,
  because the tally keeps no call count.
- `PartyCm.Hw`: models `x & 1` and `x >> 1` as `x % 2` and `x / 2`, which is
  exact only for the positive x on which the loop body runs.

## Findings

| source | as written | input that shows it | evidently intended | confidence | as-written member | corrected member |
|---|---|---|---|---|---|---|
| futuresight/futuresight/types.py:43-47 | `add_cards(c, to_bottom=True)` inserts c at index 0 and then appends it too, because the append has no `else`; so `move_to_bottom` duplicates the top card | a deck `[c0, c1]` with `c1` on top: `move_to_bottom` gives `[c1, c0, c1]` | the card goes only to the bottom, so `move_to_bottom` rotates the deck and conserves its cards | high; not executed | `Types.MoveToBottomDuplicatesTop` | `Types.MoveToBottomIntendedConserves` |
| futuresight/futuresight/simulation.py:70-76 | with no round cap and `scry_max >= 1`, every scry adds a card, so the `while decksize() > 0` loop can run forever | m = 0, n = 3, round_max = 1, scry_max = 1, rounds = None, deck left in creation order | the game ends once the deck is used up (after three rounds for this deck), and every card is discarded, drawn or played | high; not executed | `Simulation.ScryGameReachesEveryCap` | `Simulation.GameCountsEveryCard` |
