# KOLOR colour quiz: the round engine in Dafny

The `ColorGame` component shows a target colour and four swatches. The player
has five rounds of 40 seconds each to pick the swatch that matches. A correct
pick scores 10 points and ends the round. A wrong pick only says "Wrong". When
the clock runs out, the game says "Timeout" and moves on without scoring. The
best score is kept in the browser's storage. This project models the logic
under the React hooks as a sequential state machine and proves its
invariants.

- `colors.dfy`, module `Colors`: `generateRandomColor`, the `rgb(r, g, b)`
  string the component stores, and the string test `guess === rgbColor`.
  `Math.random` results are inputs (`Sample`, three reals in [0, 1)).
  `Encode` spells the string out digit by digit. `EncodeInjective` proves that
  two colours have equal strings exactly when their channels agree, so
  comparing strings is comparing colours.
- `options.dfy`, module `Options`: `generateColorOptions`. The `Set` seeded
  with the target is a sequence in insertion order. The `while (size < 4)` loop
  is `FillSet`, specified by the function `Collect`. `Array.from` creates an
  array. The `sort(() => Math.random() - 0.5)` call is `Shuffle`, which applies
  in place the exchanges a comparison sort makes. Those exchanges are an input.
- `game.dfy`, module `Game`: class `ColorGame`, which holds the state fields
  `rgbColor`, `options`, `feedback`, `timer`, `round`, `score`, `bestScore` and
  `gameOver`. The field `stored` stands for the `localStorage` entry. The
  methods are the mount, `resetRound`, `handleGuess`, the countdown interval,
  the timeout effect and the one-second feedback clear. Every state update
  runs as one serialized step. `Valid()` is the invariant every method keeps:
  - four distinct options that include the target;
  - 1 ≤ round ≤ 5;
  - 0 ≤ timer ≤ 400 tenths, and the timer is above 0 while the game runs;
  - game over only in round 5;
  - the score is a multiple of 10, at most 10 per finished round, and at most
    the best score once it is positive;
  - the best score always equals what storage would load.

The timer counts tenths of a second (400 at a round start). Each round's
randomness is one `RoundDice` value: the target's sample, the draws for the
option loop and the shuffle's exchanges.

## Model

| member | source | states |
|---|---|---|
| Colors.RandomChannel | src/App.js:23-25 | `Math.floor(u * 256)` for u in [0, 1) lies in 0..255 and is the floor of u·256 |
| Colors.RandomColor | src/App.js:22-27 | each channel of a generated colour is the floor of its sample times 256, so it is in 0..255 |
| Colors.DigitsRoundTrip | src/App.js:26 | the decimal text of a channel is a non-empty run of digits that reads back as the same number |
| Colors.EncodeInjective | src/App.js:26 | two colours have the same `rgb(r, g, b)` string if and only if they are equal |
| Colors.IsMatch | src/App.js:68 | the string comparison of a guess with the target is true exactly when the colours are equal |
| Options.CollectDistinct | src/App.js:31-34 | the Set never holds a duplicate, keeps the target first, and gains only drawn colours: a repeated draw is absorbed |
| Options.CollectFull | src/App.js:32-34 | when the draws offer enough distinct colours, the loop stops with exactly four |
| Options.FillSet | src/App.js:31-34 | the loop's result is the insertion-ordered Set contents: four distinct colours with the target first |
| Options.ApplySwapsPermutes | src/App.js:35 | the shuffle keeps the length and the multiset of colours: nothing is added or dropped |
| Options.ApplySwapsDistinct | src/App.js:35 | the shuffle keeps distinct colours distinct |
| Options.Shuffle | src/App.js:35 | the in-place sort leaves the array equal to the exchanges applied to its old contents |
| Options.GenerateOptions | src/App.js:30-35 | four pairwise-distinct options; the target occurs exactly once; every other option is a draw; the result is a permutation of the Set contents |
| Game.ColorGame.constructor | src/App.js:9-19 | mount state: a target with valid options, timer 40 s, round 1, score 0, best score loaded from storage (0 if it does not parse); the invariant holds |
| Game.ColorGame.ResetRound | src/App.js:47-62 | below round 5: a new target and options, timer reset to 40 s, round + 1; at round 5: game over, round stays 5; score and best score unchanged; the invariant holds |
| Game.ColorGame.HandleGuess | src/App.js:65-84 | after game over nothing changes; a correct guess sets Correct, adds exactly 10, overwrites the best and stored score only when strictly beaten, then advances the round; a wrong guess sets Wrong and changes nothing else; score and best never decrease |
| Game.ColorGame.TimeoutEffect | src/App.js:101-107 | at timer 0 it sets Timeout and advances the round without scoring; above 0 it changes nothing |
| Game.ColorGame.Tick | src/App.js:87-98 | after game over nothing changes; otherwise the timer drops by one tenth and never goes below 0; the tick that reaches 0 fires the timeout exactly once, with the same round advance and no score |
| Game.ColorGame.ClearFeedback | src/App.js:52-55 | the delayed callback blanks the feedback and keeps the invariant |

## Left out

- JSX rendering, styles, the logo and `feedbackClass`. `feedbackClass` always changes together with `feedback`, which the model keeps as one of Blank, Correct, Wrong and Timeout.
- Browser storage is a plain field. The load is an `Option<int>`: `None` is text that `parseInt` cannot read. `|| 0` keeps any parsed value, a negative one included. So `score <= bestScore` is stated only once the score is positive.
- `Math.random` and the shuffle's distribution. Samples and exchanges are inputs. The model cannot state that the shuffle is uniform, and the source's sort-based shuffle is not.
- Termination of the option loop on an endless random stream. The draws are a finite sequence that must hold enough distinct colours (`EnoughDraws`). The source loop ends with probability 1.
- Floating-point drift from subtracting 0.1 repeatedly. The timer counts whole tenths.
- `setInterval`/`setTimeout` scheduling, the 10 ms cadence and React's effect ordering. Every interval tick, effect run and delayed feedback clear is one atomic step. A guess and a timeout cannot race.
- The unused constants `INITIAL_TIMER`, `MAX_ROUNDS` and `SCORE_INCREMENT` (src/App.js:4-6) have the same values as the literals the code uses. The model keeps them as `InitialTimer` (in tenths), `MaxRounds` and `ScoreIncrement`.
