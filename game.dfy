/** The round engine of the `ColorGame` component: its state fields, the guess
    handler, the round reset, the countdown and the timeout reaction. Each
    React state update and each effect run is one serialized step. */
module Game {
  import opened Colors
  import opened Options

  /** Seconds on the clock at the start of a round, in tenths (40 s). */
  const InitialTimer := 400
  const MaxRounds := 5
  const ScoreIncrement := 10

  /** The feedback line; the text and its CSS class always change together. */
  datatype Feedback = Blank | Correct | Wrong | Timeout

  datatype Option<T> = None | Some(value: T)

  /** `parseInt(localStorage.getItem("bestScore")) || 0`: a stored value that
      does not parse (None) reads as 0; a parsed value is taken as it is. */
  function LoadedBest(stored: Option<int>): int {
    match stored
    case None => 0
    case Some(v) => v
  }

  /** The random numbers one new round consumes: the target's sample, the
      draws of the option loop and the exchanges of the shuffle. */
  datatype RoundDice = RoundDice(target: Sample, draws: seq<Sample>, swaps: seq<Swap>)

  /** `Math.random` only yields values in [0, 1), and (with probability one)
      the draws eventually hold enough distinct colours. */
  predicate Supplied(d: RoundDice) {
    UnitSample(d.target) && AllUnit(d.draws)
    && EnoughDraws(RandomColor(d.target), d.draws)
    && SwapsWithin(d.swaps, OptionCount)
  }

  class ColorGame {
    var rgbColor: Color
    var options: seq<Color>
    var feedback: Feedback
    /** Remaining time in tenths of a second. */
    var timer: nat
    var round: int
    var score: int
    var bestScore: int
    /** What `localStorage` holds under "bestScore", as `parseInt` reads it. */
    var stored: Option<int>
    var gameOver: bool

    /** The invariants that hold between any two state updates. */
    ghost predicate Consistent()
      reads this
    {
      OptionsOk(rgbColor, options)
      && 1 <= round <= MaxRounds
      && timer <= InitialTimer
      && (gameOver ==> round == MaxRounds)
      && 0 <= score && score % ScoreIncrement == 0
      && (score == 0 || score <= bestScore)
      && bestScore == LoadedBest(stored)
    }

    /** At most one correct guess per finished round. */
    ghost predicate Scored()
      reads this
    {
      score <= ScoreIncrement * (if gameOver then round else round - 1)
    }

    /** The invariant of every state the player can see: a running round
        always has time left, so a timeout fires once per round. */
    ghost predicate Valid()
      reads this
    {
      Consistent() && Scored() && (!gameOver ==> timer > 0)
    }

    /** The round advance performed by `resetRound`, relating the state
        before to the state after (the clock after game over is stated by
        each caller, since a timeout stops it at zero). */
    twostate predicate RoundAdvanced(dice: RoundDice)
      reads this
    {
      Supplied(dice)
      && if old(round) < MaxRounds then
           rgbColor == RandomColor(dice.target)
           && options == OptionsFor(rgbColor, dice.draws, dice.swaps)
           && timer == InitialTimer && round == old(round) + 1
           && gameOver == old(gameOver)
         else
           gameOver && round == old(round)
           && rgbColor == old(rgbColor) && options == old(options)
    }

    /** Mounting the component: a first target and its options, a full clock,
        round 1, score 0, and the best score read from storage. */
    constructor (loaded: Option<int>, dice: RoundDice)
      requires Supplied(dice)
      ensures Valid()
      ensures rgbColor == RandomColor(dice.target)
      ensures options == OptionsFor(rgbColor, dice.draws, dice.swaps)
      ensures feedback == Blank && timer == InitialTimer && round == 1
      ensures score == 0 && bestScore == LoadedBest(loaded) && stored == loaded
      ensures !gameOver
    {
      var c := RandomColor(dice.target);
      var opts := GenerateOptions(c, dice.draws, dice.swaps);
      rgbColor, options := c, opts;
      feedback, timer, round := Blank, InitialTimer, 1;
      score, bestScore, stored := 0, LoadedBest(loaded), loaded;
      gameOver := false;
    }

    /** `resetRound`: below the last round, a new target and options, a full
        clock and the next round; at the last round, game over. */
    method ResetRound(dice: RoundDice)
      requires Consistent() && score <= ScoreIncrement * round && Supplied(dice)
      modifies this
      ensures Valid()
      ensures RoundAdvanced(dice)
      ensures gameOver ==> timer == old(timer)
      ensures feedback == old(feedback) && score == old(score)
      ensures bestScore == old(bestScore) && stored == old(stored)
    {
      if round < MaxRounds {
        var c := RandomColor(dice.target);
        var opts := GenerateOptions(c, dice.draws, dice.swaps);
        rgbColor, options := c, opts;
        timer := InitialTimer;
        round := round + 1;
      } else {
        gameOver := true;
      }
    }

    /** `handleGuess`: ignored after game over; a correct guess scores 10,
        raises the best score only when beaten, and advances the round; a
        wrong guess changes the feedback and nothing else. */
    method HandleGuess(guess: Color, dice: RoundDice)
      requires Valid() && Supplied(dice)
      modifies this
      ensures Valid()
      ensures old(gameOver) ==> unchanged(this)
      ensures !old(gameOver) && guess == old(rgbColor) ==>
        feedback == Correct
        && score == old(score) + ScoreIncrement
        && (if score > old(bestScore)
            then bestScore == score && stored == Some(score)
            else bestScore == old(bestScore) && stored == old(stored))
        && RoundAdvanced(dice) && (gameOver ==> timer == old(timer))
      ensures !old(gameOver) && guess != old(rgbColor) ==>
        feedback == Wrong
        && rgbColor == old(rgbColor) && options == old(options)
        && timer == old(timer) && round == old(round)
        && score == old(score) && bestScore == old(bestScore)
        && stored == old(stored) && gameOver == old(gameOver)
      ensures old(score) <= score && old(bestScore) <= bestScore
    {
      if gameOver {
        return;
      }
      if IsMatch(guess, rgbColor) {
        feedback := Correct;
        var newScore := score + ScoreIncrement;
        score := newScore;
        if newScore > bestScore {
          bestScore := newScore;
          stored := Some(newScore);
        }
        ResetRound(dice);
      } else {
        feedback := Wrong;
      }
    }

    /** The timeout effect, run whenever `timer` changes: at zero it shows
        the timeout and advances the round without scoring. */
    method TimeoutEffect(dice: RoundDice)
      requires Consistent() && Scored() && Supplied(dice)
      modifies this
      ensures Valid()
      ensures old(timer) > 0 ==> unchanged(this)
      ensures old(timer) == 0 ==>
        feedback == Timeout
        && score == old(score) && bestScore == old(bestScore) && stored == old(stored)
        && RoundAdvanced(dice) && (gameOver ==> timer == 0)
    {
      if timer <= 0 {
        feedback := Timeout;
        ResetRound(dice);
      }
    }

    /** One run of the countdown interval (0.1 s off the clock, floored at
        zero; no interval runs after game over or at zero), followed by the
        timeout effect because `timer` changed. */
    method Tick(dice: RoundDice)
      requires Valid() && Supplied(dice)
      modifies this
      ensures Valid()
      ensures old(gameOver) ==> unchanged(this)
      ensures !old(gameOver) && old(timer) > 1 ==>
        timer == old(timer) - 1
        && feedback == old(feedback)
        && rgbColor == old(rgbColor) && options == old(options)
        && round == old(round) && score == old(score)
        && bestScore == old(bestScore) && stored == old(stored)
        && !gameOver
      ensures !old(gameOver) && old(timer) == 1 ==>
        feedback == Timeout
        && score == old(score) && bestScore == old(bestScore) && stored == old(stored)
        && RoundAdvanced(dice) && (gameOver ==> timer == 0)
    {
      if gameOver || timer <= 0 {
        return;
      }
      var before := timer;
      timer := if timer - 1 > 0 then timer - 1 else 0;
      if timer != before {
        TimeoutEffect(dice);
      }
    }

    /** The one-second `setTimeout` scheduled by `resetRound`: it blanks the
        feedback line and touches nothing else. */
    method ClearFeedback()
      requires Valid()
      modifies this`feedback
      ensures Valid() && feedback == Blank
    {
      feedback := Blank;
    }
  }
}
