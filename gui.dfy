/** The graphical front end's game logic, without widgets: the fields of the
    game window, and what starting a game, submitting a guess and ending a
    game do to them and to the scores table. */
module Gui {
  import opened Rules
  import Scoring
  import opened ScoreStore
  import Terminal

  /** The remaining-tries value shown after a wrong guess; Infinity is "∞". */
  datatype Remaining = Left(n: int) | Infinity

  datatype Verdict = TooLow | TooHigh | Correct

  /** What one submission shows: a warning for unparsable text, or a verdict
      and whether the game-over (loss) path also ran. `remaining` is the
      tries-left value check_guess computes for every number; the window
      displays it only with TooLow or TooHigh, not with Correct. */
  datatype Feedback = InvalidInput | Evaluated(verdict: Verdict, remaining: Remaining, lossShown: bool)

  /** The difficulty start_game settles on for combo-box index 0..3, or None
      when a custom dialog is cancelled. A custom dialog returns None when
      cancelled and otherwise a value within its bounds. */
  function ResolveLevel(level: int, customRange: Option<int>, customTries: Option<int>): (d: Option<Difficulty>)
    requires 0 <= level <= 3
    ensures level == 0 ==> d == Some(Difficulty(100, Unlimited))
    ensures level == 1 ==> d == Some(Difficulty(100, Finite(10)))
    ensures level == 2 ==> d == Some(Difficulty(100, Finite(5)))
    ensures level == 3 ==> (d.Some? <==> customRange.Some? && customTries.Some?)
    ensures level == 3 && d.Some? ==> d.value == Difficulty(customRange.value, Finite(customTries.value))
  {
    if level == 0 then Some(Difficulty(100, Unlimited))
    else if level == 1 then Some(Difficulty(100, Finite(10)))
    else if level == 2 then Some(Difficulty(100, Finite(5)))
    else match customRange
      case None => None
      case Some(r) =>
        match customTries
        case None => None
        case Some(t) => Some(Difficulty(r, Finite(t)))
  }

  /** The bounds the custom dialogs enforce. */
  predicate DialogBounds(customRange: Option<int>, customTries: Option<int>)
  {
    (customRange.Some? ==> 1 <= customRange.value <= 1000)
    && (customTries.Some? ==> 1 <= customTries.value <= 100)
  }

  /** Every difficulty the window accepts is playable and bounded, unlike the
      terminal's unchecked custom level. */
  lemma ResolvedLevelIsBounded(level: int, customRange: Option<int>, customTries: Option<int>)
    requires 0 <= level <= 3
    requires DialogBounds(customRange, customTries)
    ensures var d := ResolveLevel(level, customRange, customTries);
      d.Some? ==>
        && Playable(d.value) && d.value.rangeLimit <= 1000
        && (d.value.maxTries.Finite? ==> d.value.maxTries.n <= 100)
  {
  }

  /** The two front ends agree on the presets, and on custom values that lie
      within the window's bounds. */
  lemma FrontEndsAgree(level: int, r: int, t: int)
    requires 0 <= level <= 3
    requires level == 3 ==> 1 <= r <= 1000 && 1 <= t <= 100
    ensures ResolveLevel(level, Some(r), Some(t)) == Some(Terminal.SetLevel(level + 1, r, t))
  {
  }

  class NumberGuesserGame {
    var secretNumber: int
    var tries: nat
    var maxTries: TryLimit
    var rangeLimit: int
    var currentScore: int
    /** Whether the guess input and submit button are enabled. */
    var active: bool
    const table: ScoreTable

    /** While a game is in progress its configuration is bounded, the secret
        lies in range, and a finite limit has not been reached. */
    ghost predicate Valid()
      reads this
    {
      0 <= currentScore <= 1000
      && (active ==>
            && 1 <= secretNumber <= rangeLimit <= 1000
            && (maxTries.Finite? ==> 1 <= maxTries.n <= 100 && tries < maxTries.n))
    }

    constructor (table: ScoreTable)
      ensures Valid() && !active && this.table == table
      ensures secretNumber == 0 && tries == 0 && maxTries == Finite(0)
      ensures rangeLimit == 0 && currentScore == 0
    {
      secretNumber, tries, maxTries, rangeLimit, currentScore := 0, 0, Finite(0), 0, 0;
      active := false;
      this.table := table;
    }

    /** calculate_score on the window's own try counter; it gives the same
        score as the terminal's formula. */
    function CalculateScore(): (score: int)
      reads this
      ensures score == Scoring.CalculateScore(tries)
      ensures 0 <= score <= 1000
    {
      var score := 1000 - tries * 100;
      if 0 > score then 0 else score
    }

    /** start_game: a preset, or two custom dialogs that either may cancel.
        A completed start sets the limits, draws the secret and zeroes the
        try counter; a cancelled one changes nothing. */
    method StartGame(level: int, customRange: Option<int>, customTries: Option<int>, secret: int)
      requires Valid()
      requires 0 <= level <= 3
      requires DialogBounds(customRange, customTries)
      requires var d := ResolveLevel(level, customRange, customTries);
        d.Some? ==> 1 <= secret <= d.value.rangeLimit
      modifies this
      ensures Valid()
      ensures var d := ResolveLevel(level, customRange, customTries);
        if d.Some? then
          && rangeLimit == d.value.rangeLimit && maxTries == d.value.maxTries
          && secretNumber == secret && tries == 0 && active
          && currentScore == old(currentScore)
        else
          unchanged(this)
    {
      if level == 0 {
        rangeLimit := 100;
        maxTries := Unlimited;
      } else if level == 1 {
        rangeLimit := 100;
        maxTries := Finite(10);
      } else if level == 2 {
        rangeLimit := 100;
        maxTries := Finite(5);
      } else {
        if customRange.None? {
          return;
        }
        if customTries.None? {
          return;
        }
        rangeLimit := customRange.value;
        maxTries := Finite(customTries.value);
      }
      secretNumber := secret;
      tries := 0;
      active := true;
    }

    /** check_guess: unparsable text only warns. A number uses one try; a
        correct one scores and runs the win path; then, independently, the
        loss path runs whenever a finite limit is reached, so a correct guess
        on the last try runs both. */
    method CheckGuess(text: RawGuess, nameOk: bool, username: string) returns (feedback: Feedback)
      requires Valid() && active
      modifies this, table
      ensures Valid()
      ensures secretNumber == old(secretNumber) && maxTries == old(maxTries)
      ensures rangeLimit == old(rangeLimit)
      ensures text.Unparsable? ==>
        feedback == InvalidInput && unchanged(this) && unchanged(table)
      ensures text.Number? ==>
        var won := text.value == secretNumber;
        var lost := maxTries.Finite? && tries >= maxTries.n;
        && tries == old(tries) + 1
        && feedback.Evaluated?
        && (feedback.verdict == Correct <==> won)
        && (feedback.verdict == TooLow <==> text.value < secretNumber)
        && feedback.remaining == (if maxTries.Finite? then Left(maxTries.n - tries) else Infinity)
        && feedback.lossShown == lost
        && (lost <==> maxTries == Finite(tries))
        && currentScore == (if won then CalculateScore() else old(currentScore))
        && active == !(won || lost)
        && table.records == old(table.records)
             + (if won && nameOk && username != "" then [ScoreRecord(username, currentScore)] else [])
    {
      match text
      case Unparsable =>
        feedback := InvalidInput;
      case Number(guess) =>
        tries := tries + 1;
        var remaining := if maxTries.Finite? then Left(maxTries.n - tries) else Infinity;
        var verdict;
        if guess == secretNumber {
          currentScore := CalculateScore();
          ShowGameOver(true, nameOk, username);
          verdict := Correct;
        } else if guess < secretNumber {
          verdict := TooLow;
        } else {
          verdict := TooHigh;
        }
        var lost := maxTries.Finite? && tries >= maxTries.n;
        if lost {
          ShowGameOver(false, nameOk, username);
        }
        feedback := Evaluated(verdict, remaining, lost);
    }

    /** show_game_over: only a win asks for a name and saves; both outcomes
        reset the window. */
    method ShowGameOver(won: bool, nameOk: bool, username: string)
      modifies this, table
      ensures !active
      ensures secretNumber == old(secretNumber) && tries == old(tries) && maxTries == old(maxTries)
      ensures rangeLimit == old(rangeLimit) && currentScore == old(currentScore)
      ensures table.records == old(table.records)
        + (if won && nameOk && username != "" then [ScoreRecord(username, currentScore)] else [])
      ensures Valid() <==> 0 <= currentScore <= 1000
    {
      if won {
        SaveScore(nameOk, username);
      }
      ResetGame();
    }

    /** save_score: a record is added only when the name dialog was
        confirmed with a non-empty name. */
    method SaveScore(nameOk: bool, username: string)
      modifies table
      ensures table.records == old(table.records)
        + (if nameOk && username != "" then [ScoreRecord(username, currentScore)] else [])
    {
      if nameOk && username != "" {
        table.SaveScore(username, currentScore);
      }
    }

    /** reset_game: disables the guess input. It may run in the middle of an
        update (check_guess calls it after counting a try), so it does not
        assume the invariant; with input disabled, the invariant is just the
        score bound. */
    method ResetGame()
      modifies this`active
      ensures !active
      ensures Valid() <==> 0 <= currentScore <= 1000
    {
      active := false;
    }
  }

  /** A client of the window: on Hard, a correct guess on the fifth and last
      try runs both the win path and the loss path, and saves one record. */
  method LastTryWin(table: ScoreTable)
    modifies table
  {
    var game := new NumberGuesserGame(table);
    game.StartGame(2, None, None, 42);
    var f := game.CheckGuess(Number(1), false, "");
    assert f == Evaluated(TooLow, Left(4), false);
    f := game.CheckGuess(Number(99), false, "");
    assert f == Evaluated(TooHigh, Left(3), false);
    f := game.CheckGuess(Unparsable, false, "");
    assert f == InvalidInput && game.tries == 2;
    f := game.CheckGuess(Number(40), false, "");
    f := game.CheckGuess(Number(41), false, "");
    assert f == Evaluated(TooLow, Left(1), false);
    f := game.CheckGuess(Number(42), true, "alice");
    assert f == Evaluated(Correct, Left(0), true);
    assert !game.active && game.currentScore == 500;
    assert table.records == old(table.records) + [ScoreRecord("alice", 500)];
  }
}
