/** The terminal front end: difficulty selection, the guessing loop and one
    round of the main loop (score, highest-score comparison, save). */
module Terminal {
  import opened Rules
  import opened Scoring
  import opened ScoreStore

  /** set_level: menu choice 1..4 to (range limit, try limit). The custom
      values are taken as entered, without any range check. */
  function SetLevel(choice: int, customRange: int, customTries: int): (d: Difficulty)
    requires 1 <= choice <= 4
    ensures d.rangeLimit == if choice == 4 then customRange else 100
    ensures d.maxTries.Unlimited? <==> choice == 1
    ensures choice == 2 ==> d.maxTries == Finite(10)
    ensures choice == 3 ==> d.maxTries == Finite(5)
    ensures choice == 4 ==> d.maxTries == Finite(customTries)
  {
    if choice == 1 then Difficulty(100, Unlimited)
    else if choice == 2 then Difficulty(100, Finite(10))
    else if choice == 3 then Difficulty(100, Finite(5))
    else Difficulty(customRange, Finite(customTries))
  }

  /** How the guessing loop ended. InputExhausted is the model's own case for
      a guess sequence that runs out before the game is decided. */
  datatype Ending = Guessed | NoTriesLeft | InputExhausted

  /** The loop's two counters: tries used and tries left. */
  datatype Counters = Counters(tries: nat, left: TryLimit)

  datatype Outcome = Outcome(ending: Ending, counters: Counters, consumed: nat)

  /** Subtracting one from the limit; infinity minus one stays infinity. */
  function Decrement(t: TryLimit): TryLimit
  {
    match t
    case Finite(n) => Finite(n - 1)
    case Unlimited => Unlimited
  }

  /** Subtracting k from the limit. */
  function Spend(t: TryLimit, k: nat): TryLimit
  {
    match t
    case Finite(n) => Finite(n - k)
    case Unlimited => Unlimited
  }

  /** The counters after one line of input: a number costs one try, text
      that does not parse costs nothing. */
  function Advance(c: Counters, g: RawGuess): Counters
  {
    match g
    case Number(_) => Counters(c.tries + 1, Decrement(c.left))
    case Unparsable => c
  }

  /** The number of parsable lines in an input sequence. */
  function CountNumbers(s: seq<RawGuess>): (k: nat)
    ensures k <= |s|
  {
    if s == [] then 0 else (if s[0].Number? then 1 else 0) + CountNumbers(s[1..])
  }

  /** game_play, as a function of the secret, the remaining input and the
      counters: a correct guess ends the game at once; otherwise the game
      ends when the tries left reach exactly zero after an input. */
  function Play(secret: int, guesses: seq<RawGuess>, c: Counters): (o: Outcome)
    ensures o.consumed <= |guesses|
    ensures o.ending == InputExhausted ==> o.consumed == |guesses|
    ensures o.ending != InputExhausted ==> o.consumed > 0
    decreases |guesses|
  {
    if guesses == [] then Outcome(InputExhausted, c, 0)
    else
      var c' := Advance(c, guesses[0]);
      if guesses[0] == Number(secret) then Outcome(Guessed, c', 1)
      else if c'.left == Finite(0) then Outcome(NoTriesLeft, c', 1)
      else
        var o := Play(secret, guesses[1..], c');
        o.(consumed := o.consumed + 1)
  }

  /** Each parsable input consumed adds one try and removes one from the
      tries left; unparsable input changes neither. */
  lemma {:induction false} PlayCounts(secret: int, guesses: seq<RawGuess>, c: Counters)
    ensures var o := Play(secret, guesses, c);
      var k := CountNumbers(guesses[..o.consumed]);
      o.counters.tries == c.tries + k && o.counters.left == Spend(c.left, k)
    decreases |guesses|
  {
    var o := Play(secret, guesses, c);
    if guesses == [] {
      assert guesses[..o.consumed] == [];
    } else {
      var c' := Advance(c, guesses[0]);
      var p := guesses[..o.consumed];
      assert p[0] == guesses[0];
      if guesses[0] == Number(secret) || c'.left == Finite(0) {
        assert p[1..] == [];
      } else {
        PlayCounts(secret, guesses[1..], c');
        assert p[1..] == guesses[1..][..o.consumed - 1];
      }
    }
  }

  /** The game is won exactly when the last input it consumed is the secret,
      and it never reads past a correct guess, even on the last allowed try. */
  lemma {:induction false} PlayStopsAtFirstCorrect(secret: int, guesses: seq<RawGuess>, c: Counters)
    ensures var o := Play(secret, guesses, c);
      (forall j :: 0 <= j < o.consumed - 1 ==> guesses[j] != Number(secret))
      && (o.ending == Guessed <==> 0 < o.consumed && guesses[o.consumed - 1] == Number(secret))
    decreases |guesses|
  {
    if guesses != [] {
      var c' := Advance(c, guesses[0]);
      if guesses[0] != Number(secret) && c'.left != Finite(0) {
        var o := Play(secret, guesses[1..], c');
        PlayStopsAtFirstCorrect(secret, guesses[1..], c');
        forall j | 0 <= j < o.consumed
          ensures guesses[j] != Number(secret)
        {
          if j > 0 { assert guesses[j] == guesses[1..][j - 1]; }
        }
      }
    }
  }

  /** With a finite limit n >= 1 the game never uses more than n tries, and
      it runs out of tries only after exactly n of them. */
  lemma {:induction false} FiniteLimitBoundsTries(secret: int, guesses: seq<RawGuess>, t: nat, n: int)
    requires n >= 1
    ensures var o := Play(secret, guesses, Counters(t, Finite(n)));
      o.counters.tries <= t + n && (o.ending == NoTriesLeft ==> o.counters.tries == t + n)
    decreases |guesses|
  {
    if guesses != [] {
      var c' := Advance(Counters(t, Finite(n)), guesses[0]);
      if guesses[0] != Number(secret) && c'.left != Finite(0) {
        FiniteLimitBoundsTries(secret, guesses[1..], c'.tries, c'.left.n);
      }
    }
  }

  /** With a finite limit n >= 1 and no correct guess, n parsable inputs end
      the game as lost after exactly n tries. */
  lemma {:induction false} FiniteLimitRunsOut(secret: int, guesses: seq<RawGuess>, t: nat, n: int)
    requires n >= 1
    requires forall j :: 0 <= j < |guesses| ==> guesses[j] != Number(secret)
    requires CountNumbers(guesses) >= n
    ensures Play(secret, guesses, Counters(t, Finite(n))).ending == NoTriesLeft
    ensures Play(secret, guesses, Counters(t, Finite(n))).counters.tries == t + n
    decreases |guesses|
  {
    var c' := Advance(Counters(t, Finite(n)), guesses[0]);
    if c'.left != Finite(0) {
      assert forall j :: 0 <= j < |guesses| - 1 ==> guesses[1..][j] == guesses[j + 1];
      FiniteLimitRunsOut(secret, guesses[1..], c'.tries, c'.left.n);
    }
  }

  /** Without a limit only a correct guess ends the game: it is won exactly
      when the secret occurs in the input. */
  lemma {:induction false} UnlimitedEndsOnlyWhenGuessed(secret: int, guesses: seq<RawGuess>, t: nat)
    ensures var o := Play(secret, guesses, Counters(t, Unlimited));
      o.ending != NoTriesLeft && (o.ending == Guessed <==> Number(secret) in guesses)
    decreases |guesses|
  {
    if guesses != [] && guesses[0] != Number(secret) {
      var c' := Advance(Counters(t, Unlimited), guesses[0]);
      UnlimitedEndsOnlyWhenGuessed(secret, guesses[1..], c'.tries);
      assert guesses == [guesses[0]] + guesses[1..];
    }
  }

  /** An unchecked custom limit n <= 0 is never reached by counting down,
      except that a limit of exactly 0 ends the game when the very first
      input does not parse. */
  lemma {:induction false} NonPositiveLimit(secret: int, guesses: seq<RawGuess>, t: nat, n: int)
    requires n <= 0
    ensures var o := Play(secret, guesses, Counters(t, Finite(n)));
      o.ending == NoTriesLeft <==> n == 0 && |guesses| > 0 && guesses[0] == Unparsable
    decreases |guesses|
  {
    if guesses != [] && guesses[0] != Number(secret) {
      var c' := Advance(Counters(t, Finite(n)), guesses[0]);
      if c'.left != Finite(0) {
        NonPositiveLimit(secret, guesses[1..], c'.tries, c'.left.n);
        if n == 0 && guesses[0].Number? {
          NegativeLimitNeverRunsOut(secret, guesses[1..], c'.tries, c'.left.n);
        }
      }
    }
  }

  lemma {:induction false} NegativeLimitNeverRunsOut(secret: int, guesses: seq<RawGuess>, t: nat, n: int)
    requires n < 0
    ensures Play(secret, guesses, Counters(t, Finite(n))).ending != NoTriesLeft
    decreases |guesses|
  {
    if guesses != [] && guesses[0] != Number(secret) {
      var c' := Advance(Counters(t, Finite(n)), guesses[0]);
      NegativeLimitNeverRunsOut(secret, guesses[1..], c'.tries, c'.left.n);
    }
  }

  /** A three-try game with secret 7: guesses 3, 9 and 7 win on the third
      try for a score of 700; guesses 1, 2 and 3 lose after three tries. */
  lemma ThreeTryGames()
    ensures var o := Play(7, [Number(3), Number(9), Number(7)], Counters(0, Finite(3)));
      o.ending == Guessed && o.counters.tries == 3 && CalculateScore(o.counters.tries) == 700
    ensures var o := Play(7, [Number(1), Number(2), Number(3)], Counters(0, Finite(3)));
      o.ending == NoTriesLeft && o.counters.tries == 3
  {
  }

  /** game_play: reads guesses until the secret is guessed or the tries left
      count down to zero, and returns the tries used. */
  method GamePlay(rangeLimit: int, maxTries: TryLimit, secret: int, guesses: seq<RawGuess>)
    returns (tries: nat, ending: Ending, consumed: nat)
    requires 1 <= secret <= rangeLimit
    ensures var o := Play(secret, guesses, Counters(0, maxTries));
      tries == o.counters.tries && ending == o.ending && consumed == o.consumed
  {
    tries := 0;
    var left := maxTries;
    var i := 0;
    while i < |guesses|
      invariant i <= |guesses|
      invariant var o := Play(secret, guesses[i..], Counters(tries, left));
        Play(secret, guesses, Counters(0, maxTries)) == o.(consumed := o.consumed + i)
    {
      assert guesses[i..][1..] == guesses[i + 1..];
      match guesses[i] {
        case Number(guess) =>
          tries := tries + 1;
          left := Decrement(left);
          if guess == secret {
            ending, consumed := Guessed, i + 1;
            return;
          }
        case Unparsable =>
      }
      i := i + 1;
      if left == Finite(0) {
        ending, consumed := NoTriesLeft, i;
        return;
      }
    }
    ending, consumed := InputExhausted, i;
  }

  /** One round of main: play, score the tries used (won or lost), compare
      with the stored highest score, and save the score under the name typed.
      The guesses cover the whole game: the source reads every line as a
      guess until the game is won or lost, so scoring and saving are reached
      only once it is decided. */
  method PlayRound(table: ScoreTable, choice: int, customRange: int, customTries: int,
                   secret: int, guesses: seq<RawGuess>, username: string)
    returns (score: int, newRecord: bool)
    requires 1 <= choice <= 4
    requires 1 <= secret <= SetLevel(choice, customRange, customTries).rangeLimit
    requires Play(secret, guesses, Counters(0, SetLevel(choice, customRange, customTries).maxTries)).ending
      != InputExhausted
    modifies table
    ensures var d := SetLevel(choice, customRange, customTries);
      score == CalculateScore(Play(secret, guesses, Counters(0, d.maxTries)).counters.tries)
    ensures newRecord == (score > HighestScore(old(table.records)).0)
    ensures table.records == old(table.records) + [ScoreRecord(username, score)]
  {
    var d := SetLevel(choice, customRange, customTries);
    var tries, _, _ := GamePlay(d.rangeLimit, d.maxTries, secret, guesses);
    score := CalculateScore(tries);
    var highestScore, _ := table.GetHighestScore();
    newRecord := score > highestScore;
    table.SaveScore(username, score);
  }
}
