# Number Guesser — a Dafny model of the game logic

The number guesser is a single-player game. The player picks a difficulty,
which sets the range of the secret number and the number of tries allowed.
The player then guesses and is told "too low" or "too high" until the guess
is correct or the tries run out. The score is `max(0, 1000 - 100 * tries)`.
Scores go into a `scores` table, and the highest stored score can be read back.

There are two front ends: a terminal program (`main.py`) and a PyQt window
(`gui.py`). Each carries its own copy of the rules, and the copies differ.
This project models both copies, each in the form its source takes:

- `rules.dfy` (`Rules`): the shared values. `TryLimit = Finite(n) | Unlimited`
  stands for the source's integer-or-`float('inf')` limit. It also holds the
  difficulty and one line of raw input: `Number(v)` when `int()` accepts it,
  `Unparsable` when `int()` raises `ValueError`.
- `scoring.dfy` (`Scoring`): `calculate_score` as a pure function.
- `score_store.dfy` (`ScoreStore`): the scores table, modelled abstractly.
  `ScoreTable` is a class whose `records` sequence is only ever appended to.
  `HighestScore` is the query behind `get_highest_score`.
- `terminal.dfy` (`Terminal`): `set_level` is a function. `game_play` is a
  method with the source's loop over a sequence of input lines. It is proved
  equal to the recursive specification `Play`, and the lemmas about the game
  are proved on `Play`. `PlayRound` is one pass of `main`'s loop body.
- `gui.dfy` (`Gui`): the `NumberGuesserGame` window as a class with the fields
  `secret_number`, `tries`, `max_tries`, `range_limit` and `current_score`.
  An `active` flag stands for "guess input enabled". `start_game`,
  `check_guess`, `show_game_over`, `save_score` and `reset_game` are methods
  that update those fields and the table.

The secret number is always a parameter with `1 <= secret <= range_limit`.
It stands for `random.randint`. Dialog answers and typed names are also
parameters. A cancelled `QInputDialog.getInt` (the two custom-level dialogs)
is `None`. The name dialog `QInputDialog.getText` is the pair `nameOk` and
`username`, where `nameOk` is false when it was cancelled.

The scores table already exists when a game starts: `metadata.create_all`
creates it only when it is missing, and an existing table keeps its rows.
`ScoreTable`'s constructor is the fresh-store case. `PlayRound` and
`NumberGuesserGame` take a table with any history.

Divergences between the front ends that the model keeps:

- Loss condition. The terminal counts `max_tries` down and stops only when it
  is exactly 0 after an input. The window stops when `tries >= max_tries`.
- Custom level. The terminal accepts any custom integers. Lemmas
  `NonPositiveLimit` and `NegativeLimitNeverRunsOut` show what this means:
  a negative limit never runs out, and a limit of 0 runs out only when the
  first input does not parse. The window's dialogs bound the range to
  [1, 1000] and the tries to [1, 100].
- Win on the last try. The window runs its loss check as a separate `if`, so
  a correct final guess shows both the win and the loss message. The terminal
  stops at the win.
- Saving. The terminal scores and saves every game, lost ones included, under
  whatever name was typed. The window saves only wins, and only when the name
  dialog was confirmed with a non-empty name.

The terminal front end therefore scores and saves lost games, accepts any
custom range and try count, and saves whatever name is typed, the empty one
included.

The tie-break for the highest score is not fixed by the source, because the
SQL `ORDER BY score DESC LIMIT 1` leaves ties to the store. The model picks
the earliest inserted record among the maxima.

## Model

| member | source | states |
|---|---|---|
| Scoring.CalculateScore | main.py:105-109 | the score is never negative, at most 1000 for a non-negative try count, equals `1000 - 100 * tries` up to 10 tries and is 0 exactly from 10 tries on |
| Scoring.ScoreNonIncreasing | main.py:105-109 | using more tries never yields a higher score |
| ScoreStore.BestIndex | main.py:114-115 | the selected record's score is at least every stored score; earlier records score strictly lower (earliest-maximum tie-break) |
| ScoreStore.HighestScore | main.py:112-116 | the result is `(0, "Anonymous")` on an empty table, otherwise the (score, username) of a stored record whose score is at least every stored score |
| ScoreStore.HighestAfterSave | main.py:99-116 | after saving a record, the highest score is the new record's if the table was empty or it beats the previous highest, and is unchanged otherwise |
| ScoreStore.ScoreTable.constructor | main.py:17-26 | the fresh-store case: a newly created table holds no records (an existing table keeps its rows; the other members take a table with any history) |
| ScoreStore.ScoreTable.SaveScore | main.py:99-102 | appends exactly one `(username, score)` record and leaves the existing records unchanged |
| ScoreStore.ScoreTable.GetHighestScore | main.py:112-116 | returns `(0, "Anonymous")` on an empty table, otherwise a stored record whose score is at least every stored score; the answer is `HighestScore` of the current records, so ties go to the earliest record |
| Terminal.SetLevel | main.py:51-65 | choice 1 gives (100, unlimited), 2 gives (100, 10), 3 gives (100, 5); only choice 1 is unlimited; choice 4 returns the entered range and tries unchanged, with no range check |
| Terminal.Play | main.py:69-97 | the game never consumes more input than given; it ends for a reason other than running out of input only after consuming at least one line |
| Terminal.PlayCounts | main.py:74-77 | over the consumed input, tries grow and the tries left shrink by exactly the number of parsable lines; unparsable lines change neither |
| Terminal.PlayStopsAtFirstCorrect | main.py:79-81 | no consumed guess before the last is correct, and the game is won exactly when the last consumed guess equals the secret, even when it is the last allowed try |
| Terminal.FiniteLimitBoundsTries | main.py:76-95 | with a finite limit n >= 1 the game uses at most n tries, and a lost game used exactly n |
| Terminal.FiniteLimitRunsOut | main.py:93-95 | with a finite limit n >= 1, no correct guess and at least n parsable lines, the game is lost after exactly n tries |
| Terminal.UnlimitedEndsOnlyWhenGuessed | main.py:73-97 | with the unlimited (Easy) limit the game never runs out of tries, and it is won exactly when the secret occurs in the input |
| Terminal.NonPositiveLimit | main.py:74-95 | with an unchecked custom limit n <= 0, the game runs out of tries exactly when n is 0 and the first line does not parse |
| Terminal.NegativeLimitNeverRunsOut | main.py:77-95 | with a negative custom limit the count-down never reaches 0, so the game is never lost |
| Terminal.ThreeTryGames | main.py:69-109 | with three tries and secret 7, guesses 3, 9, 7 win in three tries for a score of 700, and guesses 1, 2, 3 lose after three tries |
| Terminal.GamePlay | main.py:69-97 | the loop returns the tries used, the ending and the input consumed that `Play` gives for the same secret, input and limit |
| Terminal.PlayRound | main.py:124-139 | given guesses that cover the whole game (it is won or lost, not cut short by the end of input), the score is `calculate_score` of the tries used whether the game was won or lost; the "highest score" message appears exactly when the score beats the stored highest; exactly that score is appended under the typed name |
| Gui.ResolveLevel | gui.py:212-231 | index 0 gives (100, unlimited), 1 gives (100, 10), 2 gives (100, 5); Custom succeeds exactly when neither dialog is cancelled, with the two dialog values |
| Gui.ResolvedLevelIsBounded | gui.py:224-231 | every difficulty the window accepts is playable, with range at most 1000 and finite tries at most 100 |
| Gui.FrontEndsAgree | gui.py:212-231 | the window's level at index i equals the terminal's choice i + 1, for the presets and for custom values within the dialog bounds |
| Gui.NumberGuesserGame.constructor | gui.py:51-57 | all game fields start at 0 and the guess input is disabled |
| Gui.NumberGuesserGame.CalculateScore | gui.py:261-263 | the window's score formula gives the same score as the terminal's and lies in [0, 1000] |
| Gui.NumberGuesserGame.StartGame | gui.py:212-238 | a completed start sets the range and limit of the chosen level, puts the secret in [1, range_limit], sets tries to 0 and enables input; cancelling either custom dialog changes nothing |
| Gui.NumberGuesserGame.CheckGuess | gui.py:240-259 | unparsable text changes nothing; a number adds exactly one try and reports too low, too high or correct; the remaining-tries value computed is `max_tries - tries` or infinity, and the window displays it only with too low or too high; a correct guess sets the score and saves a record if a non-empty name is confirmed; the loss path runs exactly when a finite limit is reached, a correct final guess included; the game stays enabled exactly when neither path ran |
| Gui.NumberGuesserGame.ShowGameOver | gui.py:265-277 | only a win can save a record; both outcomes disable input and leave the game fields unchanged; afterwards the window invariant holds exactly when the current score lies in [0, 1000] |
| Gui.NumberGuesserGame.SaveScore | gui.py:279-284 | a record with the current score is appended exactly when the name dialog was confirmed with a non-empty name |
| Gui.NumberGuesserGame.ResetGame | gui.py:286-291 | the guess input is disabled, nothing else changes, and afterwards the window invariant holds exactly when the current score lies in [0, 1000] |

## Left out

- The PyQt widgets are not modelled: the stylesheet, the dark theme, the layout, centring, label texts and message-box rendering. The enabled state of the guess input and submit button is the `active` flag. The start button's state is not modelled.
- The SQLAlchemy engine, table creation, `DATABASE_URL` loading, the auto-increment id and the `created_at` timestamp are foreign library calls and I/O. They are replaced by the `ScoreTable` sequence.
- The `random.randint` draw is replaced by a `secret` parameter with `1 <= secret <= range_limit`. In the terminal, a custom range below 1 makes `randint` raise an uncaught error. The model does not include that crash, because it requires a secret in range.
- Terminal I/O is left out: the prompts, the printed feedback, the welcome text, the `get_user_choice` re-prompt loop and the play-again loop. The menu choice is a value already restricted to 1..4. The custom values of `set_level` are integers that have already been parsed. The `int()` retry loop is input handling.
- Terminal.GamePlay: the source's `while True` reads input forever. The model reads a finite sequence and reports `InputExhausted` if the sequence ends before the game is decided. The source would block or fail at end of input.
- Terminal.PlayRound: `input()` never raises the `ValueError` that `main` guards against when it asks for a name, so the dead `except` branch is not modelled.
- Gui.NumberGuesserGame.CheckGuess: requires the game to be active, because the guess input and submit button are disabled outside a game and `check_guess` cannot be triggered then.
- The window's text-field clearing and the exact status-label strings are not modelled. Only the verdict and the remaining-tries value they carry are kept.
