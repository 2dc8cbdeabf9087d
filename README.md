# Multiplication game: Dafny model

Two small versions of one game. Players take turns multiplying a shared
number by 2, 3 or 4. Each move changes the mover's score by one point:
down for an even result, up for an odd one. Each result ending in 0 or 5
adds one point to a shared bank. Once the number reaches 1200 the game is
over, and the player who made the last move collects the bank.

- `main.py` is a human-versus-computer game. Its class `NumberGame` holds
  the number, the bank, both scores and a turn flag. The computer picks its
  factor with a depth-3 alpha-beta search.
- `Game_Interface.py` is a one-player version. Its state is three module
  globals: the displayed number, the score and the bank.

The model has five modules, one file each:

- `Wrappers` (`wrappers.dfy`): `Option`. It models Python's `None`, both for
  "no number yet" and for "no move chosen".
- `Rules` (`rules.dfy`): rules both files share. These are the threshold
  1200, the start range 8..18, the factor order `[2, 3, 4]`, the parity
  delta and the bank's last-digit test. It also proves that the last-digit
  test is the same as divisibility by five.
- `Search` (`search.dfy`): `alpha_beta` and `evaluate` of `main.py`.
  `alpha_beta` is a recursive method. Each call runs one loop over the
  factors, with the source's strict comparisons, alpha/beta updates and
  `break` on `beta <= alpha`. The `±float('inf')` sentinels become the
  datatype `ExtInt`, whose order `Less` puts `NegInf` below and `PosInf`
  above every integer. The search depth `max_depth` is a field the source
  never changes, so it is passed in as a parameter.
- `MainGame` (`maingame.dfy`): pure functions giving the state each change
  produces, plus the class `NumberGame`. Its methods change the fields step
  by step, as the source does, and are proved to reach exactly those
  states.
- `GameInterface` (`gameinterface.dfy`): the one-player variant, with the
  globals as fields of a class `Globals`. Lemmas show that its `multiply`
  and `update_score` equal a human move of `main.py` on the number, the
  score and the bank.

The central theorem is the postcondition of `Search.AlphaBeta`. Each child
the search builds gets the same ±1 on *both* scores, and `evaluate` looks
only at the score difference. So every node is worth the score difference
at the root. With strict `>`/`<` the first factor always stays best, so any
non-leaf call returns move 2. `NumberGame.ComputerMove` uses this
postcondition to show that the computer always doubles the number.

Python's `%` with a positive divisor floors. For a positive divisor that
gives the same remainder as Dafny's Euclidean `%`, so the parity, last-digit
and multiple-of-five tests are written with Dafny's `%` directly. Python
integers are unbounded, and so is Dafny's `int`.

Facts about the source that shape the model:

- `evaluate` returns `computer_score - human_score` in both branches
  (main.py:171-173) and never looks at the bank or the number.
- `end_game` pays the bank to the mover but does not empty it
  (main.py:175-179).
- The search's children change both scores, not only the mover's
  (main.py:135-136, 154-155).
- `main.py` has no minimax, though the comment at main.py:31 names one, and
  no node counter. The human always starts (main.py:67).

Some behaviour that the buttons normally prevent is modelled as the methods
actually do it:

- `make_move` does not check for a finished game. After the human ends the
  game, the turn flag is still the human's. Only the disabled buttons stop
  another move, which would pay out the bank again.
- `computer_move` does not check the turn flag.
- `computer_move` with no number raises a `TypeError`.
- `start_game` keeps a rejected integer in `current_number`.

## Model

| member | source | states |
|---|---|---|
| `Rules.Delta` | main.py:90-99 | the score change is +1 exactly for an odd number and -1 otherwise |
| `Rules.BankGain` | main.py:101-102 | the bank gains 1 exactly when the last digit is 0 or 5 (the test `Rules.EarnsBank`), otherwise 0 |
| `Rules.EarnsBankIffMultipleOfFive` | Game_Interface.py:47-48 | for every integer, the last-digit-0-or-5 test of main.py:101 holds iff the number is a multiple of five |
| `Search.Max` | main.py:145 | the result is one of the two arguments and at least both of them, under the order `Less` of `ExtInt` |
| `Search.Min` | main.py:164 | the result is one of the two arguments and at most both of them |
| `Search.Child` | main.py:134-137 | the child's number is number × factor; both scores move by the same parity delta, so the computer-minus-human difference is unchanged; the bank gains per the last-digit rule |
| `Search.Evaluate` | main.py:169-173 | the evaluation is the computer's score minus the human's, in the terminal and the non-terminal case alike |
| `Search.EvaluateIgnoresNumberAndBank` | main.py:169-173 | two nodes with the same scores evaluate alike whatever their numbers (terminal or not) and banks |
| `Search.AlphaBeta` | main.py:126-167 | for any alpha, beta and side to move with depth ≤ max depth, the value is the root's computer-minus-human score difference; the move is None at a leaf (depth reached or number ≥ 1200) and factor 2 at every other node |
| `MainGame.ScoresUpdated` | main.py:89-102 | only the mover's score changes, by +1 for odd / -1 for even; the other score, number and turn are unchanged; the bank rises by exactly 1 iff the last digit is 0 or 5 and is unchanged otherwise |
| `MainGame.BankCollected` | main.py:175-179 | the player whose turn flag is set gains the whole bank; the other score, the bank itself, the number and the turn are unchanged |
| `MainGame.VerdictOf` | main.py:181-185 | human wins iff human score > computer score, computer wins iff the reverse, draw iff equal |
| `MainGame.Played` | main.py:77-87 | number becomes number × factor; the bank gains per the digit rule; the mover gets the parity delta plus, when the number reaches 1200, the bank including this move's gain; the other score is unchanged; the turn flag stays on game end and otherwise takes the given next value |
| `MainGame.OutcomeOf` | main.py:80-82 | a move reports the game over, with the verdict of the final scores, exactly when the number is ≥ 1200, and reports the turn passing otherwise |
| `MainGame.ChildDiffersFromPlayedMove` | main.py:134-136 | for a non-final move the search's child agrees with the move really played on number, bank and mover's score, but the opponent's score differs by the parity delta |
| `MainGame.NumberGame.constructor` | main.py:26-31 | no number, empty bank, zero scores, human to move, search depth 3 |
| `MainGame.NumberGame.StartGame` | main.py:56-70 | accepted iff the entry parses to an integer in 8..18; on acceptance bank and both scores are 0 and the human is to move; a rejected integer is still stored as the number with all else unchanged; an unparsable entry changes nothing |
| `MainGame.NumberGame.UpdateScores` | main.py:89-102 | the fields change exactly as `ScoresUpdated` describes |
| `MainGame.NumberGame.EndGame` | main.py:175-185 | the fields change as `BankCollected` describes and the verdict compares the new scores |
| `MainGame.NumberGame.MakeMove` | main.py:72-87 | with no number or when it is not the human's turn nothing changes; otherwise the state is the human's `Played` move with the turn passing to the computer unless the game ended, and the outcome is its `OutcomeOf` |
| `MainGame.NumberGame.ComputerMove` | main.py:106-124 | with no number the call fails with nothing changed; at ≥ 1200 nothing changes; otherwise the state is `Played` with factor 2 (the search's choice) and the turn handed to the human unless the game ended |
| `MainGame.NumberGame.ResetGame` | main.py:190-198 | the state returns to no number, empty bank, zero scores, human to move |
| `GameInterface.Started` | Game_Interface.py:17-26 | score and bank become 0 and the number is kept |
| `GameInterface.NumberSet` | Game_Interface.py:28-29 | the number becomes the given value, with no range check; score and bank unchanged |
| `GameInterface.ScoreUpdated` | Game_Interface.py:41-49 | the score moves by -1 for even / +1 for odd; the bank rises by exactly 1 iff the number is a multiple of five, and is unchanged otherwise |
| `GameInterface.Ended` | Game_Interface.py:55-57 | the bank is added to the score once and the bank and number are unchanged |
| `GameInterface.Multiplied` | Game_Interface.py:31-39 | the number becomes number × factor with no "game running" guard; score and bank are updated for the new number; the bank, this move's gain included, is paid into the score exactly when the new number is ≥ 1200 |
| `GameInterface.ScoreRuleMatchesHumanMover` | Game_Interface.py:43-48 | update_score yields the same score and bank as main.py's update_scores for a human mover, and leaves the computer's score untouched |
| `GameInterface.MultiplyMatchesHumanMove` | Game_Interface.py:31-39 | multiply yields the same number, score and bank as a human move in main.py, ends the game under the same condition, and leaves the computer's score untouched |
| `GameInterface.Globals.constructor` | Game_Interface.py:13-15 | number, score and bank all start at 0 |
| `GameInterface.Globals.StartGame` | Game_Interface.py:17-26 | score and bank are cleared before the selection is read, the number is untouched, and the selection is accepted iff it is nonzero |
| `GameInterface.Globals.UpdateNumber` | Game_Interface.py:28-29 | the globals change as `NumberSet` describes |
| `GameInterface.Globals.Multiply` | Game_Interface.py:31-39 | the globals change as `Multiplied` describes, and end_game runs iff the new number is ≥ 1200 (the test `GameInterface.EndsGame`) |
| `GameInterface.Globals.UpdateScore` | Game_Interface.py:41-49 | the globals change as `ScoreUpdated` describes |
| `GameInterface.Globals.EndGame` | Game_Interface.py:55-59 | the globals change as `Ended` describes and the reported final score is the new score |

## Left out

- Tkinter widgets, window geometry (main.py:10-23), labels, `update_scoreboard`, `print` logging and the fullscreen and escape handling: presentation only.
- Message boxes: the verdict of `end_game`, the final score of Game_Interface's `end_game` and the accepted/rejected result of `start_game` are returned values instead.
- `toggle_buttons` and the buttons' enabled state: the model does not capture that disabled buttons stop `make_move` before the first start, after `end_game` (main.py:188), after `reset_game` (main.py:198) and while the computer's move is pending (main.py:86). A rejected `start_game` (main.py:58-60, 69-70) never changes the buttons: when they were enabled, on the human's turn, `make_move` plays from the rejected integer with the old scores and bank, as the model's `MakeMove` does.
- The 2-second `root.after` delay before `computer_move` (main.py:87): the caller decides when to call `ComputerMove`. `root.mainloop` is left out with it.
- `root.quit` in Game_Interface's `end_game` (Game_Interface.py:59): it ends the main loop right after the game ends, so the program never lets a move follow a finished game. The model's `Globals.Multiply` can still be called after `EndGame`, and would pay the bank out again.
- Reading the entry widget: `StartGame` takes the integer that `int()` produces, or `None` when `int()` raises. The `start_number.set(0)` in `reset_game` only changes the widget's text.
- The 8..18 range in Game_Interface.py is enforced only by which number buttons exist (lines 68 and 76). `UpdateNumber` takes any integer, as the function does.
- `Search.AlphaBeta`: requires `depth <= maxDepth`. The top-level call starts at depth 0 (main.py:111) and the recursive calls add one (main.py:139, 158), so every call meets it. Past `max_depth` the source still stops once the number reaches 1200 when the number is positive; only for a number ≤ 0 does it recurse forever. The model does not cover calls past `max_depth`.
- commented.py: it is window glue around a `Game` class that is not part of this model. Its timing and node-count diagnostics are left out too.
- The unused `import random` of main.py.
