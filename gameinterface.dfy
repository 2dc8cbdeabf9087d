/**
 * The single-player variant of Game_Interface.py: three module globals,
 * the displayed number `number_var`, `player_score` and `bank`, changed by
 * start_game, update_number, multiply, update_score and end_game
 * (Game_Interface.py:12-59).  The globals become the fields of one object.
 *
 * The lemmas at the end compare its rules with the human's moves in
 * main.py: the two agree on the number, the score and the bank.
 */
module GameInterface {
  import opened Wrappers
  import opened Rules
  import MainGame

  /** The three globals. */
  datatype Vars = Vars(numberVar: int, playerScore: int, bank: int)

  /** The values before the first button press (Game_Interface.py:13-15). */
  const Initial: Vars := Vars(0, 0, 0)

  /** start_game (Game_Interface.py:17-26): the score and the bank are cleared, the number is kept. */
  function Started(v: Vars): (w: Vars)
    ensures w.numberVar == v.numberVar && w.playerScore == 0 && w.bank == 0
  {
    v.(playerScore := 0, bank := 0)
  }

  /** update_number (Game_Interface.py:28-29): any value replaces the number; there is no range check. */
  function NumberSet(v: Vars, value: int): (w: Vars)
    ensures w.numberVar == value && w.playerScore == v.playerScore && w.bank == v.bank
  {
    v.(numberVar := value)
  }

  /**
   * update_score (Game_Interface.py:41-49): one point lost for an even number,
   * one gained for an odd number, and the bank grows by one on a multiple of five.
   */
  function ScoreUpdated(v: Vars, number: int): (w: Vars)
    ensures w.numberVar == v.numberVar
    ensures w.playerScore == v.playerScore + Delta(number)
    ensures w.bank == v.bank + 1 <==> number % 5 == 0
    ensures w.bank == v.bank <==> number % 5 != 0
  {
    var scored := if number % 2 == 0 then v.(playerScore := v.playerScore - 1) else v.(playerScore := v.playerScore + 1);
    if number % 5 == 0 then scored.(bank := scored.bank + 1) else scored
  }

  /** end_game (Game_Interface.py:55-59): the bank is added to the score once and is not emptied. */
  function Ended(v: Vars): (w: Vars)
    ensures w.playerScore == v.playerScore + v.bank
    ensures w.bank == v.bank && w.numberVar == v.numberVar
  {
    v.(playerScore := v.playerScore + v.bank)
  }

  /** Whether multiply ends the game, i.e. calls end_game (Game_Interface.py:38-39). */
  predicate EndsGame(w: Vars)
  {
    w.numberVar >= WinThreshold
  }

  /**
   * multiply (Game_Interface.py:31-39): the number is multiplied without any
   * check that a game is running, the score and bank are updated for the new
   * number, and end_game pays out the bank, this move's gain included, exactly
   * when the new number reaches the threshold.
   */
  function Multiplied(v: Vars, factor: int): (w: Vars)
    ensures w.numberVar == v.numberVar * factor
    ensures w.bank == v.bank + (if w.numberVar % 5 == 0 then 1 else 0)
    ensures w.playerScore == v.playerScore + Delta(w.numberVar) + (if EndsGame(w) then w.bank else 0)
  {
    var n := v.numberVar * factor;
    var scored := ScoreUpdated(v.(numberVar := n), n);
    if n >= WinThreshold then Ended(scored) else scored
  }

  /** The view the human has of main.py's state. */
  function AsHumanTurn(v: Vars, computerScore: int): MainGame.Snapshot
  {
    MainGame.Snapshot(Some(v.numberVar), v.bank, v.playerScore, computerScore, true)
  }

  /** update_score is main.py's update_scores for a human mover, although the bank tests are written differently. */
  lemma ScoreRuleMatchesHumanMover(v: Vars, computerScore: int, number: int)
    ensures var w := ScoreUpdated(v, number);
            var t := MainGame.ScoresUpdated(AsHumanTurn(v, computerScore).(currentNumber := Some(number)));
            w.playerScore == t.humanScore && w.bank == t.bank && t.computerScore == computerScore
  {
  }

  /**
   * multiply is main.py's human move: the same new number, score and bank,
   * the same end condition, and the computer's score untouched.
   */
  lemma MultiplyMatchesHumanMove(v: Vars, computerScore: int, factor: int)
    ensures var w := Multiplied(v, factor);
            var t := MainGame.Played(AsHumanTurn(v, computerScore), factor, false);
            && t.currentNumber == Some(w.numberVar)
            && w.playerScore == t.humanScore && w.bank == t.bank && t.computerScore == computerScore
            && (EndsGame(w) <==> MainGame.OutcomeOf(t).GameOver?)
  {
  }

  /** The module globals of Game_Interface.py. */
  class Globals {
    var numberVar: int
    var playerScore: int
    var bank: int

    function State(): Vars
      reads this
    {
      Vars(numberVar, playerScore, bank)
    }

    constructor ()
      ensures State() == Initial
    {
      numberVar := 0;
      playerScore := 0;
      bank := 0;
    }

    /**
     * start_game (Game_Interface.py:17-26).  The reset happens before the
     * selection is read, so a missing selection (0) is refused with the score
     * and bank already cleared.
     */
    method StartGame() returns (accepted: bool)
      modifies this
      ensures State() == Started(old(State()))
      ensures accepted <==> numberVar != 0
    {
      playerScore := 0;
      bank := 0;
      var selectedNumber := numberVar;
      accepted := selectedNumber != 0;
    }

    /** update_number (Game_Interface.py:28-29). */
    method UpdateNumber(value: int)
      modifies this
      ensures State() == NumberSet(old(State()), value)
    {
      numberVar := value;
    }

    /** multiply (Game_Interface.py:31-39); `ended` tells whether end_game ran. */
    method Multiply(factor: int) returns (ended: bool)
      modifies this
      ensures State() == Multiplied(old(State()), factor)
      ensures ended <==> EndsGame(State())
    {
      var currentNumber := numberVar;
      var newNumber := currentNumber * factor;
      numberVar := newNumber;
      UpdateScore(newNumber);
      ended := newNumber >= WinThreshold;
      if ended {
        var finalScore := EndGame();
      }
    }

    /** update_score (Game_Interface.py:41-49). */
    method UpdateScore(number: int)
      modifies this
      ensures State() == ScoreUpdated(old(State()), number)
    {
      if number % 2 == 0 {
        playerScore := playerScore - 1;
      } else {
        playerScore := playerScore + 1;
      }
      if number % 5 == 0 {
        bank := bank + 1;
      }
    }

    /** end_game (Game_Interface.py:55-59); `finalScore` is the score the closing message shows. */
    method EndGame() returns (finalScore: int)
      modifies this
      ensures State() == Ended(old(State()))
      ensures finalScore == playerScore
    {
      playerScore := playerScore + bank;
      finalScore := playerScore;
    }
  }
}
