/**
 * The two-player game of main.py: class NumberGame keeps the shared number,
 * the bank, both scores and whose turn it is, and its methods change them
 * (main.py:25-31, 56-124, 175-198).
 *
 * The pure functions below give the value each state change produces; the
 * methods of `NumberGame` change the fields step by step as the source does
 * and are proved to reach exactly those values.
 */
module MainGame {
  import opened Wrappers
  import opened Rules
  import Search

  /** The fields of NumberGame that the game logic uses. */
  datatype Snapshot = Snapshot(currentNumber: Option<int>, bank: int, humanScore: int, computerScore: int,
                               isHumanTurn: bool)

  /** The three messages end_game can show (main.py:181-185). */
  datatype Verdict = HumanWins | ComputerWins | Draw

  /** How a move request ended. `NoNumberError` is the TypeError computer_move raises when no number is set. */
  datatype MoveOutcome = Ignored | TurnPassed | GameOver(verdict: Verdict) | NoNumberError

  /** The state right after construction and after reset_game. */
  const Initial: Snapshot := Snapshot(None, 0, 0, 0, true)

  /** The score of the human (`human == true`) or of the computer. */
  function ScoreOf(s: Snapshot, human: bool): int
  {
    if human then s.humanScore else s.computerScore
  }

  /**
   * update_scores (main.py:89-102): the player whose turn flag is set gains a
   * point for an odd number and loses one for an even number, the other
   * player's score stays, and the bank grows by one on a last digit of 0 or 5.
   */
  function ScoresUpdated(s: Snapshot): (t: Snapshot)
    requires s.currentNumber.Some?
    ensures t.currentNumber == s.currentNumber && t.isHumanTurn == s.isHumanTurn
    ensures ScoreOf(t, s.isHumanTurn) == ScoreOf(s, s.isHumanTurn) + Delta(s.currentNumber.value)
    ensures ScoreOf(t, !s.isHumanTurn) == ScoreOf(s, !s.isHumanTurn)
    ensures t.bank == s.bank + 1 <==> EarnsBank(s.currentNumber.value)
    ensures t.bank == s.bank <==> !EarnsBank(s.currentNumber.value)
  {
    var n := s.currentNumber.value;
    var scored :=
      if n % 2 == 0 then
        if s.isHumanTurn then s.(humanScore := s.humanScore - 1) else s.(computerScore := s.computerScore - 1)
      else
        if s.isHumanTurn then s.(humanScore := s.humanScore + 1) else s.(computerScore := s.computerScore + 1);
    if n % 10 == 0 || n % 10 == 5 then scored.(bank := scored.bank + 1) else scored
  }

  /**
   * The bank transfer of end_game (main.py:176-179): the player whose turn
   * flag is set receives the whole bank; the bank itself is not emptied.
   */
  function BankCollected(s: Snapshot): (t: Snapshot)
    ensures ScoreOf(t, s.isHumanTurn) == ScoreOf(s, s.isHumanTurn) + s.bank
    ensures ScoreOf(t, !s.isHumanTurn) == ScoreOf(s, !s.isHumanTurn)
    ensures t.bank == s.bank && t.currentNumber == s.currentNumber && t.isHumanTurn == s.isHumanTurn
  {
    if s.isHumanTurn then s.(humanScore := s.humanScore + s.bank) else s.(computerScore := s.computerScore + s.bank)
  }

  /** The verdict of end_game (main.py:181-185), by strict comparison of the final scores. */
  function VerdictOf(humanScore: int, computerScore: int): (v: Verdict)
    ensures v == HumanWins <==> humanScore > computerScore
    ensures v == ComputerWins <==> computerScore > humanScore
    ensures v == Draw <==> humanScore == computerScore
  {
    if humanScore > computerScore then HumanWins
    else if computerScore > humanScore then ComputerWins
    else Draw
  }

  /**
   * What a move does once its guard has let it through (main.py:77-87 for the
   * human, 115-124 for the computer): multiply, update the scores, then either
   * end the game with the turn flag untouched or hand the turn over.
   * The mover is the player whose flag is set, and when the move ends the game
   * the mover also receives the bank, which already includes this move's gain.
   */
  function Played(s: Snapshot, factor: int, nextHumanTurn: bool): (t: Snapshot)
    requires s.currentNumber.Some?
    ensures t.currentNumber == Some(s.currentNumber.value * factor)
    ensures t.bank == s.bank + BankGain(t.currentNumber.value)
    ensures t.isHumanTurn == if t.currentNumber.value >= WinThreshold then s.isHumanTurn else nextHumanTurn
    ensures ScoreOf(t, s.isHumanTurn) == ScoreOf(s, s.isHumanTurn) + Delta(t.currentNumber.value)
                                         + (if t.currentNumber.value >= WinThreshold then t.bank else 0)
    ensures ScoreOf(t, !s.isHumanTurn) == ScoreOf(s, !s.isHumanTurn)
  {
    var n := s.currentNumber.value * factor;
    var scored := ScoresUpdated(s.(currentNumber := Some(n)));
    if n >= WinThreshold then BankCollected(scored) else scored.(isHumanTurn := nextHumanTurn)
  }

  /** The outcome a move reports once it has been played: the verdict when the number reached the threshold. */
  function OutcomeOf(t: Snapshot): (o: MoveOutcome)
    requires t.currentNumber.Some?
    ensures o.GameOver? <==> t.currentNumber.value >= WinThreshold
    ensures o.GameOver? ==> o.verdict == VerdictOf(t.humanScore, t.computerScore)
    ensures !o.GameOver? ==> o == TurnPassed
  {
    if t.currentNumber.value >= WinThreshold then GameOver(VerdictOf(t.humanScore, t.computerScore)) else TurnPassed
  }

  /**
   * The search's children differ from the moves actually played in one way:
   * a real move changes only the mover's score, a child changes both.  On the
   * number, the bank and the mover's score the two agree.
   */
  lemma ChildDiffersFromPlayedMove(s: Snapshot, factor: int)
    requires s.currentNumber.Some? && s.currentNumber.value * factor < WinThreshold
    ensures var t := Played(s, factor, !s.isHumanTurn);
            var c := Search.Child(s.currentNumber.value, s.bank, s.humanScore, s.computerScore, factor);
            && c.number == t.currentNumber.value && c.bank == t.bank
            && (if s.isHumanTurn then c.humanScore == t.humanScore else c.computerScore == t.computerScore)
            && (if s.isHumanTurn then c.computerScore == t.computerScore + Delta(c.number)
                else c.humanScore == t.humanScore + Delta(c.number))
  {
  }

  /** The game window of main.py, without its widgets. */
  class NumberGame {
    var currentNumber: Option<int>
    var bank: int
    var humanScore: int
    var computerScore: int
    var isHumanTurn: bool
    /** The search depth (main.py:31); the source never changes it. */
    const maxDepth: int := 3

    function State(): Snapshot
      reads this
    {
      Snapshot(currentNumber, bank, humanScore, computerScore, isHumanTurn)
    }

    /** __init__ (main.py:26-31): no number, empty bank, zero scores, the human to move. */
    constructor ()
      ensures State() == Initial
    {
      currentNumber := None;
      bank := 0;
      humanScore := 0;
      computerScore := 0;
      isHumanTurn := true;
    }

    /**
     * start_game (main.py:56-70).  `entry` is the integer the entry field
     * parses to, or None when int() rejects its text.  The number is stored
     * before the range check, so a rejected integer stays in currentNumber
     * while everything else is left as it was.
     */
    method StartGame(entry: Option<int>) returns (accepted: bool)
      modifies this
      ensures accepted <==> entry.Some? && MinStart <= entry.value <= MaxStart
      ensures entry.None? ==> State() == old(State())
      ensures accepted ==> State() == Snapshot(entry, 0, 0, 0, true)
      ensures entry.Some? && !accepted ==> State() == old(State()).(currentNumber := entry)
    {
      if entry.None? {
        return false;
      }
      currentNumber := entry;
      if !(MinStart <= entry.value <= MaxStart) {
        return false;
      }
      bank := 0;
      humanScore := 0;
      computerScore := 0;
      isHumanTurn := true;
      return true;
    }

    /** update_scores (main.py:89-102). */
    method UpdateScores()
      requires currentNumber.Some?
      modifies this
      ensures State() == ScoresUpdated(old(State()))
    {
      if currentNumber.value % 2 == 0 {
        if isHumanTurn {
          humanScore := humanScore - 1;
        } else {
          computerScore := computerScore - 1;
        }
      } else {
        if isHumanTurn {
          humanScore := humanScore + 1;
        } else {
          computerScore := computerScore + 1;
        }
      }
      if currentNumber.value % 10 == 0 || currentNumber.value % 10 == 5 {
        bank := bank + 1;
      }
    }

    /** end_game (main.py:175-185): pay the bank to the player whose flag is set and report the verdict. */
    method EndGame() returns (verdict: Verdict)
      modifies this
      ensures State() == BankCollected(old(State()))
      ensures verdict == VerdictOf(humanScore, computerScore)
    {
      if isHumanTurn {
        humanScore := humanScore + bank;
      } else {
        computerScore := computerScore + bank;
      }
      verdict := Draw;
      if humanScore > computerScore {
        verdict := HumanWins;
      } else if computerScore > humanScore {
        verdict := ComputerWins;
      }
    }

    /**
     * make_move (main.py:72-87).  Nothing happens without a number or out of
     * turn; otherwise the human's move is played and either ends the game
     * (the turn flag stays with the human) or passes the turn to the computer.
     */
    method MakeMove(factor: int) returns (outcome: MoveOutcome)
      modifies this
      ensures old(currentNumber).None? || !old(isHumanTurn) ==> State() == old(State()) && outcome == Ignored
      ensures old(currentNumber).Some? && old(isHumanTurn) ==>
                State() == Played(old(State()), factor, false) && outcome == OutcomeOf(State())
    {
      if currentNumber.None? || !isHumanTurn {
        return Ignored;
      }
      currentNumber := Some(currentNumber.value * factor);
      UpdateScores();
      if currentNumber.value >= WinThreshold {
        var verdict := EndGame();
        return GameOver(verdict);
      }
      isHumanTurn := false;
      return TurnPassed;
    }

    /**
     * computer_move (main.py:106-124).  Comparing a missing number with the
     * threshold raises; a finished game is left alone.  Otherwise the root
     * search chooses the factor, which is always 2, and the move is played
     * with the turn handed back to the human.  The turn flag is not checked.
     */
    method ComputerMove() returns (outcome: MoveOutcome)
      modifies this
      ensures old(currentNumber).None? ==> State() == old(State()) && outcome == NoNumberError
      ensures old(currentNumber).Some? && old(currentNumber).value >= WinThreshold ==>
                State() == old(State()) && outcome == Ignored
      ensures old(currentNumber).Some? && old(currentNumber).value < WinThreshold ==>
                State() == Played(old(State()), 2, true) && outcome == OutcomeOf(State())
    {
      if currentNumber.None? {
        return NoNumberError;
      }
      if currentNumber.value >= WinThreshold {
        return Ignored;
      }
      var bestMove, bestValue := Search.AlphaBeta(currentNumber.value, bank, humanScore, computerScore, 0, true,
                                                  Search.NegInf, Search.PosInf, maxDepth);
      var factor := bestMove.value;
      currentNumber := Some(currentNumber.value * factor);
      UpdateScores();
      if currentNumber.value >= WinThreshold {
        var verdict := EndGame();
        return GameOver(verdict);
      }
      isHumanTurn := true;
      return TurnPassed;
    }

    /** reset_game (main.py:190-198). */
    method ResetGame()
      modifies this
      ensures State() == Initial
    {
      currentNumber := None;
      bank := 0;
      humanScore := 0;
      computerScore := 0;
      isHumanTurn := true;
    }
  }
}
