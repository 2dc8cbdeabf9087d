/**
 * The computer opponent of main.py: a depth-bounded alpha-beta search over
 * the factors 2, 3 and 4 (main.py:126-167) and its evaluation function
 * (main.py:169-173).
 *
 * The search generates each child by applying the same score change to
 * BOTH players, and the evaluation ignores the bank and the number, so the
 * score difference is the same at every node of the tree and every child
 * ties with the first one.  With strict comparisons the first factor wins:
 * the search always answers "multiply by 2".  `AlphaBeta` proves exactly that.
 */
module Search {
  import opened Wrappers
  import opened Rules

  /** Integers extended with the two infinities that the source uses only as sentinels. */
  datatype ExtInt = NegInf | Fin(n: int) | PosInf

  predicate Less(a: ExtInt, b: ExtInt)
  {
    match (a, b)
    case (NegInf, NegInf) => false
    case (NegInf, _) => true
    case (Fin(x), Fin(y)) => x < y
    case (Fin(_), PosInf) => true
    case _ => false
  }

  predicate AtMost(a: ExtInt, b: ExtInt)
  {
    !Less(b, a)
  }

  function Max(a: ExtInt, b: ExtInt): (m: ExtInt)
    ensures m == a || m == b
    ensures AtMost(a, m) && AtMost(b, m)
  {
    if Less(a, b) then b else a
  }

  function Min(a: ExtInt, b: ExtInt): (m: ExtInt)
    ensures m == a || m == b
    ensures AtMost(m, a) && AtMost(m, b)
  {
    if Less(b, a) then b else a
  }

  /** One node of the search tree: a hypothetical number, bank and pair of scores. */
  datatype Node = Node(number: int, bank: int, humanScore: int, computerScore: int)

  /**
   * The child the search explores for one factor (main.py:134-137 and 153-156).
   * Both scores move by the parity delta, so their difference stays put.
   */
  function Child(number: int, bank: int, humanScore: int, computerScore: int, factor: int): (c: Node)
    ensures c.number == number * factor
    ensures c.humanScore - humanScore == c.computerScore - computerScore == Delta(c.number)
    ensures c.computerScore - c.humanScore == computerScore - humanScore
    ensures c.bank - bank == BankGain(c.number)
  {
    var n := number * factor;
    var d := if n % 2 != 0 then 1 else -1;
    Node(n, bank + (if n % 10 == 0 || n % 10 == 5 then 1 else 0), humanScore + d, computerScore + d)
  }

  /** The heuristic: the score difference from the computer's side, for terminal and non-terminal nodes alike. */
  function Evaluate(number: int, bank: int, humanScore: int, computerScore: int): (r: int)
    ensures r == computerScore - humanScore
  {
    if number >= WinThreshold then computerScore - humanScore else computerScore - humanScore
  }

  /** Neither the number nor the bank reaches the evaluation, as follows from the postcondition of `Evaluate`. */
  lemma EvaluateIgnoresNumberAndBank(n1: int, b1: int, n2: int, b2: int, humanScore: int, computerScore: int)
    ensures Evaluate(n1, b1, humanScore, computerScore) == Evaluate(n2, b2, humanScore, computerScore)
  {
  }

  /**
   * alpha_beta of main.py:126-167, returning the pair [best_move, value].
   * The leaf test, the fixed factor order, the strict `>` / `<` updates,
   * the alpha / beta updates and the cut-off `beta <= alpha` follow the source.
   * Every node is valued at the root's score difference, and a node that is
   * not a leaf always chooses factor 2.
   */
  method AlphaBeta(number: int, bank: int, humanScore: int, computerScore: int, depth: int,
                   maximizingPlayer: bool, alpha: ExtInt, beta: ExtInt, maxDepth: int)
    returns (bestMove: Option<int>, value: ExtInt)
    requires depth <= maxDepth
    ensures value == Fin(computerScore - humanScore)
    ensures bestMove == if depth == maxDepth || number >= WinThreshold then None else Some(2)
    decreases maxDepth - depth
  {
    if depth == maxDepth || number >= WinThreshold {
      return None, Fin(Evaluate(number, bank, humanScore, computerScore));
    }
    var a, b := alpha, beta;
    bestMove := None;
    if maximizingPlayer {
      var maxEval := NegInf;
      var i := 0;
      while i < |Factors|
        invariant 0 <= i <= |Factors|
        invariant i == 0 ==> maxEval == NegInf && bestMove == None
        invariant i > 0 ==> maxEval == Fin(computerScore - humanScore) && bestMove == Some(2)
      {
        var factor := Factors[i];
        var child := Child(number, bank, humanScore, computerScore, factor);
        var childMove, evalScore := AlphaBeta(child.number, child.bank, child.humanScore, child.computerScore,
                                              depth + 1, false, a, b, maxDepth);
        if Less(maxEval, evalScore) {
          maxEval := evalScore;
          bestMove := Some(factor);
        }
        a := Max(a, evalScore);
        if AtMost(b, a) {
          break;
        }
        i := i + 1;
      }
      value := maxEval;
    } else {
      var minEval := PosInf;
      var i := 0;
      while i < |Factors|
        invariant 0 <= i <= |Factors|
        invariant i == 0 ==> minEval == PosInf && bestMove == None
        invariant i > 0 ==> minEval == Fin(computerScore - humanScore) && bestMove == Some(2)
      {
        var factor := Factors[i];
        var child := Child(number, bank, humanScore, computerScore, factor);
        var childMove, evalScore := AlphaBeta(child.number, child.bank, child.humanScore, child.computerScore,
                                              depth + 1, true, a, b, maxDepth);
        if Less(evalScore, minEval) {
          minEval := evalScore;
          bestMove := Some(factor);
        }
        b := Min(b, evalScore);
        if AtMost(b, a) {
          break;
        }
        i := i + 1;
      }
      value := minEval;
    }
  }
}
