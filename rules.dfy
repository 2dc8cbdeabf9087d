/**
 * The integer rules that both versions of the multiplication game share:
 * the threshold that ends a game, the legal range of starting numbers,
 * the factors a player may choose, the parity rule for scores and the
 * last-digit rule for the bank.
 *
 * Python's `%` with a positive divisor floors, which for a positive
 * divisor gives the same remainder as Dafny's Euclidean `%`, so the
 * tests below are written with Dafny's `%` directly.
 */
module Rules {

  /** A game is over once the number reaches this value (main.py:80, 118, 127, 171). */
  const WinThreshold: int := 1200

  /** The accepted starting numbers (main.py:59). */
  const MinStart: int := 8
  const MaxStart: int := 18

  /** The factors offered to both players, in the order the search tries them. */
  const Factors: seq<int> := [2, 3, 4]

  /** Score change for the player whose move produced `n`: lose a point on an even number, gain one on an odd number. */
  function Delta(n: int): (d: int)
    ensures d == 1 || d == -1
    ensures d == 1 <==> n % 2 != 0
  {
    if n % 2 == 0 then -1 else 1
  }

  /** The bank grows when the number's last decimal digit is 0 or 5. */
  predicate EarnsBank(n: int)
  {
    n % 10 == 0 || n % 10 == 5
  }

  /** The amount the bank grows by when a move produces `n`. */
  function BankGain(n: int): (g: int)
    ensures g == 0 || g == 1
    ensures g == 1 <==> EarnsBank(n)
  {
    if EarnsBank(n) then 1 else 0
  }

  /** The last-digit test is the same as divisibility by five, the test the single-player version uses. */
  lemma EarnsBankIffMultipleOfFive(n: int)
    ensures EarnsBank(n) <==> n % 5 == 0
  {
  }
}
