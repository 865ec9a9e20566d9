/** Rounding as Unity's Mathf does it, over the reals that stand in for floats. */
module Mathf {

  /** Mathf.Round and Mathf.RoundToInt: the nearest integer, a tie going to the
      even neighbour (the default of System.Math.Round that both call). */
  function Round(x: real): (n: int)
    ensures x - 0.5 <= n as real <= x + 0.5
    ensures IsTie(x, n) ==> n % 2 == 0
  {
    var f := x.Floor;
    var d := x - f as real;
    if d < 0.5 then f
    else if d > 0.5 then f + 1
    else if f % 2 == 0 then f else f + 1
  }

  /** The integer n lies exactly half-way from x. */
  predicate IsTie(x: real, n: int) {
    n as real - x == 0.5 || x - n as real == 0.5
  }

  /** The two clauses of Round's contract pin its result down: any integer
      within a half of x that is even on a tie is Round(x). */
  lemma RoundUnique(x: real, k: int)
    requires x - 0.5 <= k as real <= x + 0.5
    requires IsTie(x, k) ==> k % 2 == 0
    ensures Round(x) == k
  {
    var n := Round(x);
    if n != k {
      assert n == k + 1 || n == k - 1;
      assert IsTie(x, n) && IsTie(x, k);
    }
  }

  /** Rounding an integer gives it back. */
  lemma RoundOfInteger(k: int)
    ensures Round(k as real) == k
  {
    RoundUnique(k as real, k);
  }

  /** Rounding a value between two integers stays between them. */
  lemma RoundBetween(x: real, lo: int, hi: int)
    requires lo as real <= x <= hi as real
    ensures lo <= Round(x) <= hi
  {
  }
}
