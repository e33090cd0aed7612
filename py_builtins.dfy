/**
 * The Python and numpy built-ins that the modelled code relies on, over exact
 * reals: int() of a float, round() of a float, max()/min() of a list and
 * np.argmax.
 */
module PyBuiltins {

  /** int(r) for a float r: truncation toward zero. */
  function Trunc(r: real): (n: int)
    ensures 0.0 <= r ==> 0 <= n && n as real <= r < n as real + 1.0
    ensures r < 0.0 ==> n <= 0 && n as real - 1.0 < r <= n as real
  {
    if r >= 0.0 then r.Floor else -((-r).Floor)
  }

  /** round(r) for a float r: the nearest integer, a tie going to the even one. */
  function RoundHalfEven(r: real): (n: int)
    ensures -0.5 <= r - n as real <= 0.5
    ensures (r - n as real == 0.5 || n as real - r == 0.5) ==> n % 2 == 0
  {
    var f := r.Floor;
    var frac := r - f as real;
    if frac < 0.5 then f
    else if frac > 0.5 then f + 1
    else if f % 2 == 0 then f
    else f + 1
  }

  /** The two properties of RoundHalfEven determine it: it is the only such integer. */
  lemma RoundHalfEvenUnique(r: real, n: int)
    requires -0.5 <= r - n as real <= 0.5
    requires (r - n as real == 0.5 || n as real - r == 0.5) ==> n % 2 == 0
    ensures n == RoundHalfEven(r)
  {
    // two distinct integers within 1/2 of r would form a tie, and both would be even
  }

  /** Rounding an integer gives it back; rounding commutes with negation (half-even is symmetric). */
  lemma RoundHalfEvenSymmetric(r: real)
    ensures RoundHalfEven(-r) == -RoundHalfEven(r)
    ensures r == r.Floor as real ==> RoundHalfEven(r) == r.Floor
  {
    var n := RoundHalfEven(r);
    RoundHalfEvenUnique(-r, -n);
    if r == r.Floor as real {
      RoundHalfEvenUnique(r, r.Floor);
    }
  }

  /** max(s) for a non-empty list. */
  function Max(s: seq<real>): (m: real)
    requires |s| > 0
    ensures m in s
    ensures forall i :: 0 <= i < |s| ==> s[i] <= m
  {
    if |s| == 1 then s[0]
    else
      var rest := Max(s[..|s| - 1]);
      assert forall i :: 0 <= i < |s| - 1 ==> s[..|s| - 1][i] == s[i];
      if s[|s| - 1] > rest then s[|s| - 1] else rest
  }

  /** min(s) for a non-empty list. */
  function Min(s: seq<real>): (m: real)
    requires |s| > 0
    ensures m in s
    ensures forall i :: 0 <= i < |s| ==> m <= s[i]
  {
    if |s| == 1 then s[0]
    else
      var rest := Min(s[..|s| - 1]);
      assert forall i :: 0 <= i < |s| - 1 ==> s[..|s| - 1][i] == s[i];
      if s[|s| - 1] < rest then s[|s| - 1] else rest
  }

  /** np.argmax(s): the FIRST index holding the maximal value. */
  function FirstArgMax(s: seq<real>): (j: nat)
    requires |s| > 0
    ensures j < |s|
    ensures forall i :: 0 <= i < |s| ==> s[i] <= s[j]
    ensures forall i :: 0 <= i < j ==> s[i] < s[j]
  {
    if |s| == 1 then 0
    else
      var k := FirstArgMax(s[..|s| - 1]);
      assert forall i :: 0 <= i < |s| - 1 ==> s[..|s| - 1][i] == s[i];
      if s[|s| - 1] > s[k] then |s| - 1 else k
  }
}
