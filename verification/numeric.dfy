/** Exact reals with the integer conversions the program uses. */
module Numeric {

  /** `floor`, and `int` of a value that is not negative. */
  function Floor(x: real): (n: int)
    ensures n as real <= x < n as real + 1.0
  {
    x.Floor
  }

  /** `ceil`. */
  function Ceil(x: real): (n: int)
    ensures n as real - 1.0 < x <= n as real
  {
    -((-x).Floor)
  }

  /** `round`: to the nearest integer, halves to the even one. */
  function Round(x: real): (n: int)
    ensures n as real - 0.5 <= x <= n as real + 0.5
  {
    var f := x.Floor;
    var rest := x - f as real;
    if rest < 0.5 then f else if rest > 0.5 then f + 1 else if f % 2 == 0 then f else f + 1
  }

  lemma RoundIsMonotone(x: real, y: real)
    requires x <= y
    ensures Round(x) <= Round(y)
  {
  }

  lemma RoundOfInteger(n: int)
    ensures Round(n as real) == n
  {
  }

  lemma RoundWithin(x: real, n: nat)
    requires 0.0 <= x <= n as real
    ensures 0 <= Round(x) <= n
  {
  }

  /** Rounding keeps two values apart when they are more than one apart; exactly one is not enough. */
  lemma RoundSeparates(x: real, y: real)
    requires x + 1.0 < y
    ensures Round(x) < Round(y)
  {
  }

  /** Two values exactly one apart meet exactly when they are halves around an even integer. */
  lemma OneApartMeetIff(x: real)
    ensures Round(x) == Round(x + 1.0) <==> x - x.Floor as real == 0.5 && x.Floor % 2 == 1
  {
    assert (x + 1.0).Floor == x.Floor + 1;
  }

  function MaxReal(a: real, b: real): real { if a > b then a else b }

  function MinReal(a: real, b: real): real { if a < b then a else b }

  function Abs(x: real): real { if x < 0.0 then -x else x }

  lemma ScaleIsStrict(a: real, b: real, k: real)
    requires a < b && k > 0.0
    ensures a * k < b * k
  {
  }
}
