/** Rounding to a decimal scale, ties to even. */
module Rounding {

  function HalfEven(x: real): (n: int)
    ensures x - 0.5 <= n as real <= x + 0.5
    ensures n as real == x - 0.5 || n as real == x + 0.5 ==> n % 2 == 0
  {
    var floor := x.Floor;
    var rest := x - floor as real;
    if rest < 0.5 || (rest == 0.5 && floor % 2 == 0) then floor else floor + 1
  }

  /** Four decimal places, the scale of the probability columns. */
  function Round4(x: real): (r: real)
    ensures x - 0.00005 <= r <= x + 0.00005
    ensures 0.0 <= x ==> 0.0 <= r
    ensures x <= 1.0 ==> r <= 1.0
  {
    var n := HalfEven(x * 10000.0);
    assert x <= 1.0 ==> n <= 10000;
    assert 0.0 <= x ==> 0 <= n;
    n as real / 10000.0
  }

  /** What is stored has no more decimals than its column. */
  lemma RoundedToScale(x: real)
    ensures (Round4(x) * 10000.0).Floor as real == Round4(x) * 10000.0
    ensures (Round2(x) * 100.0).Floor as real == Round2(x) * 100.0
  {
    var n, m := HalfEven(x * 10000.0), HalfEven(x * 100.0);
    assert Round4(x) * 10000.0 == n as real && Round2(x) * 100.0 == m as real;
  }

  /** Rounding keeps order: two values that round apart by a unit or more are themselves apart. */
  lemma HalfEvenMonotone(x: real, y: real)
    requires x <= y
    ensures HalfEven(x) <= HalfEven(y)
  {
    var a, b := HalfEven(x), HalfEven(y);
    assert a as real - 0.5 <= x <= y <= b as real + 0.5;
    assert a as real <= b as real + 1.0;
    assert a <= b + 1;
    assert a == b + 1 ==> x == y;
  }

  lemma Round4Monotone(x: real, y: real)
    requires x <= y
    ensures Round4(x) <= Round4(y)
  {
    HalfEvenMonotone(x * 10000.0, y * 10000.0);
  }

  /** Two decimal places, the scale of the rating columns. */
  function Round2(x: real): (r: real)
    ensures x - 0.005 <= r <= x + 0.005
  {
    HalfEven(x * 100.0) as real / 100.0
  }

  /**
   Rounding three shares of one leaves a sum within one unit of the fourth place: the three errors
   of at most half a unit cannot reach two units, and the sum is a whole number of units.
   */
  lemma RoundedSharesSum(x: real, y: real, z: real)
    requires x + y + z == 1.0
    ensures 0.9999 <= Round4(x) + Round4(y) + Round4(z) <= 1.0001
  {
    var a, b, c := HalfEven(x * 10000.0), HalfEven(y * 10000.0), HalfEven(z * 10000.0);
    var n := a + b + c;
    assert 10000.0 - 1.5 <= n as real <= 10000.0 + 1.5;
    assert 9999 <= n <= 10001;
  }
}
