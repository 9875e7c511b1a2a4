/** Small facts about real multiplication and division that the solver does not find on its own. */
module RealArithmetic {

  lemma MulMono(a: real, b: real, c: real)
    requires a <= b && 0.0 <= c
    ensures a * c <= b * c && c * a <= c * b
  {
    assert 0.0 <= (b - a) * c;
  }

  lemma MulNonNegative(a: real, b: real)
    requires 0.0 <= a && 0.0 <= b
    ensures 0.0 <= a * b
  {
  }

  lemma MulPositive(a: real, b: real)
    requires 0.0 < a && 0.0 < b
    ensures 0.0 < a * b
  {
  }

  /** Comparing two fractions by their cross products. */
  lemma CrossMultiply(a: real, b: real, c: real, d: real)
    requires 0.0 < b && 0.0 < d
    ensures a / b <= c / d <==> a * d <= c * b
    ensures a / b == c / d <==> a * d == c * b
  {
    var x, y := a / b, c / d;
    assert a == x * b && c == y * d;
    assert a * d == x * (b * d) && c * b == y * (b * d);
    var bd := b * d;
    assert 0.0 < bd;
    if x <= y {
      MulMono(x, y, bd);
    }
    if y < x {
      assert 0.0 < (x - y) * bd;
    }
  }

  /** A common factor cancels from a fraction. */
  lemma CancelFactor(c: real, a: real, b: real)
    requires c != 0.0 && b != 0.0
    ensures c * b != 0.0
    ensures (c * a) / (c * b) == a / b
  {
    var x := a / b;
    assert a == x * b;
    assert c * a == x * (c * b);
  }

  /** The product of two nonnegative inequalities. */
  lemma MulMonoBoth(a: real, b: real, c: real, d: real)
    requires 0.0 <= a <= b && 0.0 <= c <= d
    ensures a * c <= b * d
  {
    MulMono(a, b, c);
    MulMono(c, d, b);
  }

  /** A positive common factor drops out of an inequality. */
  lemma CancelPositive(k: real, a: real, b: real)
    requires 0.0 < k && k * a <= k * b
    ensures a <= b
  {
    var inverse := 1.0 / k;
    assert k * inverse == 1.0;
    MulMono(k * a, k * b, inverse);
    assert (k * a) * inverse == a * (k * inverse);
    assert (k * b) * inverse == b * (k * inverse);
  }
}
