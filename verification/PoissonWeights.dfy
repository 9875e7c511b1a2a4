/** Poisson weights rate^g / g!, the part of the mass function that survives normalisation. */
module PoissonWeights {
  import opened RealArithmetic

  function Pow(x: real, n: nat): real {
    if n == 0 then 1.0 else x * Pow(x, n - 1)
  }

  function Factorial(n: nat): (f: nat)
    ensures f >= 1
  {
    if n == 0 then 1 else n * Factorial(n - 1)
  }

  function Weight(rate: real, goals: nat): real {
    Pow(rate, goals) / (Factorial(goals) as real)
  }

  /** Total weight of the scores 0 .. n - 1. */
  function Partial(rate: real, n: nat): real {
    if n == 0 then 0.0 else Partial(rate, n - 1) + Weight(rate, n - 1)
  }

  lemma PartialStep(rate: real, n: nat)
    ensures Partial(rate, 0) == 0.0
    ensures Partial(rate, n + 1) == Partial(rate, n) + Weight(rate, n)
  {
  }

  lemma QuotientStep(k: real, x: real, p: real, f: real)
    requires 0.0 < k && 0.0 < f
    ensures k * f != 0.0 && k * ((x * p) / (k * f)) == x * (p / f)
  {
    CancelFactor(k, x * p, f);
    CancelFactor(k, (x * p) / k, f);
    assert k * ((x * p) / k) == x * p;
    assert k * ((x * p) / (k * f)) == (x * p) / f;
    assert (x * p) / f == x * (p / f);
  }

  lemma WeightStep(rate: real, g: nat)
    ensures (g + 1) as real * Weight(rate, g + 1) == rate * Weight(rate, g)
  {
    assert Factorial(g + 1) as real == (g + 1) as real * (Factorial(g) as real);
    QuotientStep((g + 1) as real, rate, Pow(rate, g), Factorial(g) as real);
  }

  lemma {:induction false} WeightSign(rate: real, g: nat)
    requires 0.0 <= rate
    ensures 0.0 <= Weight(rate, g)
    ensures 0.0 < rate || g == 0 ==> 0.0 < Weight(rate, g)
    ensures Weight(rate, 0) == 1.0
  {
    if g > 0 {
      WeightSign(rate, g - 1);
      WeightStep(rate, g - 1);
      var k, w, v := g as real, Weight(rate, g), rate * Weight(rate, g - 1);
      assert k * w == v;
      CancelPositive(k, 0.0, w);
    }
  }

  lemma {:induction false} PartialPositive(rate: real, n: nat)
    requires 0.0 <= rate
    ensures 0.0 <= Partial(rate, n)
    ensures 0 < n ==> 1.0 <= Partial(rate, n)
  {
    if n > 0 {
      PartialPositive(rate, n - 1);
      WeightSign(rate, n - 1);
    }
  }

  lemma RatioStep(k: real, r: real, s: real, rm: real, sm: real, rn: real, sn: real, ri: real, si: real)
    requires 0.0 < k && 0.0 <= r <= s
    requires k * rn == r * rm && k * sn == s * sm
    requires 0.0 <= rm * si <= sm * ri
    ensures rn * si <= sn * ri
  {
    MulMonoBoth(r, s, rm * si, sm * ri);
    assert k * (rn * si) == (k * rn) * si == r * (rm * si);
    assert k * (sn * ri) == (k * sn) * ri == s * (sm * ri);
    CancelPositive(k, rn * si, sn * ri);
  }

  /** Monotone likelihood ratio: the larger rate gains on the smaller one as the score grows. */
  lemma {:induction false} LikelihoodRatio(r: real, s: real, i: nat, n: nat)
    requires 0.0 <= r <= s && i <= n
    ensures Weight(r, n) * Weight(s, i) <= Weight(s, n) * Weight(r, i)
  {
    hide Weight;
    if i < n {
      LikelihoodRatio(r, s, i, n - 1);
      WeightStep(r, n - 1);
      WeightStep(s, n - 1);
      WeightSign(r, n - 1);
      WeightSign(s, i);
      RatioStep(n as real, r, s, Weight(r, n - 1), Weight(s, n - 1),
                Weight(r, n), Weight(s, n), Weight(r, i), Weight(s, i));
    }
  }
}
