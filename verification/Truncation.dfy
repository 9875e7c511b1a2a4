/** What stopping the score matrix at MAX_GOALS costs, for every larger bound it could have used. */
module Truncation {
  import opened RealArithmetic
  import opened PoissonWeights
  import opened ScoreMatrix

  const MAX_GOALS: nat := 10

  /** Share of the larger matrix's weight that the smaller one leaves out. */
  function DroppedShare(home: real, away: real, bound: nat, larger: nat): real
    requires 0.0 <= home && 0.0 <= away && bound <= larger
  {
    TotalPositive(home, away, larger + 1);
    1.0 - Total(home, away, bound + 1) / Total(home, away, larger + 1)
  }

  /*************************** A bigger matrix only adds weight ***************************/

  lemma {:induction false} RowGrows(away: real, e: Event, h: nat, n: nat, m: nat)
    requires 0.0 <= away && n <= m
    ensures RowMass(away, e, h, n) <= RowMass(away, e, h, m)
  {
    hide Weight;
    if n < m {
      RowGrows(away, e, h, n, m - 1);
      WeightSign(away, m - 1);
    }
  }

  lemma {:induction false} MassGrows(home: real, away: real, e: Event, rows: nat, columns: nat, moreRows: nat,
                                     moreColumns: nat)
    requires 0.0 <= home && 0.0 <= away && rows <= moreRows && columns <= moreColumns
    ensures Mass(home, away, e, rows, columns) <= Mass(home, away, e, moreRows, moreColumns)
    decreases moreRows
  {
    hide Weight, RowMass, Mass;
    if moreRows == 0 {
      MassStep(home, away, e, 0, columns);
      MassStep(home, away, e, 0, moreColumns);
    } else {
      var h := moreRows - 1;
      WeightSign(home, h);
      RowSign(away, e, h, moreColumns);
      MassStep(home, away, e, h, moreColumns);
      MulNonNegative(Weight(home, h), RowMass(away, e, h, moreColumns));
      if rows < moreRows {
        MassGrows(home, away, e, rows, columns, h, moreColumns);
      } else {
        MassGrows(home, away, e, h, columns, h, moreColumns);
        MassStep(home, away, e, h, columns);
        RowGrows(away, e, h, columns, moreColumns);
        MulMono(RowMass(away, e, h, columns), RowMass(away, e, h, moreColumns), Weight(home, h));
      }
    }
  }

  /** a/b and c/d are close when the numerators differ by no more than the denominators do. */
  lemma CloseFractions(a: real, b: real, c: real, d: real)
    requires 0.0 < b <= d && 0.0 <= a <= b && a <= c <= a + (d - b)
    ensures -(1.0 - b / d) <= c / d - a / b <= 1.0 - b / d
  {
    var x, y, z, shrunk := a / b, b / d, c / d, a / d;
    assert 0.0 <= x <= 1.0 && 0.0 <= y <= 1.0 by { FractionInUnit(a, b); FractionInUnit(b, d); }
    assert shrunk == x * y by { FractionChain(a, b, d); }
    assert x - (1.0 - y) <= shrunk <= x by { ShareGap(x, y); }
    assert shrunk <= z by { MulMono(a, c, d); CrossMultiply(a, d, c, d); }
    assert z <= shrunk + 1.0 - y by {
      MulMono(c, a + (d - b), d);
      CrossMultiply(c, d, a + (d - b), d);
      FractionChain(a, b, d);
      assert (a + (d - b)) / d == a / d + d / d - b / d;
    }
  }

  lemma FractionChain(a: real, b: real, d: real)
    requires 0.0 < b && 0.0 < d
    ensures a / d == (a / b) * (b / d) && d / d == 1.0
  {
    var x, y := a / b, b / d;
    assert a == x * b && b == y * d;
    assert a == (x * y) * d;
    CrossMultiply(a, d, x * y, 1.0);
    CrossMultiply(d, d, 1.0, 1.0);
  }

  lemma ShareGap(x: real, y: real)
    requires 0.0 <= x <= 1.0 && 0.0 <= y <= 1.0
    ensures x - (1.0 - y) <= x * y <= x
  {
    MulMono(x, 1.0, 1.0 - y);
    MulNonNegative(x, 1.0 - y);
    assert x * (1.0 - y) == x - x * y;
  }

  /** No event's probability, exact scores included, moves by more than the dropped share. */
  lemma ShiftBoundedByDroppedShare(home: real, away: real, e: Event, bound: nat, larger: nat)
    requires 0.0 <= home && 0.0 <= away && bound <= larger
    ensures -DroppedShare(home, away, bound, larger) <= Prob(home, away, e, larger) - Prob(home, away, e, bound)
         <= DroppedShare(home, away, bound, larger)
  {
    hide Mass, Total;
    var n, m := bound + 1, larger + 1;
    TotalPositive(home, away, n);
    TotalPositive(home, away, m);
    MassSign(home, away, e, n, n);
    MassSign(home, away, Not(e), n, n);
    MassGrows(home, away, e, n, n, m, m);
    MassGrows(home, away, Not(e), n, n, m, m);
    TotalSplits(home, away, e, n);
    TotalSplits(home, away, e, m);
    CloseFractions(Mass(home, away, e, n, n), Total(home, away, n), Mass(home, away, e, m, m), Total(home, away, m));
  }

  lemma TotalSplits(home: real, away: real, e: Event, n: nat)
    ensures Mass(home, away, e, n, n) + Mass(home, away, Not(e), n, n) == Total(home, away, n)
  {
    MassComplement(home, away, e, n, n);
  }

  /*************************** The tail grows with the rates ***************************/

  lemma {:induction false} TailRatio(r: real, s: real, n: nat, m: nat)
    requires 0.0 <= r <= s && n <= m
    ensures Partial(s, n) * Partial(r, m) <= Partial(r, n) * Partial(s, m)
  {
    hide Weight, Partial;
    if n < m {
      TailRatio(r, s, n, m - 1);
      RatioSummed(r, s, n, m - 1);
      PartialStep(r, m - 1);
      PartialStep(s, m - 1);
      TailRatioStep(Partial(r, n), Partial(s, n), Partial(r, m - 1), Partial(s, m - 1), Partial(r, m), Partial(s, m),
                    Weight(r, m - 1), Weight(s, m - 1));
    }
  }

  lemma TailRatioStep(rn: real, sn: real, rm: real, sm: real, rNext: real, sNext: real, u: real, v: real)
    requires rNext == rm + u && sNext == sm + v
    requires sn * rm <= rn * sm && u * sn <= v * rn
    ensures sn * rNext <= rn * sNext
  {
    assert sn * rNext == sn * rm + u * sn && rn * sNext == rn * sm + v * rn;
  }

  /** Higher rates push more weight past the bound. */
  lemma DroppedShareMonotone(home: real, away: real, home': real, away': real, bound: nat, larger: nat)
    requires 0.0 <= home <= home' && 0.0 <= away <= away' && bound <= larger
    ensures DroppedShare(home, away, bound, larger) <= DroppedShare(home', away', bound, larger)
  {
    hide Weight, Partial;
    var n, m := bound + 1, larger + 1;
    TailRatio(home, home', n, m);
    TailRatio(away, away', n, m);
    PartialPositive(home, n); PartialPositive(home, m); PartialPositive(home', n); PartialPositive(home', m);
    PartialPositive(away, n); PartialPositive(away, m); PartialPositive(away', n); PartialPositive(away', m);
    TotalPositive(home, away, m);
    TotalPositive(home', away', m);
    var a, b, c, d := Partial(home', n), Partial(home, m), Partial(home, n), Partial(home', m);
    var p, q, r, s := Partial(away', n), Partial(away, m), Partial(away, n), Partial(away', m);
    MulNonNegative(a, b);
    MulNonNegative(p, q);
    MulMonoBoth(a * b, c * d, p * q, r * s);
    assert (a * p) * (b * q) == (a * b) * (p * q) && (c * r) * (d * s) == (c * d) * (r * s);
    CrossMultiply(a * p, d * s, c * r, b * q);
  }

  /*************************** Exactly when the tail is negligible ***************************/

  lemma {:induction false} PartialGrows(rate: real, n: nat, m: nat)
    requires 0.0 <= rate && n <= m
    ensures Partial(rate, n) <= Partial(rate, m)
  {
    hide Weight;
    if n < m {
      PartialGrows(rate, n, m - 1);
      WeightSign(rate, m - 1);
    }
  }

  /** The sum of the weights comes within slack of exp(x). */
  ghost predicate Approaches(exp: real -> real, x: real, slack: real) {
    exists n: nat :: exp(x) - slack <= Partial(x, n)
  }

  /** What exp is to the matrix: the limit of the partial weights, and its reciprocal at the opposite rate. */
  ghost predicate IsExponential(exp: real -> real) {
    && (forall x, n: nat | 0.0 <= x :: Partial(x, n) <= exp(x))
    && (forall x, slack | 0.0 <= x && 0.0 < slack :: Approaches(exp, x, slack))
    && (forall x | 0.0 <= x :: exp(-x) * exp(x) == 1.0)
  }

  /** What the matrix adds up to before it is normalised. */
  function RawTotal(exp: real -> real, home: real, away: real, bound: nat): real {
    exp(-home) * exp(-away) * Total(home, away, bound + 1)
  }

  /** The raw total against the limit weights, with the two reciprocals multiplied out. */
  lemma RawTotalAgainstLimit(exp: real -> real, home: real, away: real, bound: nat, keep: real)
    requires IsExponential(exp) && 0.0 <= home && 0.0 <= away
    ensures 1.0 <= exp(home) && 1.0 <= exp(away)
    ensures keep <= RawTotal(exp, home, away, bound) <==> keep * (exp(home) * exp(away)) <= Total(home, away, bound + 1)
  {
    PartialPositive(home, 1);
    PartialPositive(away, 1);
    assert Partial(home, 1) <= exp(home) && Partial(away, 1) <= exp(away);
    var x, y, u, v := exp(home), exp(away), exp(-home), exp(-away);
    assert u * x == 1.0 && v * y == 1.0;
    hide Partial, Total, IsExponential;
    MultiplyOut(x, y, u, v, Total(home, away, bound + 1), keep);
  }

  lemma MultiplyOut(x: real, y: real, u: real, v: real, total: real, keep: real)
    requires 0.0 < x && 0.0 < y && u * x == 1.0 && v * y == 1.0
    ensures keep <= u * v * total <==> keep * (x * y) <= total
  {
    var limit, shrink := x * y, u * v;
    MulPositive(x, y);
    assert shrink * limit == (u * x) * (v * y) == 1.0;
    var raw := shrink * total;
    assert raw * limit == total * (shrink * limit) == total;
    if keep <= raw {
      MulMono(keep, raw, limit);
    }
    if keep * limit <= total {
      assert limit * keep <= limit * raw;
      CancelPositive(limit, keep, raw);
    }
  }

  /** Two factors each within slack of their limits have a product within slack * (x + y) of its own. */
  lemma ProductApproaches(x: real, y: real, p: real, q: real, slack: real)
    requires 0.0 <= p <= x && 0.0 <= q <= y && x - slack <= p && y - slack <= q && 0.0 <= slack
    ensures x * y - slack * (x + y) <= p * q
  {
    var u, v := y - q, x - p;
    MulMono(u, slack, x);
    MulMono(v, slack, q);
    MulMono(q, y, slack);
    var xu, qv := x * u, q * v;
    assert x * y == p * q + xu + qv;
  }

  /** Some larger matrix comes within any gap of the limit weight. */
  lemma TotalsApproach(exp: real -> real, home: real, away: real, bound: nat, gap: real) returns (larger: nat)
    requires IsExponential(exp) && 0.0 <= home && 0.0 <= away && 0.0 < gap
    ensures bound <= larger && exp(home) * exp(away) - gap <= Total(home, away, larger + 1)
  {
    RawTotalAgainstLimit(exp, home, away, bound, 0.0);
    var x, y := exp(home), exp(away);
    var slack := gap / (x + y);
    assert 0.0 < slack && slack * (x + y) == gap;
    assert Approaches(exp, home, slack) && Approaches(exp, away, slack);
    var n: nat :| x - slack <= Partial(home, n);
    var m: nat :| y - slack <= Partial(away, m);
    larger := n + m + bound;
    PartialGrows(home, n, larger + 1);
    PartialGrows(away, m, larger + 1);
    PartialPositive(home, larger + 1);
    PartialPositive(away, larger + 1);
    assert Partial(home, larger + 1) <= x && Partial(away, larger + 1) <= y;
    hide Partial;
    ProductApproaches(x, y, Partial(home, larger + 1), Partial(away, larger + 1), slack);
  }

  lemma DroppedShareAgainst(home: real, away: real, bound: nat, larger: nat, keep: real)
    requires 0.0 <= home && 0.0 <= away && bound <= larger
    ensures DroppedShare(home, away, bound, larger) <= 1.0 - keep
       <==> keep * Total(home, away, larger + 1) <= Total(home, away, bound + 1)
  {
    TotalPositive(home, away, larger + 1);
    hide Total;
    CrossMultiply(keep, 1.0, Total(home, away, bound + 1), Total(home, away, larger + 1));
  }

  lemma EnoughIsNegligible(exp: real -> real, home: real, away: real, bound: nat, larger: nat, keep: real)
    requires IsExponential(exp) && 0.0 <= home && 0.0 <= away && 0.0 < keep < 1.0 && bound <= larger
    requires keep * (exp(home) * exp(away)) <= Total(home, away, bound + 1)
    ensures DroppedShare(home, away, bound, larger) <= 1.0 - keep
  {
    hide DroppedShare;
    TotalBelowLimit(exp, home, away, larger);
    hide IsExponential, Total;
    KeptOfLess(keep, Total(home, away, larger + 1), exp(home) * exp(away), Total(home, away, bound + 1));
    DroppedShareAgainst(home, away, bound, larger, keep);
  }

  lemma KeptOfLess(keep: real, less: real, limit: real, base: real)
    requires 0.0 < keep && less <= limit && keep * limit <= base
    ensures keep * less <= base
  {
    MulMono(less, limit, keep);
  }

  lemma ShortIsNoticed(exp: real -> real, home: real, away: real, bound: nat, keep: real) returns (larger: nat)
    requires IsExponential(exp) && 0.0 <= home && 0.0 <= away && 0.0 < keep < 1.0
    requires Total(home, away, bound + 1) < keep * (exp(home) * exp(away))
    ensures bound <= larger && 1.0 - keep < DroppedShare(home, away, bound, larger)
  {
    hide DroppedShare, Total;
    var limit, total := exp(home) * exp(away), Total(home, away, bound + 1);
    var gap := (keep * limit - total) / 2.0;
    larger := TotalsApproach(exp, home, away, bound, gap);
    hide IsExponential;
    GapKept(keep, limit, total, gap, Total(home, away, larger + 1));
    DroppedShareAgainst(home, away, bound, larger, keep);
  }

  lemma GapKept(keep: real, limit: real, total: real, gap: real, larger: real)
    requires 0.0 < keep < 1.0 && 0.0 < gap && total + 2.0 * gap == keep * limit && limit - gap <= larger
    ensures total < keep * larger
  {
    MulMono(keep, 1.0, gap);
    var near := limit - gap;
    MulMono(near, larger, keep);
    var x, y, z, whole := keep * near, keep * gap, keep * larger, keep * limit;
    assert whole == x + y;
    assert x <= z;
    assert y <= gap;
    assert total + 2.0 * gap == whole;
    assert total < z;
  }

  /**
   The exact condition. However far a larger matrix runs, stopping at the bound leaves out no more
   than the given share if and only if the un-normalised matrix already adds up to the rest.
   */
  lemma TailNegligibleIff(exp: real -> real, home: real, away: real, bound: nat, share: real)
    requires IsExponential(exp) && 0.0 <= home && 0.0 <= away && 0.0 < share < 1.0
    ensures (forall larger: nat | bound <= larger :: DroppedShare(home, away, bound, larger) <= share)
       <==> 1.0 - share <= RawTotal(exp, home, away, bound)
  {
    hide DroppedShare, RawTotal, Total;
    var keep := 1.0 - share;
    RawTotalAgainstLimit(exp, home, away, bound, keep);
    if keep <= RawTotal(exp, home, away, bound) {
      forall larger: nat | bound <= larger ensures DroppedShare(home, away, bound, larger) <= share {
        EnoughIsNegligible(exp, home, away, bound, larger, keep);
      }
    } else {
      var larger := ShortIsNoticed(exp, home, away, bound, keep);
    }
  }

  lemma TotalBelowLimit(exp: real -> real, home: real, away: real, larger: nat)
    requires IsExponential(exp) && 0.0 <= home && 0.0 <= away
    ensures Total(home, away, larger + 1) <= exp(home) * exp(away)
  {
    PartialPositive(home, larger + 1);
    PartialPositive(away, larger + 1);
    assert Partial(home, larger + 1) <= exp(home) && Partial(away, larger + 1) <= exp(away);
    hide Partial;
    MulMonoBoth(Partial(home, larger + 1), exp(home), Partial(away, larger + 1), exp(away));
  }

  /*************************** Rates up to HARMLESS_RATE ***************************/

  const HARMLESS_RATE: real := 2.4

  lemma PartialAtHarmlessRate()
    ensures 11.0 <= Partial(HARMLESS_RATE, MAX_GOALS + 1)
    ensures 0.0 <= Weight(HARMLESS_RATE, MAX_GOALS + 1) <= 0.000382
  {
    hide Weight, Partial;
    WeightSign(HARMLESS_RATE, 0);
    PartialStep(HARMLESS_RATE, 0);
    forall g: nat | g < 11
      ensures (g + 1) as real * Weight(HARMLESS_RATE, g + 1) == HARMLESS_RATE * Weight(HARMLESS_RATE, g)
      ensures Partial(HARMLESS_RATE, g + 1) == Partial(HARMLESS_RATE, g) + Weight(HARMLESS_RATE, g)
    {
      WeightStep(HARMLESS_RATE, g);
      PartialStep(HARMLESS_RATE, g);
    }
    assert Weight(HARMLESS_RATE, 1) == 2.4 && Weight(HARMLESS_RATE, 2) == 2.88 && Weight(HARMLESS_RATE, 3) == 2.304;
    assert Weight(HARMLESS_RATE, 4) == 1.3824 && Weight(HARMLESS_RATE, 5) == 0.663552;
    assert Weight(HARMLESS_RATE, 6) == 0.2654208 && 0.091 <= Weight(HARMLESS_RATE, 7) <= 0.091002;
    assert 0.0273 <= Weight(HARMLESS_RATE, 8) <= 0.027301 && 0.007 <= Weight(HARMLESS_RATE, 9) <= 0.007281;
    assert 0.001 <= Weight(HARMLESS_RATE, 10) <= 0.001748;
    assert Partial(HARMLESS_RATE, 4) == 8.584 && Partial(HARMLESS_RATE, 6) == 10.629952;
    assert 11.01 <= Partial(HARMLESS_RATE, 9) <= Partial(HARMLESS_RATE, 11);
  }

  /** Past MAX_GOALS the weights shrink at least fivefold each goal. */
  lemma {:induction false} GeometricTail(n: nat)
    requires MAX_GOALS + 1 <= n
    ensures Partial(HARMLESS_RATE, n) + 1.25 * Weight(HARMLESS_RATE, n)
         <= Partial(HARMLESS_RATE, MAX_GOALS + 1) + 1.25 * Weight(HARMLESS_RATE, MAX_GOALS + 1)
  {
    hide Weight, Partial;
    if MAX_GOALS + 1 < n {
      GeometricTail(n - 1);
      PartialStep(HARMLESS_RATE, n - 1);
      WeightStep(HARMLESS_RATE, n - 1);
      WeightSign(HARMLESS_RATE, n);
      MulMono(12.0, n as real, Weight(HARMLESS_RATE, n));
    }
  }

  lemma TailShare(n: nat)
    requires MAX_GOALS + 1 <= n
    ensures 11.0 <= Partial(HARMLESS_RATE, MAX_GOALS + 1) <= Partial(HARMLESS_RATE, n)
    ensures Partial(HARMLESS_RATE, n) <= 1.000044 * Partial(HARMLESS_RATE, MAX_GOALS + 1)
  {
    hide Weight, Partial;
    PartialAtHarmlessRate();
    GeometricTail(n);
    WeightSign(HARMLESS_RATE, n);
    PartialGrows(HARMLESS_RATE, MAX_GOALS + 1, n);
  }

  lemma ShareAtHarmlessRate(larger: nat)
    requires MAX_GOALS <= larger
    ensures DroppedShare(HARMLESS_RATE, HARMLESS_RATE, MAX_GOALS, larger) < 0.0001
  {
    var n, m := MAX_GOALS + 1, larger + 1;
    TailShare(m);
    TotalPositive(HARMLESS_RATE, HARMLESS_RATE, m);
    hide Weight, Partial;
    var x, u := Partial(HARMLESS_RATE, n), Partial(HARMLESS_RATE, m);
    MulMonoBoth(u, 1.000044 * x, u, 1.000044 * x);
    assert (1.000044 * x) * (1.000044 * x) == (1.000044 * 1.000044) * (x * x);
    MulMonoBoth(1.0, x, 1.0, x);
    MulPositive(u, u);
    ShareAbove(x * x, u * u);
  }

  lemma ShareAbove(a: real, b: real)
    requires 1.0 <= a && 0.0 < b <= (1.000044 * 1.000044) * a
    ensures 0.9999 < a / b
  {
    CrossMultiply(a, b, 0.9999, 1.0);
  }

  /**
   For rates up to 2.4 the bound is harmless at the stored scale: no larger bound moves the
   probability of any event, exact scores included, by a unit in the fourth place.
   */
  lemma TruncationHarmless(home: real, away: real, e: Event, larger: nat)
    requires 0.0 <= home <= HARMLESS_RATE && 0.0 <= away <= HARMLESS_RATE && MAX_GOALS <= larger
    ensures DroppedShare(home, away, MAX_GOALS, larger) < 0.0001
    ensures -0.0001 < Prob(home, away, e, larger) - Prob(home, away, e, MAX_GOALS) < 0.0001
  {
    hide DroppedShare, Prob;
    DroppedShareMonotone(home, away, HARMLESS_RATE, HARMLESS_RATE, MAX_GOALS, larger);
    ShareAtHarmlessRate(larger);
    ShiftBoundedByDroppedShare(home, away, e, MAX_GOALS, larger);
  }

  /*************************** Rates from three ***************************/

  lemma PartialAtThree()
    ensures Partial(3.0, MAX_GOALS + 1) <= 21.0
    ensures 0.004 <= Weight(3.0, MAX_GOALS + 1)
  {
    hide Weight, Partial;
    WeightSign(3.0, 0);
    PartialStep(3.0, 0);
    forall g: nat | g < 11
      ensures (g + 1) as real * Weight(3.0, g + 1) == 3.0 * Weight(3.0, g)
      ensures Partial(3.0, g + 1) == Partial(3.0, g) + Weight(3.0, g)
    {
      WeightStep(3.0, g);
      PartialStep(3.0, g);
    }
    assert Weight(3.0, 1) == 3.0;
    assert Weight(3.0, 2) == 4.5 && Weight(3.0, 3) == 4.5;
    assert Weight(3.0, 4) == 3.375 && Weight(3.0, 5) == 2.025;
    assert Weight(3.0, 6) == 1.0125 && 0.43 <= Weight(3.0, 7) <= 0.44;
    assert 0.16 <= Weight(3.0, 8) <= 0.17 && 0.05 <= Weight(3.0, 9) <= 0.06;
    assert 0.015 <= Weight(3.0, 10) <= 0.02;
    assert Partial(3.0, 1) == 1.0 && Partial(3.0, 2) == 4.0 && Partial(3.0, 3) == 8.5;
    assert Partial(3.0, 4) == 13.0 && Partial(3.0, 5) == 16.375;
    assert Partial(3.0, 6) == 18.4 && Partial(3.0, 7) == 19.4125;
    assert Partial(3.0, 8) <= 19.86 && Partial(3.0, 9) <= 20.1;
  }

  /** From three goals a side the same bound drops more than a ten-thousandth, however far the larger one runs. */
  lemma TruncationCostly(home: real, away: real, larger: nat)
    requires 0.0 <= home && 0.0 <= away && (3.0 <= home || 3.0 <= away) && MAX_GOALS < larger
    ensures 0.0001 < DroppedShare(home, away, MAX_GOALS, larger)
  {
    hide Weight, Partial, Total;
    var n, m := MAX_GOALS + 1, larger + 1;
    if 3.0 <= home {
      DroppedShareMonotone(3.0, 0.0, home, away, MAX_GOALS, larger);
    } else {
      DroppedShareMonotone(0.0, 3.0, home, away, MAX_GOALS, larger);
    }
    PartialAtThree();
    PartialStep(3.0, n);
    PartialGrows(3.0, n + 1, m);
    PartialPositive(3.0, n);
    ZeroRatePartial(n);
    ZeroRatePartial(m);
    TotalsAtThree(n);
    TotalsAtThree(m);
    CrossMultiply(0.9999, 1.0, Partial(3.0, n), Partial(3.0, m));
  }

  /** The exact condition at MAX_GOALS and the stored scale: met up to 2.4 goals a side, failed from 3 on either. */
  lemma WhereTheTailMatters(exp: real -> real, home: real, away: real)
    requires IsExponential(exp) && 0.0 <= home && 0.0 <= away
    ensures home <= HARMLESS_RATE && away <= HARMLESS_RATE ==> 0.9999 <= RawTotal(exp, home, away, MAX_GOALS)
    ensures 3.0 <= home || 3.0 <= away ==> RawTotal(exp, home, away, MAX_GOALS) < 0.9999
  {
    hide DroppedShare, RawTotal, IsExponential;
    TailNegligibleIff(exp, home, away, MAX_GOALS, 0.0001);
    if home <= HARMLESS_RATE && away <= HARMLESS_RATE {
      forall larger: nat | MAX_GOALS <= larger ensures DroppedShare(home, away, MAX_GOALS, larger) <= 0.0001 {
        TruncationHarmless(home, away, Draw, larger);
      }
    }
    if 3.0 <= home || 3.0 <= away {
      TruncationCostly(home, away, MAX_GOALS + 1);
    }
  }

  lemma TotalsAtThree(n: nat)
    requires 0 < n
    ensures Total(3.0, 0.0, n) == Partial(3.0, n) == Total(0.0, 3.0, n)
  {
    ZeroRatePartial(n);
  }

  lemma {:induction false} ZeroRatePartial(n: nat)
    requires 0 < n
    ensures Partial(0.0, n) == 1.0
  {
    hide Weight;
    WeightSign(0.0, 0);
    if 1 < n {
      ZeroRatePartial(n - 1);
      WeightStep(0.0, n - 2);
      CancelPositive((n - 1) as real, Weight(0.0, n - 1), 0.0);
      WeightSign(0.0, n - 1);
    }
  }
}
