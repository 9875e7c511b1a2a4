/**
 The truncated score matrix: two independent Poisson weight vectors, the events read off it, and
 how their probabilities respond to the two rates and to the truncation bound.
 */
module ScoreMatrix {
  import opened RealArithmetic
  import opened PoissonWeights

  /** Everything reported about a match, exact scores included, closed under complement. */
  datatype Event =
    | HomeWin
    | Draw
    | AwayWin
    | OverTwoAndAHalf
    | BothScore
    | Exactly(homeGoals: nat, awayGoals: nat)
    | Not(event: Event)
  {

    predicate Holds(home: nat, away: nat) {
      match this
      case HomeWin => home > away
      case Draw => home == away
      case AwayWin => home < away
      case OverTwoAndAHalf => home + away > 2
      case BothScore => home > 0 && away > 0
      case Exactly(h, a) => home == h && away == a
      case Not(e) => !e.Holds(home, away)
    }

    /** The same event with the two sides exchanged. */
    function Swapped(): (e: Event)
      ensures forall h: nat, a: nat :: e.Holds(a, h) <==> Holds(h, a)
    {
      match this
      case HomeWin => AwayWin
      case AwayWin => HomeWin
      case Exactly(h, a) => Exactly(a, h)
      case Not(e) => Not(e.Swapped())
      case other => other
    }

    /** One more home goal never leaves the event. */
    ghost predicate Upward() {
      forall h: nat, a: nat :: Holds(h, a) ==> Holds(h + 1, a)
    }
  }

  /** Weight of the away scores below n that put a home score of h inside the event. */
  function RowMass(away: real, e: Event, h: nat, n: nat): real {
    if n == 0 then 0.0
    else RowMass(away, e, h, n - 1) + if e.Holds(h, n - 1) then Weight(away, n - 1) else 0.0
  }

  /** Weight of an event over the first rows x columns cells. */
  function Mass(home: real, away: real, e: Event, rows: nat, columns: nat): real {
    if rows == 0 then 0.0
    else Mass(home, away, e, rows - 1, columns) + Weight(home, rows - 1) * RowMass(away, e, rows - 1, columns)
  }

  function Total(home: real, away: real, n: nat): real {
    Partial(home, n) * Partial(away, n)
  }

  /** Probability of an event once the matrix of scores 0 .. bound is normalised. */
  function Prob(home: real, away: real, e: Event, bound: nat): real
    requires 0.0 <= home && 0.0 <= away
  {
    TotalPositive(home, away, bound + 1);
    Mass(home, away, e, bound + 1, bound + 1) / Total(home, away, bound + 1)
  }

  lemma TotalPositive(home: real, away: real, n: nat)
    requires 0.0 <= home && 0.0 <= away && 0 < n
    ensures 1.0 <= Total(home, away, n)
  {
    PartialPositive(home, n);
    PartialPositive(away, n);
    MulMonoBoth(1.0, Partial(home, n), 1.0, Partial(away, n));
  }

  lemma RowStep(away: real, e: Event, h: nat, n: nat)
    ensures RowMass(away, e, h, 0) == 0.0
    ensures RowMass(away, e, h, n + 1) == RowMass(away, e, h, n) + if e.Holds(h, n) then Weight(away, n) else 0.0
  {
  }

  lemma MassStep(home: real, away: real, e: Event, rows: nat, columns: nat)
    ensures Mass(home, away, e, 0, columns) == 0.0
    ensures Mass(home, away, e, rows + 1, columns)
         == Mass(home, away, e, rows, columns) + Weight(home, rows) * RowMass(away, e, rows, columns)
  {
  }

  /*************************** Events add up ***************************/

  lemma {:induction false} RowComplement(away: real, e: Event, h: nat, n: nat)
    ensures RowMass(away, e, h, n) + RowMass(away, Not(e), h, n) == Partial(away, n)
  {
    if n > 0 { RowComplement(away, e, h, n - 1); }
  }

  lemma {:induction false} MassComplement(home: real, away: real, e: Event, rows: nat, columns: nat)
    ensures Mass(home, away, e, rows, columns) + Mass(home, away, Not(e), rows, columns)
         == Partial(home, rows) * Partial(away, columns)
  {
    hide Weight, RowMass, Mass, Partial;
    if rows == 0 {
      MassStep(home, away, e, 0, columns);
      MassStep(home, away, Not(e), 0, columns);
      PartialStep(home, 0);
    } else {
      var h := rows - 1;
      MassComplement(home, away, e, h, columns);
      RowComplement(away, e, h, columns);
      MassStep(home, away, e, h, columns);
      MassStep(home, away, Not(e), h, columns);
      PartialStep(home, h);
      SplitRow(Weight(home, h), RowMass(away, e, h, columns), RowMass(away, Not(e), h, columns), 0.0,
               Partial(away, columns), Partial(home, h), Partial(home, rows));
    }
  }

  /** A row of the product measure splits the way its columns do. */
  lemma SplitRow(w: real, x: real, y: real, z: real, q: real, p: real, pNext: real)
    requires x + y + z == q && pNext == p + w
    ensures p * q + w * x + w * y + w * z == pNext * q
  {
    assert w * (x + y + z) == w * x + w * y + w * z;
    assert (p + w) * q == p * q + w * q;
  }

  lemma {:induction false} RowOutcomes(away: real, h: nat, n: nat)
    ensures RowMass(away, HomeWin, h, n) + RowMass(away, Draw, h, n) + RowMass(away, AwayWin, h, n) == Partial(away, n)
  {
    if n > 0 { RowOutcomes(away, h, n - 1); }
  }

  /** The three outcomes partition the matrix. */
  lemma {:induction false} MassOutcomes(home: real, away: real, rows: nat, columns: nat)
    ensures Mass(home, away, HomeWin, rows, columns) + Mass(home, away, Draw, rows, columns)
          + Mass(home, away, AwayWin, rows, columns) == Partial(home, rows) * Partial(away, columns)
  {
    hide Weight, RowMass, Mass, Partial;
    if rows == 0 {
      MassStep(home, away, HomeWin, 0, columns);
      MassStep(home, away, Draw, 0, columns);
      MassStep(home, away, AwayWin, 0, columns);
      PartialStep(home, 0);
    } else {
      var h := rows - 1;
      MassOutcomes(home, away, h, columns);
      RowOutcomes(away, h, columns);
      MassStep(home, away, HomeWin, h, columns);
      MassStep(home, away, Draw, h, columns);
      MassStep(home, away, AwayWin, h, columns);
      PartialStep(home, h);
      SplitRow(Weight(home, h), RowMass(away, HomeWin, h, columns), RowMass(away, Draw, h, columns),
               RowMass(away, AwayWin, h, columns), Partial(away, columns), Partial(home, h), Partial(home, rows));
    }
  }

  lemma {:induction false} RowSign(away: real, e: Event, h: nat, n: nat)
    requires 0.0 <= away
    ensures 0.0 <= RowMass(away, e, h, n)
  {
    hide Weight;
    if n > 0 {
      RowSign(away, e, h, n - 1);
      WeightSign(away, n - 1);
    }
  }

  lemma {:induction false} MassSign(home: real, away: real, e: Event, rows: nat, columns: nat)
    requires 0.0 <= home && 0.0 <= away
    ensures 0.0 <= Mass(home, away, e, rows, columns)
  {
    hide Weight, RowMass;
    if rows > 0 {
      MassSign(home, away, e, rows - 1, columns);
      WeightSign(home, rows - 1);
      RowSign(away, e, rows - 1, columns);
    }
  }

  lemma AddFractions(a: real, b: real, c: real, t: real)
    requires 0.0 < t && a + b + c == t
    ensures a / t + b / t + c / t == 1.0
  {
    CrossMultiply(a + b + c, t, 1.0, 1.0);
    assert (a + b + c) / t == a / t + b / t + c / t;
  }

  lemma FractionInUnit(a: real, t: real)
    requires 0.0 < t && 0.0 <= a <= t
    ensures 0.0 <= a / t <= 1.0
  {
    CrossMultiply(0.0, 1.0, a, t);
    CrossMultiply(a, t, 1.0, 1.0);
  }

  /** Every reported probability is one, complements add to one, and so do the three outcomes. */
  lemma ProbabilityLaws(home: real, away: real, e: Event, bound: nat)
    requires 0.0 <= home && 0.0 <= away
    ensures 0.0 <= Prob(home, away, e, bound) <= 1.0
    ensures Prob(home, away, Not(e), bound) == 1.0 - Prob(home, away, e, bound)
    ensures Prob(home, away, HomeWin, bound) + Prob(home, away, Draw, bound) + Prob(home, away, AwayWin, bound) == 1.0
  {
    hide Mass;
    var n := bound + 1;
    var t := Total(home, away, n);
    TotalPositive(home, away, n);
    MassSign(home, away, e, n, n);
    MassSign(home, away, Not(e), n, n);
    MassComplement(home, away, e, n, n);
    MassOutcomes(home, away, n, n);
    hide Total;
    FractionInUnit(Mass(home, away, e, n, n), t);
    AddFractions(Mass(home, away, e, n, n), Mass(home, away, Not(e), n, n), 0.0, t);
    AddFractions(Mass(home, away, HomeWin, n, n), Mass(home, away, Draw, n, n), Mass(home, away, AwayWin, n, n), t);
  }

  /*************************** Symmetry ***************************/

  lemma PeelStep(m: real, mNext: real, row: real, rowNext: real, column: real, columnNext: real, v: real, w: real,
                 inside: bool)
    requires mNext == m + w * column
    requires rowNext == row + if inside then w else 0.0
    requires columnNext == column + if inside then v else 0.0
    ensures mNext + v * rowNext == (m + v * row) + w * columnNext
  {
  }

  lemma {:induction false} ColumnPeel(home: real, away: real, e: Event, rows: nat, columns: nat)
    ensures Mass(home, away, e, rows, columns + 1)
         == Mass(home, away, e, rows, columns) + Weight(away, columns) * RowMass(home, e.Swapped(), columns, rows)
  {
    hide Weight, RowMass, Mass;
    if rows == 0 {
      MassStep(home, away, e, 0, columns);
      MassStep(home, away, e, 0, columns + 1);
      RowStep(home, e.Swapped(), columns, 0);
    } else {
      var h := rows - 1;
      ColumnPeel(home, away, e, h, columns);
      RowStep(away, e, h, columns);
      RowStep(home, e.Swapped(), columns, h);
      MassStep(home, away, e, h, columns);
      MassStep(home, away, e, h, columns + 1);
      PeelStep(Mass(home, away, e, h, columns), Mass(home, away, e, h, columns + 1),
               RowMass(away, e, h, columns), RowMass(away, e, h, columns + 1),
               RowMass(home, e.Swapped(), columns, h), RowMass(home, e.Swapped(), columns, h + 1),
               Weight(home, h), Weight(away, columns), e.Holds(h, columns));
    }
  }

  /** Exchanging the rates exchanges the sides. */
  lemma {:induction false} MassSwap(home: real, away: real, e: Event, rows: nat, columns: nat)
    ensures Mass(home, away, e, rows, columns) == Mass(away, home, e.Swapped(), columns, rows)
  {
    hide Weight, Mass, RowMass;
    if columns > 0 {
      MassSwap(home, away, e, rows, columns - 1);
      ColumnPeel(home, away, e, rows, columns - 1);
      MassStep(away, home, e.Swapped(), columns - 1, rows);
    } else {
      NoColumns(home, away, e, rows);
      MassStep(away, home, e.Swapped(), 0, rows);
    }
  }

  lemma {:induction false} NoColumns(home: real, away: real, e: Event, rows: nat)
    ensures Mass(home, away, e, rows, 0) == 0.0
  {
    hide Weight, Mass, RowMass;
    if rows == 0 {
      MassStep(home, away, e, 0, 0);
    } else {
      NoColumns(home, away, e, rows - 1);
      MassStep(home, away, e, rows - 1, 0);
      RowStep(away, e, rows - 1, 0);
    }
  }

  lemma SwapSymmetry(home: real, away: real, e: Event, bound: nat)
    requires 0.0 <= home && 0.0 <= away
    ensures Prob(home, away, e, bound) == Prob(away, home, e.Swapped(), bound)
  {
    MassSwap(home, away, e, bound + 1, bound + 1);
  }

  /*************************** Monotone in the rates ***************************/

  lemma {:induction false} RowUpward(away: real, e: Event, i: nat, h: nat, n: nat)
    requires 0.0 <= away && e.Upward() && i <= h
    ensures RowMass(away, e, i, n) <= RowMass(away, e, h, n)
    decreases h, n
  {
    hide Weight;
    if n > 0 && i < h {
      RowUpward(away, e, i, h, n - 1);
      RowUpward(away, e, i, h - 1, n);
      RowUpward(away, e, h - 1, h, n - 1);
      WeightSign(away, n - 1);
      RowStepUp(away, e, h - 1, n);
    }
  }

  lemma {:induction false} RowStepUp(away: real, e: Event, h: nat, n: nat)
    requires 0.0 <= away && e.Upward()
    ensures RowMass(away, e, h, n) <= RowMass(away, e, h + 1, n)
  {
    hide Weight;
    if n > 0 {
      RowStepUp(away, e, h, n - 1);
      WeightSign(away, n - 1);
    }
  }

  /** One row's part of the dominance argument, with the newest row n against the rows below k. */
  lemma {:induction false} DominanceRow(low: real, high: real, away: real, e: Event, k: nat, n: nat, columns: nat)
    requires 0.0 <= low <= high && 0.0 <= away && e.Upward() && k <= n
    ensures Mass(low, away, e, k, columns) * Weight(high, n)
            + RowMass(away, e, n, columns) * Weight(low, n) * Partial(high, k)
         <= Mass(high, away, e, k, columns) * Weight(low, n)
             + RowMass(away, e, n, columns) * Weight(high, n) * Partial(low, k)
  {
    hide Weight, RowMass, Mass, Partial;
    if k == 0 {
      MassStep(low, away, e, 0, columns);
      MassStep(high, away, e, 0, columns);
      PartialStep(low, 0);
      PartialStep(high, 0);
    } else {
      var i := k - 1;
      DominanceRow(low, high, away, e, i, n, columns);
      LikelihoodRatio(low, high, i, n);
      RowUpward(away, e, i, n, columns);
      MassStep(low, away, e, i, columns);
      MassStep(high, away, e, i, columns);
      PartialStep(low, i);
      PartialStep(high, i);
      DominanceStep(Weight(low, n), Weight(high, n), Weight(low, i), Weight(high, i),
                    RowMass(away, e, i, columns), RowMass(away, e, n, columns),
                    Mass(low, away, e, i, columns), Mass(low, away, e, k, columns),
                    Mass(high, away, e, i, columns), Mass(high, away, e, k, columns),
                    Partial(low, i), Partial(low, k), Partial(high, i), Partial(high, k));
    }
  }

  lemma DominanceStep(rn: real, sn: real, rk: real, sk: real, fk: real, fn: real,
                      c: real, cNext: real, a: real, aNext: real, d: real, dNext: real, b: real, bNext: real)
    requires rn * sk <= sn * rk && fk <= fn
    requires cNext == c + rk * fk && aNext == a + sk * fk && dNext == d + rk && bNext == b + sk
    requires c * sn + fn * rn * b <= a * rn + fn * sn * d
    ensures cNext * sn + fn * rn * bNext <= aNext * rn + fn * sn * dNext
  {
    var x := sn * rk - rn * sk;
    MulMono(fk, fn, x);
    assert cNext * sn == c * sn + (sn * rk) * fk;
    assert aNext * rn == a * rn + (rn * sk) * fk;
    assert fn * rn * bNext == fn * rn * b + fn * (rn * sk);
    assert fn * sn * dNext == fn * sn * d + fn * (sn * rk);
    assert fk * x == fk * (sn * rk) - fk * (rn * sk);
    assert fn * x == fn * (sn * rk) - fn * (rn * sk);
  }

  /** Likelihood-ratio dominance, cross-multiplied. */
  lemma {:induction false} Dominance(low: real, high: real, away: real, e: Event, n: nat, columns: nat)
    requires 0.0 <= low <= high && 0.0 <= away && e.Upward()
    ensures Mass(low, away, e, n, columns) * Partial(high, n) <= Mass(high, away, e, n, columns) * Partial(low, n)
  {
    hide Weight, RowMass, Mass, Partial;
    if n == 0 {
      MassStep(low, away, e, 0, columns);
      MassStep(high, away, e, 0, columns);
    } else {
      var i := n - 1;
      Dominance(low, high, away, e, i, columns);
      DominanceRow(low, high, away, e, i, i, columns);
      MassStep(low, away, e, i, columns);
      MassStep(high, away, e, i, columns);
      PartialStep(low, i);
      PartialStep(high, i);
      ExpandCross(Mass(low, away, e, i, columns), Mass(low, away, e, n, columns), Partial(high, i), Partial(high, n),
                  Mass(high, away, e, i, columns), Mass(high, away, e, n, columns), Partial(low, i), Partial(low, n),
                  Weight(low, i), Weight(high, i), RowMass(away, e, i, columns));
    }
  }

  lemma ExpandCross(c: real, cNext: real, b: real, bNext: real, a: real, aNext: real, d: real, dNext: real, r: real,
                    s: real, f: real)
    requires cNext == c + r * f && bNext == b + s && aNext == a + s * f && dNext == d + r
    requires c * b <= a * d
    requires c * s + f * r * b <= a * r + f * s * d
    ensures cNext * bNext <= aNext * dNext
  {
    assert cNext * bNext == c * b + c * s + f * r * b + f * (r * s);
    assert aNext * dNext == a * d + a * r + f * s * d + f * (r * s);
  }

  /** Raising the home rate never makes an upward event less likely. */
  lemma UpwardMonotone(low: real, high: real, away: real, e: Event, bound: nat)
    requires 0.0 <= low <= high && 0.0 <= away && e.Upward()
    ensures Prob(low, away, e, bound) <= Prob(high, away, e, bound)
  {
    hide Mass, Partial;
    var n := bound + 1;
    Dominance(low, high, away, e, n, n);
    TotalPositive(low, away, n);
    TotalPositive(high, away, n);
    PartialPositive(away, n);
    var c, a := Mass(low, away, e, n, n), Mass(high, away, e, n, n);
    var d, b, t := Partial(low, n), Partial(high, n), Partial(away, n);
    MulMono(c * b, a * d, t);
    assert c * (b * t) == (c * b) * t && a * (d * t) == (a * d) * t;
    assert Total(low, away, n) == d * t && Total(high, away, n) == b * t;
    hide Total;
    CrossMultiply(c, d * t, a, b * t);
  }

  /** A better home attack: home wins, overs and both-to-score rise, away wins fall. */
  lemma MonotoneInHomeRate(low: real, high: real, away: real, bound: nat)
    requires 0.0 <= low <= high && 0.0 <= away
    ensures Prob(low, away, HomeWin, bound) <= Prob(high, away, HomeWin, bound)
    ensures Prob(low, away, OverTwoAndAHalf, bound) <= Prob(high, away, OverTwoAndAHalf, bound)
    ensures Prob(low, away, BothScore, bound) <= Prob(high, away, BothScore, bound)
    ensures Prob(high, away, AwayWin, bound) <= Prob(low, away, AwayWin, bound)
  {
    UpwardMonotone(low, high, away, HomeWin, bound);
    UpwardMonotone(low, high, away, OverTwoAndAHalf, bound);
    UpwardMonotone(low, high, away, BothScore, bound);
    assert forall h: nat, a: nat :: Not(AwayWin).Holds(h, a) <==> !AwayWin.Holds(h, a);
    UpwardMonotone(low, high, away, Not(AwayWin), bound);
    ProbabilityLaws(low, away, AwayWin, bound);
    ProbabilityLaws(high, away, AwayWin, bound);
  }

  lemma MonotoneInAwayRate(home: real, low: real, high: real, bound: nat)
    requires 0.0 <= home && 0.0 <= low <= high
    ensures Prob(home, low, AwayWin, bound) <= Prob(home, high, AwayWin, bound)
    ensures Prob(home, low, OverTwoAndAHalf, bound) <= Prob(home, high, OverTwoAndAHalf, bound)
    ensures Prob(home, low, BothScore, bound) <= Prob(home, high, BothScore, bound)
    ensures Prob(home, high, HomeWin, bound) <= Prob(home, low, HomeWin, bound)
  {
    MonotoneInHomeRate(low, high, home, bound);
    forall rate, e: Event | rate in {low, high} && e in {HomeWin, AwayWin, OverTwoAndAHalf, BothScore}
      ensures Prob(home, rate, e, bound) == Prob(rate, home, e.Swapped(), bound)
    {
      SwapSymmetry(home, rate, e, bound);
    }
  }

  /*************************** The favourite ***************************/

  lemma {:induction false} RowBelow(away: real, h: nat, n: nat)
    ensures RowMass(away, HomeWin, h, n) == Partial(away, if n <= h then n else h)
  {
    if n > 0 { RowBelow(away, h, n - 1); }
  }

  lemma {:induction false} RatioSummed(r: real, s: real, k: nat, n: nat)
    requires 0.0 <= r <= s && k <= n
    ensures Weight(r, n) * Partial(s, k) <= Weight(s, n) * Partial(r, k)
  {
    hide Weight;
    if k > 0 {
      RatioSummed(r, s, k - 1, n);
      LikelihoodRatio(r, s, k - 1, n);
    }
  }

  /** Home and away win weight compared row by row; strict from the second row on. */
  lemma {:induction false} FavouriteMass(r: real, s: real, rows: nat, columns: nat)
    requires 0.0 <= r <= s && rows <= columns
    ensures Mass(r, s, HomeWin, rows, columns) <= Mass(s, r, HomeWin, rows, columns)
    ensures r < s && 2 <= rows ==> Mass(r, s, HomeWin, rows, columns) < Mass(s, r, HomeWin, rows, columns)
  {
    hide Weight;
    if rows > 0 {
      var h := rows - 1;
      FavouriteMass(r, s, h, columns);
      RowBelow(r, h, columns);
      RowBelow(s, h, columns);
      RatioSummed(r, s, h, h);
      if h == 1 {
        WeightSign(r, 0);
        WeightSign(s, 0);
        WeightStep(r, 0);
        WeightStep(s, 0);
        assert Partial(r, 1) == Partial(r, 0) + Weight(r, 0);
        assert Partial(s, 1) == Partial(s, 0) + Weight(s, 0);
      }
    }
  }

  /** The favourite is the side with the higher rate: the comparison is exact in both directions. */
  lemma FavouriteIsHigherRate(home: real, away: real, bound: nat)
    requires 0.0 <= home && 0.0 <= away && 1 <= bound
    ensures Prob(home, away, HomeWin, bound) > Prob(home, away, AwayWin, bound) <==> home > away
    ensures Prob(home, away, HomeWin, bound) == Prob(home, away, AwayWin, bound) <==> home == away
  {
    var n := bound + 1;
    MassSwap(home, away, AwayWin, n, n);
    TotalPositive(home, away, n);
    var t := Total(home, away, n);
    var x, y := Mass(home, away, HomeWin, n, n), Mass(away, home, HomeWin, n, n);
    if home <= away { FavouriteMass(home, away, n, n); } else { FavouriteMass(away, home, n, n); }
    CrossMultiply(x, t, y, t);
    CrossMultiply(y, t, x, t);
    assert x <= y <==> x * t <= y * t by {
      if x <= y { MulMono(x, y, t); } else { assert 0.0 < (x - y) * t; }
    }
    assert y <= x <==> y * t <= x * t by {
      if y <= x { MulMono(y, x, t); } else { assert 0.0 < (y - x) * t; }
    }
  }
}
