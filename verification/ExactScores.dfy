/** Every reported market as a sum over exact scores. */
module ExactScores {
  import opened RealArithmetic
  import opened PoissonWeights
  import opened ScoreMatrix
  import opened Scorelines
  import opened StableScorelines

  /*************************** Sums over scores ***************************/

  /** Probability of the scores (h, 0) .. (h, n - 1) that satisfy the test. */
  function RowSum(home: real, away: real, bound: nat, test: (nat, nat) -> bool, h: nat, n: nat): real
    requires 0.0 <= home && 0.0 <= away
  {
    if n == 0 then 0.0
    else
      RowSum(home, away, bound, test, h, n - 1)
      + if test(h, n - 1) then Prob(home, away, Exactly(h, n - 1), bound) else 0.0
  }

  /** Over the first rows. */
  function ScoreSum(home: real, away: real, bound: nat, test: (nat, nat) -> bool, rows: nat): real
    requires 0.0 <= home && 0.0 <= away
  {
    if rows == 0 then 0.0
    else ScoreSum(home, away, bound, test, rows - 1) + RowSum(home, away, bound, test, rows - 1, bound + 1)
  }

  /** A score's probability is its cell's share. */
  lemma ScoreIsShare(home: real, away: real, h: nat, a: nat, bound: nat)
    requires 0.0 <= home && 0.0 <= away && h <= bound && a <= bound
    ensures Total(home, away, bound + 1) != 0.0
    ensures Prob(home, away, Exactly(h, a), bound) == Weight(home, h) * Weight(away, a) / Total(home, away, bound + 1)
  {
    TotalPositive(home, away, bound + 1);
    ExactMass(home, away, h, a, bound + 1, bound + 1);
    hide Mass, Total, Weight;
  }

  lemma {:induction false} RowSumIsMass(home: real, away: real, bound: nat, test: (nat, nat) -> bool, e: Event, h: nat,
                                        n: nat)
    requires 0.0 <= home && 0.0 <= away && h <= bound && n <= bound + 1
    requires forall h: nat, a: nat :: e.Holds(h, a) == test(h, a)
    ensures Total(home, away, bound + 1) != 0.0
    ensures RowSum(home, away, bound, test, h, n)
            == Weight(home, h) * RowMass(away, e, h, n) / Total(home, away, bound + 1)
  {
    hide Prob, Total, Weight, RowMass, Event.Holds;
    TotalPositive(home, away, bound + 1);
    RowStep(away, e, h, 0);
    if n > 0 {
      RowSumIsMass(home, away, bound, test, e, h, n - 1);
      RowStep(away, e, h, n - 1);
      ScoreIsShare(home, away, h, n - 1, bound);
      OneMore(Weight(home, h), RowMass(away, e, h, n - 1), Weight(away, n - 1), Total(home, away, bound + 1));
    }
  }

  lemma OneMore(w: real, row: real, cell: real, total: real)
    requires total != 0.0
    ensures w * row / total + w * cell / total == w * (row + cell) / total
  {
    assert w * (row + cell) == w * row + w * cell;
  }

  lemma {:induction false} SumIsMass(home: real, away: real, bound: nat, test: (nat, nat) -> bool, e: Event, rows: nat)
    requires 0.0 <= home && 0.0 <= away && rows <= bound + 1
    requires forall h: nat, a: nat :: e.Holds(h, a) == test(h, a)
    ensures Total(home, away, bound + 1) != 0.0
    ensures ScoreSum(home, away, bound, test, rows)
            == Mass(home, away, e, rows, bound + 1) / Total(home, away, bound + 1)
  {
    hide Prob, Total, Weight, RowMass, Mass, RowSum, Event.Holds;
    TotalPositive(home, away, bound + 1);
    MassStep(home, away, e, 0, bound + 1);
    if rows > 0 {
      SumIsMass(home, away, bound, test, e, rows - 1);
      MassStep(home, away, e, rows - 1, bound + 1);
      RowSumIsMass(home, away, bound, test, e, rows - 1, bound + 1);
    }
  }

  /** An event is as likely as all the scores in it together. */
  lemma EventIsItsScores(home: real, away: real, bound: nat, test: (nat, nat) -> bool, e: Event)
    requires 0.0 <= home && 0.0 <= away && forall h: nat, a: nat :: e.Holds(h, a) == test(h, a)
    ensures Prob(home, away, e, bound) == ScoreSum(home, away, bound, test, bound + 1)
  {
    SumIsMass(home, away, bound, test, e, bound + 1);
    hide Mass, Total, ScoreSum;
  }

  /*************************** The markets ***************************/

  predicate HomeAhead(home: nat, away: nat) { home > away }

  predicate Level(home: nat, away: nat) { home == away }

  predicate AwayAhead(home: nat, away: nat) { home < away }

  predicate ThreeOrMore(home: nat, away: nat) { home + away >= 3 }

  /** At least one side did not score. */
  predicate Blank(home: nat, away: nat) { home == 0 || away == 0 }

  /** The five reported markets, each as the exact scores it stands for. */
  lemma MarketsAreTheirScores(home: real, away: real, bound: nat)
    requires 0.0 <= home && 0.0 <= away
    ensures Prob(home, away, HomeWin, bound) == ScoreSum(home, away, bound, HomeAhead, bound + 1)
    ensures Prob(home, away, Draw, bound) == ScoreSum(home, away, bound, Level, bound + 1)
    ensures Prob(home, away, AwayWin, bound) == ScoreSum(home, away, bound, AwayAhead, bound + 1)
    ensures Prob(home, away, OverTwoAndAHalf, bound) == ScoreSum(home, away, bound, ThreeOrMore, bound + 1)
    ensures Prob(home, away, BothScore, bound) == 1.0 - ScoreSum(home, away, bound, Blank, bound + 1)
  {
    EventIsItsScores(home, away, bound, HomeAhead, HomeWin);
    EventIsItsScores(home, away, bound, Level, Draw);
    EventIsItsScores(home, away, bound, AwayAhead, AwayWin);
    EventIsItsScores(home, away, bound, ThreeOrMore, OverTwoAndAHalf);
    EventIsItsScores(home, away, bound, Blank, Not(BothScore));
    ProbabilityLaws(home, away, BothScore, bound);
  }

  lemma LowRow(away: real, h: nat, n: nat)
    requires 3 <= n
    ensures RowMass(away, Not(OverTwoAndAHalf), h, n)
         == if h == 0 then Weight(away, 0) + Weight(away, 1) + Weight(away, 2)
            else if h == 1 then Weight(away, 0) + Weight(away, 1)
            else if h == 2 then Weight(away, 0) else 0.0
  {
    hide Weight, RowMass;
    var e := Not(OverTwoAndAHalf);
    RowStep(away, e, h, n - 1);
    if n == 3 {
      RowStep(away, e, h, 0);
      RowStep(away, e, h, 1);
    } else {
      LowRow(away, h, n - 1);
    }
  }

  lemma {:induction false} LowMass(home: real, away: real, rows: nat, n: nat)
    requires 3 <= n && 3 <= rows
    ensures Mass(home, away, Not(OverTwoAndAHalf), rows, n)
         == CellWeight(home, away, 0, 0) + CellWeight(home, away, 0, 1) + CellWeight(home, away, 0, 2)
          + CellWeight(home, away, 1, 0) + CellWeight(home, away, 1, 1) + CellWeight(home, away, 2, 0)
  {
    hide Weight, RowMass, Mass;
    var e := Not(OverTwoAndAHalf);
    MassStep(home, away, e, rows - 1, n);
    LowRow(away, rows - 1, n);
    if rows == 3 {
      MassStep(home, away, e, 0, n);
      MassStep(home, away, e, 1, n);
      LowRow(away, 0, n);
      LowRow(away, 1, n);
      Spread(Weight(home, 0), Weight(home, 1), Weight(away, 0), Weight(away, 1), Weight(away, 2));
    } else {
      LowMass(home, away, rows - 1, n);
    }
  }

  lemma Spread(x: real, y: real, u: real, v: real, w: real)
    ensures x * (u + v + w) == x * u + x * v + x * w
    ensures y * (u + v) == y * u + y * v
  {
  }

  /** Over two and a half goals is everything but the six exact scores with at most two. */
  lemma OverIsAllButSixScores(home: real, away: real, bound: nat)
    requires 0.0 <= home && 0.0 <= away && 2 <= bound
    ensures Prob(home, away, OverTwoAndAHalf, bound) == 1.0
              - Prob(home, away, Exactly(0, 0), bound) - Prob(home, away, Exactly(0, 1), bound)
              - Prob(home, away, Exactly(0, 2), bound) - Prob(home, away, Exactly(1, 0), bound)
              - Prob(home, away, Exactly(1, 1), bound) - Prob(home, away, Exactly(2, 0), bound)
  {
    ProbabilityLaws(home, away, OverTwoAndAHalf, bound);
    LowMass(home, away, bound + 1, bound + 1);
    ScoreIsShare(home, away, 0, 0, bound);
    ScoreIsShare(home, away, 0, 1, bound);
    ScoreIsShare(home, away, 0, 2, bound);
    ScoreIsShare(home, away, 1, 0, bound);
    ScoreIsShare(home, away, 1, 1, bound);
    ScoreIsShare(home, away, 2, 0, bound);
    assert Prob(home, away, Not(OverTwoAndAHalf), bound)
        == Mass(home, away, Not(OverTwoAndAHalf), bound + 1, bound + 1) / Total(home, away, bound + 1);
    hide Mass, Total, Prob, Weight;
    SixShares(CellWeight(home, away, 0, 0), CellWeight(home, away, 0, 1), CellWeight(home, away, 0, 2),
              CellWeight(home, away, 1, 0), CellWeight(home, away, 1, 1), CellWeight(home, away, 2, 0),
              Total(home, away, bound + 1));
  }

  lemma SixShares(a: real, b: real, c: real, d: real, e: real, f: real, t: real)
    requires t != 0.0
    ensures (a + b + c + d + e + f) / t == a / t + b / t + c / t + d / t + e / t + f / t
  {
  }
}
