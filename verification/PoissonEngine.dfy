/** `score_probabilities`: one pass over the score matrix, normalised, with the three best scorelines. */
module PoissonEngine {
  import opened RealArithmetic
  import opened PoissonWeights
  import opened ScoreMatrix
  import opened Rounding
  import opened Scorelines

  datatype ScoreProbabilities = ScoreProbabilities(
    lambdaHome: real, lambdaAway: real,
    probHome: real, probDraw: real, probAway: real,
    overTwoAndAHalf: real, btts: real,
    mostLikely: seq<Scoreline>)

  /** `_pmf`, with the value of exp(-rate) as a parameter. */
  function Pmf(expMinusRate: real, rate: real, goals: nat): real {
    expMinusRate * Weight(rate, goals)
  }

  /*************************** Running totals ***************************/

  /** Scaled weight of an event over the cells visited before (h, a) in row-major order. */
  function Seen(scale: real, home: real, away: real, e: Event, h: nat, a: nat, n: nat): real {
    scale * (Mass(home, away, e, h, n) + Weight(home, h) * RowMass(away, e, h, a))
  }

  lemma SeeCell(expHome: real, expAway: real, home: real, away: real, e: Event, h: nat, a: nat, n: nat)
    ensures Seen(expHome * expAway, home, away, e, h, a + 1, n) == Seen(expHome * expAway, home, away, e, h, a, n)
          + if e.Holds(h, a) then Pmf(expHome, home, h) * Pmf(expAway, away, a) else 0.0
  {
    hide Weight, RowMass, Mass;
    RowStep(away, e, h, a);
    SeeStep(expHome, expAway, Mass(home, away, e, h, n), Weight(home, h), Weight(away, a),
            RowMass(away, e, h, a), RowMass(away, e, h, a + 1), e.Holds(h, a));
  }

  lemma SeeStep(s: real, t: real, m: real, v: real, w: real, row: real, rowNext: real, inside: bool)
    requires rowNext == row + if inside then w else 0.0
    ensures s * t * (m + v * rowNext) == s * t * (m + v * row) + if inside then (s * v) * (t * w) else 0.0
  {
    if inside {
      assert v * rowNext == v * row + v * w;
      assert s * t * (m + v * rowNext) == s * t * (m + v * row) + s * t * (v * w);
    }
  }

  lemma SeeRow(scale: real, home: real, away: real, e: Event, h: nat, n: nat)
    ensures Seen(scale, home, away, e, 0, 0, n) == 0.0
    ensures Seen(scale, home, away, e, h, 0, n) == scale * Mass(home, away, e, h, n)
    ensures Seen(scale, home, away, e, h, n, n) == Seen(scale, home, away, e, h + 1, 0, n)
  {
    hide Weight, RowMass, Mass;
    MassStep(home, away, e, 0, n);
    RowStep(away, e, 0, 0);
    RowStep(away, e, h, 0);
    RowStep(away, e, h + 1, 0);
    MassStep(home, away, e, h, n);
  }

  /*************************** The list of cells ***************************/

  function ScaledCell(scale: real, home: real, away: real, h: nat, a: nat): Cell {
    Cell(h, a, scale * CellWeight(home, away, h, a))
  }

  /** The list holds exactly the n-column cells before (h, a), in row-major order. */
  ghost predicate Gathered(cells: seq<Cell>, scale: real, home: real, away: real, h: nat, a: nat, n: nat) {
    && RowMajor(cells)
    && (forall k | 0 <= k < |cells| ::
          && cells[k] == ScaledCell(scale, home, away, cells[k].home, cells[k].away)
          && cells[k].away < n && RowMajorBefore(cells[k].home, cells[k].away, h, a))
    && (forall h': nat, a': nat | a' < n && RowMajorBefore(h', a', h, a) ::
        ScaledCell(scale, home, away, h', a') in cells)
  }

  lemma GatherCell(cells: seq<Cell>, scale: real, home: real, away: real, h: nat, a: nat, n: nat)
    requires a < n && Gathered(cells, scale, home, away, h, a, n)
    ensures Gathered(cells + [ScaledCell(scale, home, away, h, a)], scale, home, away, h, a + 1, n)
  {
    hide CellWeight;
    var next := cells + [ScaledCell(scale, home, away, h, a)];
    forall h': nat, a': nat | a' < n && RowMajorBefore(h', a', h, a + 1)
      ensures ScaledCell(scale, home, away, h', a') in next
    {
      if (h', a') == (h, a) {
        assert next[|cells|] == ScaledCell(scale, home, away, h, a);
      } else {
        assert ScaledCell(scale, home, away, h', a') in cells;
      }
    }
  }

  lemma GatherRow(cells: seq<Cell>, scale: real, home: real, away: real, h: nat, n: nat)
    requires Gathered(cells, scale, home, away, h, n, n)
    ensures Gathered(cells, scale, home, away, h + 1, 0, n)
  {
    hide CellWeight;
  }

  /** A cell of the loop is the scaled product of the two pure weights. */
  lemma CellOfPmfs(expHome: real, expAway: real, home: real, away: real, h: nat, a: nat)
    ensures Cell(h, a, Pmf(expHome, home, h) * Pmf(expAway, away, a)) == ScaledCell(expHome * expAway, home, away, h, a)
  {
    hide Weight;
    Regroup(expHome, expAway, Weight(home, h), Weight(away, a));
  }

  lemma Regroup(s: real, t: real, v: real, w: real)
    ensures (s * v) * (t * w) == (s * t) * (v * w)
  {
  }

  /*************************** The three best ***************************/

  /** A common positive factor does not change the order. */
  lemma ScaleKeepsOrder(scale: real, w: real, w': real)
    requires 0.0 < scale
    ensures scale * w > scale * w' <==> w > w'
    ensures scale * w == scale * w' <==> w == w'
  {
    if w > w' { assert 0.0 < scale * (w - w'); }
    if w' > w { assert 0.0 < scale * (w' - w); }
  }

  ghost predicate Complete(ranked: seq<Cell>, scale: real, home: real, away: real, n: nat) {
    && Ranked(ranked)
    && (forall k | 0 <= k < |ranked| ::
          ranked[k] == ScaledCell(scale, home, away, ranked[k].home, ranked[k].away) && ranked[k].home < n
              && ranked[k].away < n)
    && (forall h: nat, a: nat | h < n && a < n :: ScaledCell(scale, home, away, h, a) in ranked)
  }

  lemma SortedIsComplete(ranked: seq<Cell>, cells: seq<Cell>, scale: real, home: real, away: real, n: nat)
    requires Gathered(cells, scale, home, away, n, 0, n) && Ranked(ranked) && multiset(ranked) == multiset(cells)
    ensures Complete(ranked, scale, home, away, n)
  {
    hide CellWeight, ScaledCell;
    forall cell ensures cell in ranked <==> cell in cells {
      assert cell in multiset(ranked) <==> cell in multiset(cells);
    }
    forall h: nat, a: nat | h < n && a < n ensures ScaledCell(scale, home, away, h, a) in ranked {
      assert RowMajorBefore(h, a, n, 0);
    }
    forall k | 0 <= k < |ranked|
      ensures ranked[k] == ScaledCell(scale, home, away, ranked[k].home, ranked[k].away) && ranked[k].home < n
              && ranked[k].away < n
    {
      assert ranked[k] in cells;
    }
  }

  lemma RankedDistinct(ranked: seq<Cell>)
    requires Ranked(ranked)
    ensures 2 <= |ranked| ==> ranked[0] != ranked[1]
  {
    assert 2 <= |ranked| ==> Precedes(ranked[0], ranked[1]);
  }

  lemma CompleteSize(ranked: seq<Cell>, scale: real, home: real, away: real, n: nat)
    requires 0 < n && Complete(ranked, scale, home, away, n)
    ensures n == 1 ==> |ranked| == 1
    ensures 2 <= n ==> 3 <= |ranked|
  {
    hide CellWeight;
    assert ScaledCell(scale, home, away, 0, 0) in ranked;
    if n == 1 {
      assert forall k | 0 <= k < |ranked| :: ranked[k] == ScaledCell(scale, home, away, 0, 0);
      RankedDistinct(ranked);
    } else {
      assert ScaledCell(scale, home, away, 0, 1) in ranked && ScaledCell(scale, home, away, 1, 0) in ranked;
    }
  }

  lemma RankedOutranks(ranked: seq<Cell>, scale: real, home: real, away: real, n: nat, i: nat, j: nat)
    requires 0.0 < scale && Complete(ranked, scale, home, away, n) && i < j < |ranked|
    ensures Outranks(home, away, ranked[i].home, ranked[i].away, ranked[j].home, ranked[j].away)
  {
    hide CellWeight;
    assert Precedes(ranked[i], ranked[j]);
    assert ranked[i] == ScaledCell(scale, home, away, ranked[i].home, ranked[i].away);
    assert ranked[j] == ScaledCell(scale, home, away, ranked[j].home, ranked[j].away);
    ScaleKeepsOrder(scale, CellWeight(home, away, ranked[i].home, ranked[i].away),
                    CellWeight(home, away, ranked[j].home, ranked[j].away));
  }

  /** Dividing by the scaled total leaves the normalised share. */
  lemma ScaledShare(scale: real, w: real, home: real, away: real, n: nat)
    requires 0.0 <= home && 0.0 <= away && 0.0 < scale && 0 < n
    ensures Total(home, away, n) != 0.0
    ensures scale * Total(home, away, n) != 0.0
    ensures (scale * w) / (scale * Total(home, away, n)) == w / Total(home, away, n)
  {
    TotalPositive(home, away, n);
    hide Total;
    CancelFactor(scale, w, Total(home, away, n));
  }

  method ReportTop(ranked: seq<Cell>, total: real, ghost scale: real, ghost home: real, ghost away: real,
                   ghost bound: nat)
    returns (top: seq<Scoreline>)
    requires 0.0 <= home && 0.0 <= away && 0.0 < scale && Complete(ranked, scale, home, away, bound + 1)
    requires total == scale * Total(home, away, bound + 1) && total != 0.0
    ensures IsTopScorelines(top, home, away, bound)
  {
    hide CellWeight, Total, Complete, IsTopScorelines;
    CompleteSize(ranked, scale, home, away, bound + 1);
    var best := if |ranked| < 3 then ranked else ranked[..3];
    top := seq(|best|, i requires 0 <= i < |best| =>
                 Scoreline(best[i].home, best[i].away, Round4(best[i].probability / total)));
    TopOfComplete(top, ranked, total, scale, home, away, bound);
  }

  lemma TopOfComplete(top: seq<Scoreline>, ranked: seq<Cell>, total: real, scale: real, home: real, away: real,
                      bound: nat)
    requires 0.0 <= home && 0.0 <= away && 0.0 < scale && Complete(ranked, scale, home, away, bound + 1)
    requires total == scale * Total(home, away, bound + 1) && total != 0.0
    requires |top| == (if bound == 0 then 1 else 3) && |top| <= |ranked|
    requires forall i | 0 <= i < |top| ::
               top[i] == Scoreline(ranked[i].home, ranked[i].away, Round4(ranked[i].probability / total))
    ensures IsTopScorelines(top, home, away, bound)
  {
    hide CellWeight, Total, Ranked, Outranks, Round4;
    TotalPositive(home, away, bound + 1);
    forall i | 0 <= i < |top|
      ensures top[i].prob == Round4(CellWeight(home, away, top[i].home, top[i].away) / Total(home, away, bound + 1))
    {
      ReportedShare(ranked[i], total, scale, home, away, bound + 1);
    }
    forall i, j | 0 <= i < j < |top| ensures Outranks(home, away, top[i].home, top[i].away, top[j].home, top[j].away) {
      RankedOutranks(ranked, scale, home, away, bound + 1, i, j);
    }
    forall h: nat, a: nat, i | h <= bound && a <= bound && 0 <= i < |top|
      ensures (exists k :: 0 <= k < |top| && top[k].home == h && top[k].away == a)
           || Outranks(home, away, top[i].home, top[i].away, h, a)
    {
      var k :| 0 <= k < |ranked| && ranked[k] == ScaledCell(scale, home, away, h, a);
      if k < |top| {
        assert top[k].home == h && top[k].away == a;
      } else {
        RankedOutranks(ranked, scale, home, away, bound + 1, i, k);
      }
    }
  }

  lemma ReportedShare(cell: Cell, total: real, scale: real, home: real, away: real, n: nat)
    requires 0.0 <= home && 0.0 <= away && 0.0 < scale && 0 < n
    requires cell == ScaledCell(scale, home, away, cell.home, cell.away)
    requires total == scale * Total(home, away, n) && total != 0.0
    ensures Total(home, away, n) != 0.0
    ensures cell.probability / total == CellWeight(home, away, cell.home, cell.away) / Total(home, away, n)
  {
    hide CellWeight, Total;
    ScaledShare(scale, CellWeight(home, away, cell.home, cell.away), home, away, n);
  }

  /*************************** The report ***************************/

  lemma Share(scale: real, home: real, away: real, e: Event, bound: nat)
    requires 0.0 <= home && 0.0 <= away && 0.0 < scale
    ensures scale * Total(home, away, bound + 1) != 0.0
    ensures Seen(scale, home, away, e, bound + 1, 0, bound + 1) / (scale * Total(home, away, bound + 1))
            == Prob(home, away, e, bound)
  {
    hide Mass, Total;
    SeeRow(scale, home, away, e, bound + 1, bound + 1);
    ScaledShare(scale, Mass(home, away, e, bound + 1, bound + 1), home, away, bound + 1);
  }

  lemma OutcomesTotal(scale: real, home: real, away: real, n: nat)
    ensures Seen(scale, home, away, HomeWin, n, 0, n) + Seen(scale, home, away, Draw, n, 0, n)
            + Seen(scale, home, away, AwayWin, n, 0, n)
         == scale * Total(home, away, n)
  {
    MassOutcomes(home, away, n, n);
    SeeRow(scale, home, away, HomeWin, n, n);
    SeeRow(scale, home, away, Draw, n, n);
    SeeRow(scale, home, away, AwayWin, n, n);
    hide Mass, Partial, Seen;
    var x, y, z := Mass(home, away, HomeWin, n, n), Mass(home, away, Draw, n, n), Mass(home, away, AwayWin, n, n);
    assert scale * (x + y + z) == scale * x + scale * y + scale * z;
  }

  /**
   The double loop over the matrix. Whatever positive values exp(-lambda) takes, the report is the
   normalised one: the two factors cancel.
   */
  method Score(lambdaHome: real, lambdaAway: real, expHome: real, expAway: real, maxGoals: nat)
    returns (report: ScoreProbabilities)
    requires 0.0 <= lambdaHome && 0.0 <= lambdaAway && 0.0 < expHome && 0.0 < expAway
    ensures report.lambdaHome == lambdaHome && report.lambdaAway == lambdaAway
    ensures report.probHome == Prob(lambdaHome, lambdaAway, HomeWin, maxGoals)
    ensures report.probDraw == Prob(lambdaHome, lambdaAway, Draw, maxGoals)
    ensures report.probAway == Prob(lambdaHome, lambdaAway, AwayWin, maxGoals)
    ensures report.overTwoAndAHalf == Prob(lambdaHome, lambdaAway, OverTwoAndAHalf, maxGoals)
    ensures report.btts == Prob(lambdaHome, lambdaAway, BothScore, maxGoals)
    ensures IsTopScorelines(report.mostLikely, lambdaHome, lambdaAway, maxGoals)
  {
    hide Weight, RowMass, Mass, Total, Prob, Seen, CellWeight, ScaledCell, Gathered, IsTopScorelines, Pmf;
    var n := maxGoals + 1;
    var homePmf := seq(n, g requires 0 <= g < n => Pmf(expHome, lambdaHome, g));
    var awayPmf := seq(n, g requires 0 <= g < n => Pmf(expAway, lambdaAway, g));
    ghost var scale := expHome * expAway;

    var probHome, probDraw, probAway := 0.0, 0.0, 0.0;
    var over, btts := 0.0, 0.0;
    var cells: seq<Cell> := [];
    NothingSeen(scale, lambdaHome, lambdaAway, n);
    for h := 0 to n
      invariant Gathered(cells, scale, lambdaHome, lambdaAway, h, 0, n)
      invariant probHome == Seen(scale, lambdaHome, lambdaAway, HomeWin, h, 0, n)
      invariant probDraw == Seen(scale, lambdaHome, lambdaAway, Draw, h, 0, n)
      invariant probAway == Seen(scale, lambdaHome, lambdaAway, AwayWin, h, 0, n)
      invariant over == Seen(scale, lambdaHome, lambdaAway, OverTwoAndAHalf, h, 0, n)
      invariant btts == Seen(scale, lambdaHome, lambdaAway, BothScore, h, 0, n)
    {
      for a := 0 to n
        invariant Gathered(cells, scale, lambdaHome, lambdaAway, h, a, n)
        invariant probHome == Seen(scale, lambdaHome, lambdaAway, HomeWin, h, a, n)
        invariant probDraw == Seen(scale, lambdaHome, lambdaAway, Draw, h, a, n)
        invariant probAway == Seen(scale, lambdaHome, lambdaAway, AwayWin, h, a, n)
        invariant over == Seen(scale, lambdaHome, lambdaAway, OverTwoAndAHalf, h, a, n)
        invariant btts == Seen(scale, lambdaHome, lambdaAway, BothScore, h, a, n)
      {
        var probability := homePmf[h] * awayPmf[a];
        assert homePmf[h] == Pmf(expHome, lambdaHome, h) && awayPmf[a] == Pmf(expAway, lambdaAway, a);
        CellOfPmfs(expHome, expAway, lambdaHome, lambdaAway, h, a);
        assert Cell(h, a, probability) == ScaledCell(scale, lambdaHome, lambdaAway, h, a);
        GatherCell(cells, scale, lambdaHome, lambdaAway, h, a, n);
        cells := cells + [Cell(h, a, probability)];
        SeeCell(expHome, expAway, lambdaHome, lambdaAway, HomeWin, h, a, n);
        SeeCell(expHome, expAway, lambdaHome, lambdaAway, Draw, h, a, n);
        SeeCell(expHome, expAway, lambdaHome, lambdaAway, AwayWin, h, a, n);
        SeeCell(expHome, expAway, lambdaHome, lambdaAway, OverTwoAndAHalf, h, a, n);
        SeeCell(expHome, expAway, lambdaHome, lambdaAway, BothScore, h, a, n);
        if h > a {
          probHome := probHome + probability;
        } else if h < a {
          probAway := probAway + probability;
        } else {
          probDraw := probDraw + probability;
        }
        if h + a > 2 {
          over := over + probability;
        }
        if h > 0 && a > 0 {
          btts := btts + probability;
        }
      }
      GatherRow(cells, scale, lambdaHome, lambdaAway, h, n);
      SeeRow(scale, lambdaHome, lambdaAway, HomeWin, h, n);
      SeeRow(scale, lambdaHome, lambdaAway, Draw, h, n);
      SeeRow(scale, lambdaHome, lambdaAway, AwayWin, h, n);
      SeeRow(scale, lambdaHome, lambdaAway, OverTwoAndAHalf, h, n);
      SeeRow(scale, lambdaHome, lambdaAway, BothScore, h, n);
    }

    var total := probHome + probDraw + probAway;
    MulPositive(expHome, expAway);
    OutcomesTotal(scale, lambdaHome, lambdaAway, n);
    Share(scale, lambdaHome, lambdaAway, HomeWin, maxGoals);
    Share(scale, lambdaHome, lambdaAway, Draw, maxGoals);
    Share(scale, lambdaHome, lambdaAway, AwayWin, maxGoals);
    Share(scale, lambdaHome, lambdaAway, OverTwoAndAHalf, maxGoals);
    Share(scale, lambdaHome, lambdaAway, BothScore, maxGoals);

    GatheredInOrder(cells, scale, lambdaHome, lambdaAway, n);
    var ranked := SortDescending(cells);
    SortedIsComplete(ranked, cells, scale, lambdaHome, lambdaAway, n);
    var mostLikely := ReportTop(ranked, total, scale, lambdaHome, lambdaAway, maxGoals);
    report := ScoreProbabilities(lambdaHome, lambdaAway, probHome / total, probDraw / total, probAway / total,
                                 over / total, btts / total, mostLikely);
  }

  lemma NothingSeen(scale: real, home: real, away: real, n: nat)
    ensures Gathered([], scale, home, away, 0, 0, n)
    ensures forall e: Event | e in {HomeWin, Draw, AwayWin, OverTwoAndAHalf, BothScore} ::
              Seen(scale, home, away, e, 0, 0, n) == 0.0
  {
    forall e: Event | e in {HomeWin, Draw, AwayWin, OverTwoAndAHalf, BothScore}
      ensures Seen(scale, home, away, e, 0, 0, n) == 0.0
    {
      SeeRow(scale, home, away, e, 0, n);
    }
  }

  lemma GatheredInOrder(cells: seq<Cell>, scale: real, home: real, away: real, n: nat)
    requires Gathered(cells, scale, home, away, n, 0, n)
    ensures RowMajor(cells)
  {
  }
}
