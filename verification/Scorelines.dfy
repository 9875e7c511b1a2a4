/** Ranking the score matrix: the stable descending sort and the closed form of its first cell. */
module Scorelines {
  import opened RealArithmetic
  import opened PoissonWeights
  import opened ScoreMatrix
  import opened Rounding

  /** One entry of the `cells` list. */
  datatype Cell = Cell(home: nat, away: nat, probability: real)

  /** One entry of `most_likely_scores`. */
  datatype Scoreline = Scoreline(home: nat, away: nat, prob: real)

  predicate RowMajorBefore(h: nat, a: nat, h': nat, a': nat) {
    h < h' || (h == h' && a < a')
  }

  predicate Precedes(c: Cell, d: Cell) {
    c.probability > d.probability || (c.probability == d.probability && RowMajorBefore(c.home, c.away, d.home, d.away))
  }

  ghost predicate RowMajor(cells: seq<Cell>) {
    forall i, j | 0 <= i < j < |cells| :: RowMajorBefore(cells[i].home, cells[i].away, cells[j].home, cells[j].away)
  }

  ghost predicate Ranked(cells: seq<Cell>) {
    forall i, j | 0 <= i < j < |cells| :: Precedes(cells[i], cells[j])
  }

  /** Where the backward scan stops, everything in front outranks the new cell and everything behind it does not. */
  lemma ScanStops(sorted: seq<Cell>, at: nat, cell: Cell)
    requires Ranked(sorted) && at <= |sorted|
    requires forall k | 0 <= k < |sorted| :: RowMajorBefore(sorted[k].home, sorted[k].away, cell.home, cell.away)
    requires 0 < at ==> cell.probability <= sorted[at - 1].probability
    requires forall k | at <= k < |sorted| :: sorted[k].probability < cell.probability
    ensures forall k | 0 <= k < at :: Precedes(sorted[k], cell)
    ensures forall k | at <= k < |sorted| :: Precedes(cell, sorted[k])
  {
    hide RowMajorBefore;
    forall k | 0 <= k < at ensures Precedes(sorted[k], cell) {
      assert k < at - 1 ==> Precedes(sorted[k], sorted[at - 1]);
    }
  }

  lemma InsertKeepsRank(sorted: seq<Cell>, at: nat, cell: Cell)
    requires Ranked(sorted) && at <= |sorted|
    requires forall k | 0 <= k < at :: Precedes(sorted[k], cell)
    requires forall k | at <= k < |sorted| :: Precedes(cell, sorted[k])
    ensures Ranked(sorted[..at] + [cell] + sorted[at..])
    ensures multiset(sorted[..at] + [cell] + sorted[at..]) == multiset(sorted) + multiset{cell}
  {
    hide Precedes;
    assert sorted == sorted[..at] + sorted[at..];
    RankedJoin(sorted[..at], [cell]);
    RankedJoin(sorted[..at] + [cell], sorted[at..]);
  }

  lemma RankedJoin(front: seq<Cell>, back: seq<Cell>)
    requires Ranked(front) && Ranked(back)
    requires forall i, j | 0 <= i < |front| && 0 <= j < |back| :: Precedes(front[i], back[j])
    ensures Ranked(front + back)
  {
    hide Precedes;
  }

  lemma EarlierCells(cells: seq<Cell>, i: nat, sorted: seq<Cell>)
    requires RowMajor(cells) && i < |cells| && multiset(sorted) == multiset(cells[..i])
    ensures forall k | 0 <= k < |sorted| :: RowMajorBefore(sorted[k].home, sorted[k].away, cells[i].home, cells[i].away)
  {
    forall k | 0 <= k < |sorted| ensures RowMajorBefore(sorted[k].home, sorted[k].away, cells[i].home, cells[i].away) {
      assert sorted[k] in multiset(sorted);
      assert sorted[k] in cells[..i];
    }
  }

  /** The stable descending sort on probability: equal cells keep their row-major order. */
  method SortDescending(cells: seq<Cell>) returns (sorted: seq<Cell>)
    requires RowMajor(cells)
    ensures multiset(sorted) == multiset(cells)
    ensures Ranked(sorted)
  {
    sorted := [];
    for i := 0 to |cells|
      invariant multiset(sorted) == multiset(cells[..i])
      invariant Ranked(sorted)
    {
      var cell, at := cells[i], |sorted|;
      EarlierCells(cells, i, sorted);
      while 0 < at && sorted[at - 1].probability < cell.probability
        invariant 0 <= at <= |sorted|
        invariant forall k | at <= k < |sorted| :: sorted[k].probability < cell.probability
      {
        at := at - 1;
      }
      ScanStops(sorted, at, cell);
      InsertKeepsRank(sorted, at, cell);
      assert cells[..i + 1] == cells[..i] + [cell];
      sorted := sorted[..at] + [cell] + sorted[at..];
    }
    assert cells[..|cells|] == cells;
  }

  /*************************** Ranking scorelines by rate ***************************/

  function CellWeight(home: real, away: real, h: nat, a: nat): real {
    Weight(home, h) * Weight(away, a)
  }

  /** Scoreline (h, a) is reported before (h', a'). */
  predicate Outranks(home: real, away: real, h: nat, a: nat, h': nat, a': nat) {
    var w, w' := CellWeight(home, away, h, a), CellWeight(home, away, h', a');
    w > w' || (w == w' && RowMajorBefore(h, a, h', a'))
  }

  /** The reported list: as many as fit up to three, in rank order, ahead of every cell left out. */
  ghost predicate IsTopScorelines(top: seq<Scoreline>, home: real, away: real, bound: nat)
    requires 0.0 <= home && 0.0 <= away
  {
    TotalPositive(home, away, bound + 1);
    && |top| == (if bound == 0 then 1 else 3)
    && (forall i | 0 <= i < |top| ::
          && top[i].home <= bound && top[i].away <= bound
          && top[i].prob == Round4(CellWeight(home, away, top[i].home, top[i].away) / Total(home, away, bound + 1)))
    && (forall i, j | 0 <= i < j < |top| :: Outranks(home, away, top[i].home, top[i].away, top[j].home, top[j].away))
    && (forall h: nat, a: nat, i | h <= bound && a <= bound && 0 <= i < |top| ::
          (exists k :: 0 <= k < |top| && top[k].home == h && top[k].away == a)
          || Outranks(home, away, top[i].home, top[i].away, h, a))
  }

  function Ceil(x: real): (n: int)
    ensures (n - 1) as real < x <= n as real
  {
    -((-x).Floor)
  }

  /** Smallest most likely score of one side. */
  function Mode(rate: real, bound: nat): (m: nat)
    ensures m <= bound
  {
    var peak := Ceil(rate) - 1;
    if peak < 0 then 0 else if bound < peak then bound else peak
  }

  lemma WeightRises(rate: real, g: nat)
    requires (g + 1) as real < rate
    ensures Weight(rate, g) < Weight(rate, g + 1)
  {
    hide Weight;
    WeightStep(rate, g);
    WeightSign(rate, g);
    var k, w, next := (g + 1) as real, Weight(rate, g), Weight(rate, g + 1);
    assert 0.0 < (rate - k) * w;
    CancelPositive(k, w, next);
    assert k * w != k * next;
  }

  lemma WeightFalls(rate: real, g: nat)
    requires 0.0 <= rate <= (g + 1) as real
    ensures Weight(rate, g + 1) <= Weight(rate, g)
  {
    hide Weight;
    WeightStep(rate, g);
    WeightSign(rate, g);
    MulMono(rate, (g + 1) as real, Weight(rate, g));
    CancelPositive((g + 1) as real, Weight(rate, g + 1), Weight(rate, g));
  }

  /** Up to the mode the weights climb strictly; past it they never climb again. */
  lemma {:induction false} ModeIsFirstMaximum(rate: real, bound: nat, g: nat)
    requires 0.0 <= rate && g <= bound
    ensures Weight(rate, g) <= Weight(rate, Mode(rate, bound))
    ensures g < Mode(rate, bound) ==> Weight(rate, g) < Weight(rate, Mode(rate, bound))
    decreases if g < Mode(rate, bound) then Mode(rate, bound) - g else g - Mode(rate, bound)
  {
    hide Weight;
    var m := Mode(rate, bound);
    if g < m {
      WeightRises(rate, g);
      ModeIsFirstMaximum(rate, bound, g + 1);
    } else if m < g {
      WeightFalls(rate, g - 1);
      ModeIsFirstMaximum(rate, bound, g - 1);
    }
  }

  lemma ModesLead(home: real, away: real, bound: nat, h: nat, a: nat)
    requires 0.0 <= home && 0.0 <= away && h <= bound && a <= bound
    requires (h, a) != (Mode(home, bound), Mode(away, bound))
    ensures Outranks(home, away, Mode(home, bound), Mode(away, bound), h, a)
  {
    hide Weight;
    var m, n := Mode(home, bound), Mode(away, bound);
    ModeIsFirstMaximum(home, bound, h);
    ModeIsFirstMaximum(away, bound, a);
    ModeIsFirstMaximum(home, bound, 0);
    ModeIsFirstMaximum(away, bound, 0);
    WeightSign(home, 0); WeightSign(away, 0); WeightSign(home, h); WeightSign(away, a);
    BiggestProduct(Weight(home, h), Weight(home, m), Weight(away, a), Weight(away, n));
  }

  lemma BiggestProduct(x: real, y: real, u: real, v: real)
    requires 0.0 <= x <= y && 0.0 <= u <= v && 0.0 < y && 0.0 < v
    ensures x * u <= y * v
    ensures x < y || u < v ==> x * u < y * v
  {
    MulMono(x, y, u);
    MulMono(u, v, y);
    if x < y { assert 0.0 < (y - x) * v; MulMono(u, v, x); }
    if u < v { assert 0.0 < (v - u) * y; }
  }

  /** The headline scoreline is the pair of modes, in closed form. */
  lemma {:induction false} TopScorelineIsModes(top: seq<Scoreline>, home: real, away: real, bound: nat)
    requires 0.0 <= home && 0.0 <= away && IsTopScorelines(top, home, away, bound)
    ensures top[0].home == Mode(home, bound) && top[0].away == Mode(away, bound)
  {
    if (top[0].home, top[0].away) != (Mode(home, bound), Mode(away, bound)) {
      ModesLead(home, away, bound, top[0].home, top[0].away);
      FirstOutranks(top, home, away, bound, Mode(home, bound), Mode(away, bound));
      assert false;
    }
  }

  lemma FirstOutranks(top: seq<Scoreline>, home: real, away: real, bound: nat, h: nat, a: nat)
    requires 0.0 <= home && 0.0 <= away && h <= bound && a <= bound && IsTopScorelines(top, home, away, bound)
    requires (top[0].home, top[0].away) != (h, a)
    ensures Outranks(home, away, top[0].home, top[0].away, h, a)
  {
    hide CellWeight;
  }

  /** No scoreline is reported twice. */
  lemma TopScorelinesDistinct(top: seq<Scoreline>, home: real, away: real, bound: nat, i: nat, j: nat)
    requires 0.0 <= home && 0.0 <= away && IsTopScorelines(top, home, away, bound)
    requires i < j < |top|
    ensures (top[i].home, top[i].away) != (top[j].home, top[j].away)
  {
    assert Outranks(home, away, top[i].home, top[i].away, top[j].home, top[j].away);
  }
}
