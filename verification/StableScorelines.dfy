/** The reported scorelines do not depend on where the matrix stops, as long as it runs past both rates. */
module StableScorelines {
  import opened RealArithmetic
  import opened PoissonWeights
  import opened ScoreMatrix
  import opened Rounding
  import opened Scorelines
  import opened Truncation

  /*************************** Reported shares are event probabilities ***************************/

  lemma {:induction false} ExactRow(away: real, h: nat, a: nat, row: nat, n: nat)
    ensures RowMass(away, Exactly(h, a), row, n) == if row == h && a < n then Weight(away, a) else 0.0
  {
    hide Weight;
    if n > 0 { ExactRow(away, h, a, row, n - 1); }
  }

  lemma {:induction false} ExactMass(home: real, away: real, h: nat, a: nat, rows: nat, columns: nat)
    ensures Mass(home, away, Exactly(h, a), rows, columns)
         == if h < rows && a < columns then CellWeight(home, away, h, a) else 0.0
  {
    hide Weight, RowMass, Mass;
    MassStep(home, away, Exactly(h, a), 0, columns);
    if rows > 0 {
      ExactMass(home, away, h, a, rows - 1, columns);
      MassStep(home, away, Exactly(h, a), rows - 1, columns);
      ExactRow(away, h, a, rows - 1, columns);
    }
  }

  /** The number beside each reported scoreline is the rounded probability of exactly that score. */
  lemma ReportedIsProbability(top: seq<Scoreline>, home: real, away: real, bound: nat, i: nat)
    requires 0.0 <= home && 0.0 <= away && IsTopScorelines(top, home, away, bound) && i < |top|
    ensures top[i].prob == Round4(Prob(home, away, Exactly(top[i].home, top[i].away), bound))
  {
    hide CellWeight, Total, Mass, Round4, Outranks;
    ExactMass(home, away, top[i].home, top[i].away, bound + 1, bound + 1);
  }

  /*************************** Three rivals ahead of every cell outside ***************************/

  lemma OutranksOrder(home: real, away: real, c: (nat, nat), d: (nat, nat), e: (nat, nat))
    ensures !(Outranks(home, away, c.0, c.1, d.0, d.1) && Outranks(home, away, d.0, d.1, c.0, c.1))
    ensures Outranks(home, away, c.0, c.1, d.0, d.1) && Outranks(home, away, d.0, d.1, e.0, e.1)
        ==> Outranks(home, away, c.0, c.1, e.0, e.1)
  {
    hide CellWeight;
  }

  lemma {:induction false} WeightsFall(rate: real, bound: nat, g: nat, g': nat)
    requires 2 <= bound && 0.0 <= rate <= (bound - 1) as real && bound - 2 <= g <= g'
    ensures Weight(rate, g') <= Weight(rate, g)
  {
    hide Weight;
    if g < g' {
      WeightsFall(rate, bound, g, g' - 1);
      WeightFalls(rate, g' - 1);
    }
  }

  /** The i-th cell inside the bound on the way in from a cell outside it. */
  function Rival(bound: nat, cell: (nat, nat), i: nat): (rival: (nat, nat))
    requires i <= bound && (bound < cell.0 || bound < cell.1)
    ensures rival.0 <= bound && rival.1 <= bound
  {
    if bound < cell.0 then (bound - i, if bound < cell.1 then bound else cell.1) else (cell.0, bound - i)
  }

  lemma RivalLeads(home: real, away: real, bound: nat, cell: (nat, nat), i: nat)
    requires 2 <= bound && i <= 2 && (bound < cell.0 || bound < cell.1)
    requires 0.0 <= home <= (bound - 1) as real && 0.0 <= away <= (bound - 1) as real
    ensures var r := Rival(bound, cell, i); Outranks(home, away, r.0, r.1, cell.0, cell.1)
  {
    hide Weight;
    var r := Rival(bound, cell, i);
    if bound < cell.0 { WeightsFall(home, bound, r.0, cell.0); }
    if r.1 != cell.1 { WeightsFall(away, bound, r.1, cell.1); }
    WeightSign(home, cell.0);
    WeightSign(away, cell.1);
    MulMonoBoth(Weight(home, cell.0), Weight(home, r.0), Weight(away, cell.1), Weight(away, r.1));
  }

  function CellOf(line: Scoreline): (nat, nat) {
    (line.home, line.away)
  }

  predicate Outside(cell: (nat, nat), bound: nat) {
    bound < cell.0 || bound < cell.1
  }

  predicate Leads(home: real, away: real, c: (nat, nat), d: (nat, nat)) {
    Outranks(home, away, c.0, c.1, d.0, d.1)
  }

  /** The last of three listed scorelines is ahead of every cell the matrix leaves out. */
  ghost predicate LeadsOutside(top: seq<Scoreline>, home: real, away: real, bound: nat)
    requires |top| == 3
  {
    forall cell | Outside(cell, bound) :: Leads(home, away, CellOf(top[2]), cell)
  }

  /** Of three distinct cells inside the bound one is no earlier than the last listed one. */
  lemma LastLeadsSomeRival(top: seq<Scoreline>, home: real, away: real, bound: nat, rivals: seq<(nat, nat)>)
    returns (r: (nat, nat))
    requires 0.0 <= home && 0.0 <= away && 1 <= bound && IsTopScorelines(top, home, away, bound)
    requires |rivals| == 3 && rivals[0] != rivals[1] && rivals[0] != rivals[2] && rivals[1] != rivals[2]
    requires forall k | 0 <= k < 3 :: !Outside(rivals[k], bound)
    ensures r in rivals && (CellOf(top[2]) == r || Leads(home, away, CellOf(top[2]), r))
  {
    hide Outranks, Round4, Total, CellWeight;
    var k := if CellOf(top[0]) != rivals[0] && CellOf(top[1]) != rivals[0] then 0
             else if CellOf(top[0]) != rivals[1] && CellOf(top[1]) != rivals[1] then 1 else 2;
    r := rivals[k];
    assert CellOf(top[0]) != r && CellOf(top[1]) != r;
    assert (exists n :: 0 <= n < |top| && top[n].home == r.0 && top[n].away == r.1)
           || Outranks(home, away, top[2].home, top[2].away, r.0, r.1);
  }

  /** With both rates a goal inside the bound, the whole list is ahead of everything outside. */
  lemma SmallRatesLeadOutside(top: seq<Scoreline>, home: real, away: real, bound: nat)
    requires 2 <= bound && 0.0 <= home <= (bound - 1) as real && 0.0 <= away <= (bound - 1) as real
    requires IsTopScorelines(top, home, away, bound)
    ensures |top| == 3 && LeadsOutside(top, home, away, bound)
  {
    ThreeReported(top, home, away, bound);
    hide IsTopScorelines, Outranks;
    forall cell | Outside(cell, bound) ensures Leads(home, away, CellOf(top[2]), cell) {
      var rivals := [Rival(bound, cell, 0), Rival(bound, cell, 1), Rival(bound, cell, 2)];
      var r := LastLeadsSomeRival(top, home, away, bound, rivals);
      RivalLeads(home, away, bound, cell, 0);
      RivalLeads(home, away, bound, cell, 1);
      RivalLeads(home, away, bound, cell, 2);
      assert Leads(home, away, r, cell);
      OutranksOrder(home, away, CellOf(top[2]), r, cell);
    }
  }

  /*************************** Lists that lead outside stay as they are ***************************/

  /** A larger list's entry outside the bound would have this list's k-th entry before it. */
  lemma ListedBefore(top: seq<Scoreline>, next: seq<Scoreline>, home: real, away: real, bound: nat, larger: nat, i: nat,
                     k: nat)
    returns (at: nat)
    requires 0.0 <= home && 0.0 <= away && 1 <= bound <= larger && i < 3 && k < 3 && |top| == |next| == 3
    requires IsTopScorelines(top, home, away, bound) && IsTopScorelines(next, home, away, larger)
    requires LeadsOutside(top, home, away, bound) && Outside(CellOf(next[i]), bound)
    ensures at < i && CellOf(next[at]) == CellOf(top[k])
  {
    var cell, r := CellOf(next[i]), CellOf(top[k]);
    assert Leads(home, away, CellOf(top[2]), cell);
    assert k < 2 ==> Outranks(home, away, top[k].home, top[k].away, top[2].home, top[2].away);
    OutranksOrder(home, away, r, CellOf(top[2]), cell);
    InsideLarger(top, home, away, bound, k);
    OutranksOrder(home, away, r, cell, r);
    OutranksOrder(home, away, cell, cell, cell);
    hide Outranks, CellWeight, Round4, Total, LeadsOutside;
    assert exists j :: 0 <= j < |next| && next[j].home == r.0 && next[j].away == r.1;
    at :| 0 <= at < |next| && next[at].home == r.0 && next[at].away == r.1;
  }

  lemma ListedInside(top: seq<Scoreline>, next: seq<Scoreline>, home: real, away: real, bound: nat, larger: nat, i: nat)
    requires 0.0 <= home && 0.0 <= away && 1 <= bound <= larger && i < 3 && |top| == |next| == 3
    requires IsTopScorelines(top, home, away, bound) && IsTopScorelines(next, home, away, larger)
    requires LeadsOutside(top, home, away, bound)
    ensures !Outside(CellOf(next[i]), bound)
  {
    if Outside(CellOf(next[i]), bound) {
      var x := ListedBefore(top, next, home, away, bound, larger, i, 0);
      var y := ListedBefore(top, next, home, away, bound, larger, i, 1);
      var z := ListedBefore(top, next, home, away, bound, larger, i, 2);
      TopScorelinesDistinct(top, home, away, bound, 0, 1);
      TopScorelinesDistinct(top, home, away, bound, 0, 2);
      TopScorelinesDistinct(top, home, away, bound, 1, 2);
      assert false;
    }
  }

  /*************************** The list is the same for every bound ***************************/

  function Cells(top: seq<Scoreline>): (cells: seq<(nat, nat)>)
    ensures |cells| == |top| && forall i | 0 <= i < |top| :: cells[i] == (top[i].home, top[i].away)
  {
    seq(|top|, i requires 0 <= i < |top| => (top[i].home, top[i].away))
  }

  /** Where two lists first differ, each entry would have to outrank the other. */
  lemma LaterOutranked(top: seq<Scoreline>, home: real, away: real, bound: nat, i: nat, cell: (nat, nat))
    requires 0.0 <= home && 0.0 <= away && IsTopScorelines(top, home, away, bound) && i < |top|
    requires cell.0 <= bound && cell.1 <= bound && forall k | 0 <= k <= i :: (top[k].home, top[k].away) != cell
    ensures Outranks(home, away, top[i].home, top[i].away, cell.0, cell.1)
  {
    hide Outranks, CellWeight, Round4, Total;
    if k :| 0 <= k < |top| && top[k].home == cell.0 && top[k].away == cell.1 {
      assert i < k;
    }
  }

  lemma {:induction false} SameUpTo(top: seq<Scoreline>, next: seq<Scoreline>, home: real, away: real, bound: nat,
                                    larger: nat, n: nat)
    requires 0.0 <= home && 0.0 <= away && 1 <= bound <= larger && n <= 3 && |top| == |next| == 3
    requires IsTopScorelines(top, home, away, bound) && IsTopScorelines(next, home, away, larger)
    requires LeadsOutside(top, home, away, bound)
    ensures Cells(top)[..n] == Cells(next)[..n]
  {
    if n > 0 {
      SameUpTo(top, next, home, away, bound, larger, n - 1);
      var i := n - 1;
      var c, d := Cells(top)[i], Cells(next)[i];
      forall k | 0 <= k < i
        ensures Cells(top)[k] == Cells(next)[k] && Cells(top)[k] != c && Cells(next)[k] != d
      {
        assert Cells(top)[k] == Cells(top)[..i][k] && Cells(next)[k] == Cells(next)[..i][k];
        TopScorelinesDistinct(top, home, away, bound, k, i);
        TopScorelinesDistinct(next, home, away, larger, k, i);
      }
      if c != d {
        ListedInside(top, next, home, away, bound, larger, i);
        hide IsTopScorelines, Outranks, LeadsOutside;
        LaterOutranked(top, home, away, bound, i, d);
        InsideLarger(top, home, away, bound, i);
        LaterOutranked(next, home, away, larger, i, c);
        OutranksOrder(home, away, c, d, c);
        assert false;
      }
      assert Cells(top)[..n] == Cells(top)[..i] + [c] && Cells(next)[..n] == Cells(next)[..i] + [d];
    }
  }

  lemma InsideLarger(top: seq<Scoreline>, home: real, away: real, bound: nat, i: nat)
    requires 0.0 <= home && 0.0 <= away && IsTopScorelines(top, home, away, bound) && i < |top|
    ensures top[i].home <= bound && top[i].away <= bound
  {
  }

  lemma LeadingListsStay(top: seq<Scoreline>, next: seq<Scoreline>, home: real, away: real, bound: nat, larger: nat)
    requires 0.0 <= home && 0.0 <= away && 1 <= bound <= larger && |top| == 3
    requires IsTopScorelines(top, home, away, bound) && IsTopScorelines(next, home, away, larger)
    requires LeadsOutside(top, home, away, bound)
    ensures Cells(top) == Cells(next)
  {
    ThreeReported(next, home, away, larger);
    SameUpTo(top, next, home, away, bound, larger, 3);
    assert Cells(top)[..3] == Cells(top) && Cells(next)[..3] == Cells(next);
  }

  /**
   With both rates a goal inside the bound, no larger matrix changes which scorelines are reported, or
   their order.
   */
  lemma ScorelinesIgnoreLargerBounds(top: seq<Scoreline>, next: seq<Scoreline>, home: real, away: real, bound: nat,
                                     larger: nat)
    requires 2 <= bound <= larger
    requires 0.0 <= home <= (bound - 1) as real && 0.0 <= away <= (bound - 1) as real
    requires IsTopScorelines(top, home, away, bound) && IsTopScorelines(next, home, away, larger)
    ensures Cells(top) == Cells(next)
  {
    SmallRatesLeadOutside(top, home, away, bound);
    LeadingListsStay(top, next, home, away, bound, larger);
  }

  /*************************** Exactly when the list stays ***************************/

  /** The two best cells just outside the matrix. */
  function Below(home: real, away: real, bound: nat): (nat, nat) { (bound + 1, Mode(away, bound)) }

  function Beside(home: real, away: real, bound: nat): (nat, nat) { (Mode(home, bound), bound + 1) }

  /** What has to be looked at to tell: the last listed cell against the two best cells just outside. */
  predicate LeadsNeighbours(top: seq<Scoreline>, home: real, away: real, bound: nat)
    requires |top| == 3
  {
    Leads(home, away, CellOf(top[2]), Below(home, away, bound))
        && Leads(home, away, CellOf(top[2]), Beside(home, away, bound))
  }

  /** Scores with no more than this rate weigh no more than the mode, inside the bound or out. */
  lemma ModeLeadsAll(rate: real, bound: nat, g: nat)
    requires 0.0 <= rate <= (bound + 1) as real
    ensures Weight(rate, g) <= Weight(rate, Mode(rate, bound))
    ensures bound < g ==> Weight(rate, g) <= Weight(rate, bound + 1)
  {
    hide Weight, Mode;
    ModeIsFirstMaximum(rate, bound, if g <= bound then g else bound);
    if bound < g {
      WeightsFall(rate, bound + 2, bound, g);
      WeightsFall(rate, bound + 2, bound + 1, g);
    }
  }

  lemma ModeIsPositive(rate: real, bound: nat)
    requires 0.0 <= rate
    ensures 1.0 <= Weight(rate, Mode(rate, bound))
  {
    hide Weight, Mode;
    ModeIsFirstMaximum(rate, bound, 0);
    WeightSign(rate, 0);
  }

  /** Weights grow side by side. */
  lemma BiggerCell(home: real, away: real, c: (nat, nat), d: (nat, nat))
    requires 0.0 <= home && 0.0 <= away
    requires Weight(home, c.0) <= Weight(home, d.0) && Weight(away, c.1) <= Weight(away, d.1)
    ensures CellWeight(home, away, c.0, c.1) <= CellWeight(home, away, d.0, d.1)
    ensures Weight(home, c.0) < Weight(home, d.0) && 0.0 < Weight(away, d.1)
            ==> CellWeight(home, away, c.0, c.1) < CellWeight(home, away, d.0, d.1)
    ensures Weight(away, c.1) < Weight(away, d.1) && 0.0 < Weight(home, d.0)
            ==> CellWeight(home, away, c.0, c.1) < CellWeight(home, away, d.0, d.1)
    ensures Weight(away, d.1) == 0.0 ==> CellWeight(home, away, c.0, c.1) == 0.0
  {
    hide Weight;
    WeightSign(home, c.0);
    WeightSign(away, c.1);
    SideBySide(Weight(home, c.0), Weight(home, d.0), Weight(away, c.1), Weight(away, d.1));
  }

  lemma SideBySide(x: real, y: real, u: real, v: real)
    requires 0.0 <= x <= y && 0.0 <= u <= v
    ensures x * u <= y * v
    ensures x < y && 0.0 < v ==> x * u < y * v
    ensures u < v && 0.0 < y ==> x * u < y * v
    ensures v == 0.0 ==> x * u == 0.0
  {
    if 0.0 < y && 0.0 < v { BiggestProduct(x, y, u, v); }
  }

  /** Past the bound by more than one, the next row or column outweighs everything inside. */
  lemma HeavierNeighbours(home: real, away: real, bound: nat, c: (nat, nat))
    requires 0.0 <= home && 0.0 <= away && !Outside(c, bound)
    ensures (bound + 1) as real < home
            ==> CellWeight(home, away, c.0, c.1) < CellWeight(home, away, bound + 1, Mode(away, bound))
    ensures (bound + 1) as real < away
            ==> CellWeight(home, away, c.0, c.1) < CellWeight(home, away, Mode(home, bound), bound + 1)
  {
    hide Weight, Mode, CellWeight;
    ModeIsFirstMaximum(home, bound, c.0);
    ModeIsFirstMaximum(away, bound, c.1);
    ModeIsPositive(home, bound);
    ModeIsPositive(away, bound);
    PastTheBound(home, bound);
    PastTheBound(away, bound);
    if (bound + 1) as real < home {
      BiggerCell(home, away, c, (bound + 1, Mode(away, bound)));
    }
    if (bound + 1) as real < away {
      BiggerCell(home, away, c, (Mode(home, bound), bound + 1));
    }
  }

  lemma PastTheBound(rate: real, bound: nat)
    ensures (bound + 1) as real < rate ==> Weight(rate, Mode(rate, bound)) < Weight(rate, bound + 1)
  {
    hide Weight;
    if (bound + 1) as real < rate {
      WeightRises(rate, bound);
      assert Mode(rate, bound) == bound;
    }
  }

  /** A cell inside the bound only leads both neighbours if the rates are no more than one past the bound. */
  lemma LeadersCapRates(home: real, away: real, bound: nat, c: (nat, nat))
    requires 0.0 <= home && 0.0 <= away && !Outside(c, bound)
    ensures Leads(home, away, c, Below(home, away, bound)) ==> home <= (bound + 1) as real
    ensures Leads(home, away, c, Beside(home, away, bound)) ==> away <= (bound + 1) as real
  {
    HeavierNeighbours(home, away, bound, c);
    hide CellWeight, Mode;
  }

  /** Leading the two neighbours, a cell leads every row below the matrix. */
  lemma LeadsBelow(home: real, away: real, bound: nat, c: (nat, nat), d: (nat, nat))
    requires 0.0 <= home <= (bound + 1) as real && 0.0 <= away <= (bound + 1) as real && !Outside(c, bound)
    requires Leads(home, away, c, Below(home, away, bound)) && bound < d.0
    ensures Leads(home, away, c, d)
  {
    hide Weight, Mode, CellWeight;
    ModeLeadsAll(home, bound, d.0);
    ModeLeadsAll(away, bound, d.1);
    BiggerCell(home, away, d, (bound + 1, Mode(away, bound)));
  }

  /** No cell beside the matrix outweighs the best one, and above its row none that weighs anything ties. */
  lemma BesideWeights(home: real, away: real, bound: nat, d: (nat, nat))
    requires 0.0 <= home && 0.0 <= away <= (bound + 1) as real && d.0 <= bound < d.1
    ensures var w, best := CellWeight(home, away, d.0, d.1), CellWeight(home, away, Mode(home, bound), bound + 1);
            w <= best && (w == best ==> Mode(home, bound) <= d.0 || w == 0.0)
  {
    hide Weight, Mode, CellWeight;
    ModeIsFirstMaximum(home, bound, d.0);
    ModeLeadsAll(away, bound, d.1);
    ModeIsPositive(home, bound);
    WeightSign(away, bound + 1);
    BiggerCell(home, away, d, (Mode(home, bound), bound + 1));
  }

  /** The neighbours weigh something as soon as their side scores at all. */
  lemma NeighbourWeights(home: real, away: real, bound: nat)
    requires 0.0 <= home && 0.0 <= away
    ensures 0.0 < home ==> 0.0 < CellWeight(home, away, bound + 1, Mode(away, bound))
    ensures home == 0.0 ==> Mode(home, bound) == 0
  {
    ModeIsPositive(away, bound);
    WeightSign(home, bound + 1);
    hide Weight;
    if 0.0 < home { MulPositive(Weight(home, bound + 1), Weight(away, Mode(away, bound))); }
  }

  /** And every column beside it: among equal weights the first mode is the first row that could tie. */
  lemma LeadsBeside(home: real, away: real, bound: nat, c: (nat, nat), d: (nat, nat))
    requires 0.0 <= home && 0.0 <= away <= (bound + 1) as real && !Outside(c, bound)
    requires Leads(home, away, c, Below(home, away, bound)) && Leads(home, away, c, Beside(home, away, bound))
    requires d.0 <= bound < d.1
    ensures Leads(home, away, c, d)
  {
    BesideWeights(home, away, bound, d);
    NeighbourWeights(home, away, bound);
    hide CellWeight, Mode;
  }

  lemma LeadsOutsideIff(top: seq<Scoreline>, home: real, away: real, bound: nat)
    requires 0.0 <= home && 0.0 <= away && 1 <= bound && |top| == 3 && IsTopScorelines(top, home, away, bound)
    ensures LeadsOutside(top, home, away, bound) <==> LeadsNeighbours(top, home, away, bound)
  {
    InsideLarger(top, home, away, bound, 2);
    hide IsTopScorelines, Mode, Outranks;
    if LeadsOutside(top, home, away, bound) {
      assert Outside(Below(home, away, bound), bound) && Outside(Beside(home, away, bound), bound);
    }
    if LeadsNeighbours(top, home, away, bound) {
      var c := CellOf(top[2]);
      LeadersCapRates(home, away, bound, c);
      hide Leads;
      forall cell | Outside(cell, bound) ensures Leads(home, away, c, cell) {
        if bound < cell.0 {
          LeadsBelow(home, away, bound, c, cell);
        } else {
          LeadsBeside(home, away, bound, c, cell);
        }
      }
    }
  }

  /** A neighbour that the last entry does not lead takes its place, or an earlier one's, in the next list. */
  lemma NeighbourMustBeLed(top: seq<Scoreline>, next: seq<Scoreline>, home: real, away: real, bound: nat,
                           cell: (nat, nat))
    requires 0.0 <= home && 0.0 <= away && 1 <= bound && |top| == |next| == 3
    requires IsTopScorelines(top, home, away, bound) && IsTopScorelines(next, home, away, bound + 1)
    requires Outside(cell, bound) && !Outside(cell, bound + 1) && Cells(top) == Cells(next)
    ensures Leads(home, away, CellOf(top[2]), cell)
  {
    InsideLarger(top, home, away, bound, 0);
    InsideLarger(top, home, away, bound, 1);
    InsideLarger(top, home, away, bound, 2);
    hide IsTopScorelines, Outranks;
    forall k | 0 <= k <= 2 ensures (next[k].home, next[k].away) != cell {
      assert Cells(top)[k] == Cells(next)[k];
    }
    LaterOutranked(next, home, away, bound + 1, 2, cell);
    assert Cells(top)[2] == Cells(next)[2];
  }

  /**
   The exact condition for the whole list. One more row and column leave it as it is if and only if its
   last entry leads the two best cells just outside, and then no larger matrix changes it either.
   */
  lemma ListIgnoresLargerBoundsIff(top: seq<Scoreline>, next: seq<Scoreline>, further: seq<Scoreline>, home: real,
                                   away: real, bound: nat, larger: nat)
    requires 0.0 <= home && 0.0 <= away && 1 <= bound <= larger && |top| == 3
    requires IsTopScorelines(top, home, away, bound) && IsTopScorelines(next, home, away, bound + 1)
    requires IsTopScorelines(further, home, away, larger)
    ensures Cells(top) == Cells(next) <==> LeadsNeighbours(top, home, away, bound)
    ensures LeadsNeighbours(top, home, away, bound) ==> Cells(top) == Cells(further)
  {
    ThreeReported(next, home, away, bound + 1);
    LeadsOutsideIff(top, home, away, bound);
    hide IsTopScorelines, Leads, Mode;
    if LeadsNeighbours(top, home, away, bound) {
      LeadingListsStay(top, next, home, away, bound, bound + 1);
      LeadingListsStay(top, further, home, away, bound, larger);
    }
    if Cells(top) == Cells(next) {
      NeighbourMustBeLed(top, next, home, away, bound, Below(home, away, bound));
      NeighbourMustBeLed(top, next, home, away, bound, Beside(home, away, bound));
    }
  }

  /*************************** A rate at the bound ***************************/

  /** With the home rate at the bound and no away goals, only two cells inside weigh as much as the next row. */
  lemma OnlyTwoWeighAsMuch(bound: nat, c: (nat, nat))
    requires 2 <= bound && !Outside(c, bound)
    requires Weight(bound as real, bound + 1) <= CellWeight(bound as real, 0.0, c.0, c.1)
    ensures c == (bound - 1, 0) || c == (bound, 0)
  {
    hide Weight;
    var rate := bound as real;
    WeightSign(rate, bound + 1);
    WeightSign(rate, bound);
    WeightSign(0.0, 0);
    WithoutAwayGoals(rate, c);
    if c.1 == 0 && c.0 < bound - 1 {
      WeightsClimb(rate, bound, c.0, bound - 2);
      WeightStep(rate, bound - 2);
      WeightStep(rate, bound - 1);
      WeightStep(rate, bound);
      TwoBelow(rate, Weight(rate, bound - 2), Weight(rate, bound - 1), Weight(rate, bound), Weight(rate, bound + 1));
    }
  }

  lemma WithoutAwayGoals(home: real, c: (nat, nat))
    ensures CellWeight(home, 0.0, c.0, c.1) == if c.1 == 0 then Weight(home, c.0) else 0.0
  {
    WeightSign(0.0, 0);
    if 0 < c.1 { NoAwayGoals(c.1); }
    hide Weight;
  }

  lemma NoAwayGoals(g: nat)
    requires 0 < g
    ensures Weight(0.0, g) == 0.0
  {
    hide Weight;
    WeightStep(0.0, g - 1);
    var w := Weight(0.0, g);
    assert g as real * w == 0.0;
    if w != 0.0 {
      WeightSign(0.0, g);
      MulPositive(g as real, w);
    }
  }

  lemma {:induction false} WeightsClimb(rate: real, bound: nat, g: nat, g': nat)
    requires g <= g' && g' + 1 < bound && rate == bound as real
    ensures Weight(rate, g) <= Weight(rate, g')
  {
    hide Weight;
    if g < g' {
      WeightsClimb(rate, bound, g, g' - 1);
      WeightRises(rate, g' - 1);
    }
  }

  lemma TwoBelow(n: real, w: real, x: real, y: real, z: real)
    requires 2.0 <= n && 0.0 < y
    requires (n - 1.0) * x == n * w && n * y == n * x && (n + 1.0) * z == n * y
    ensures w < z
  {
    CancelPositive(n, x, y);
    CancelPositive(n, y, x);
    var inverse := n * (n + 1.0);
    assert inverse * w == (n + 1.0) * ((n - 1.0) * y);
    assert inverse * z == n * (n * y);
    assert inverse * z - inverse * w == y;
    if z <= w { MulMono(z, w, inverse); }
  }

  /** So the list is not final there: the next matrix reports a cell this one does not have. */
  lemma RateAtTheBoundMovesTheList(top: seq<Scoreline>, next: seq<Scoreline>, bound: nat)
    requires 2 <= bound && IsTopScorelines(top, bound as real, 0.0, bound)
    requires IsTopScorelines(next, bound as real, 0.0, bound + 1)
    ensures Cells(top) != Cells(next)
  {
    var rate := bound as real;
    ThreeReported(top, rate, 0.0, bound);
    ListIgnoresLargerBoundsIff(top, next, top, rate, 0.0, bound, bound);
    if LeadsNeighbours(top, rate, 0.0, bound) {
      assert Mode(0.0, bound) == 0;
      hide Weight, Mode;
      WeightSign(0.0, 0);
      forall k | 0 <= k < 3
        ensures CellOf(top[k]) == (bound - 1, 0) || CellOf(top[k]) == (bound, 0)
      {
        assert k < 2 ==> Outranks(rate, 0.0, top[k].home, top[k].away, top[2].home, top[2].away);
        InsideLarger(top, rate, 0.0, bound, k);
        OnlyTwoWeighAsMuch(bound, CellOf(top[k]));
      }
      TopScorelinesDistinct(top, rate, 0.0, bound, 0, 1);
      TopScorelinesDistinct(top, rate, 0.0, bound, 0, 2);
      TopScorelinesDistinct(top, rate, 0.0, bound, 1, 2);
      assert false;
    }
  }

  /**
   The headline alone is the same for every larger bound if and only if neither rate exceeds the bound
   by more than one.
   */
  lemma HeadlineIgnoresLargerBoundsIff(home: real, away: real, bound: nat)
    requires 0.0 <= home && 0.0 <= away
    ensures (forall larger: nat | bound <= larger ::
             Mode(home, larger) == Mode(home, bound) && Mode(away, larger) == Mode(away, bound))
       <==> home <= (bound + 1) as real && away <= (bound + 1) as real
  {
    var further := bound + 1;
    assert bound <= further;
    if (bound + 1) as real < home { assert Mode(home, further) == bound + 1 != Mode(home, bound); }
    if (bound + 1) as real < away { assert Mode(away, further) == bound + 1 != Mode(away, bound); }
  }

  /**
   At MAX_GOALS, for rates up to HARMLESS_RATE: every larger matrix reports the same three scorelines
   in the same order, and before rounding each of their probabilities is within 0.0001 of what it was.
   */
  lemma ReportedScorelinesStable(top: seq<Scoreline>, next: seq<Scoreline>, home: real, away: real, larger: nat, i: nat)
    requires 0.0 <= home <= HARMLESS_RATE && 0.0 <= away <= HARMLESS_RATE && MAX_GOALS <= larger
    requires IsTopScorelines(top, home, away, MAX_GOALS) && IsTopScorelines(next, home, away, larger)
    requires i < 3
    ensures Cells(top) == Cells(next)
    ensures var e := Exactly(top[i].home, top[i].away);
            && top[i].prob == Round4(Prob(home, away, e, MAX_GOALS))
               && next[i].prob == Round4(Prob(home, away, e, larger))
            && -0.0001 < Prob(home, away, e, larger) - Prob(home, away, e, MAX_GOALS) < 0.0001
  {
    hide IsTopScorelines, Round4, Prob, Outranks;
    assert |top| == 3 && |next| == 3 by {
      ThreeReported(top, home, away, MAX_GOALS);
      ThreeReported(next, home, away, larger);
    }
    ScorelinesIgnoreLargerBounds(top, next, home, away, MAX_GOALS, larger);
    assert Cells(top)[i] == Cells(next)[i];
    ReportedIsProbability(top, home, away, MAX_GOALS, i);
    ReportedIsProbability(next, home, away, larger, i);
    TruncationHarmless(home, away, Exactly(top[i].home, top[i].away), larger);
  }

  lemma ThreeReported(top: seq<Scoreline>, home: real, away: real, bound: nat)
    requires 0.0 <= home && 0.0 <= away && 0 < bound && IsTopScorelines(top, home, away, bound)
    ensures |top| == 3
  {
  }
}
