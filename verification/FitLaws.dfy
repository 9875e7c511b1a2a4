/** What holds of every fitted model. */
module FitLaws {
  import opened RealArithmetic
  import opened MapSums
  import opened MatchHistory
  import opened PoissonFit
  import opened StrengthFitting

  /*************************** Order ***************************/

  lemma TeamsPermutation(history: seq<MatchResult>, other: seq<MatchResult>)
    requires multiset(history) == multiset(other)
    ensures Teams(history) <= Teams(other)
  {
    forall key | key in Teams(history) ensures key in Teams(other) {
      var i :| 0 <= i < |history| && (key == HomeKey(history[i]) || key == AwayKey(history[i]));
      assert history[i] in multiset(other);
      var j :| 0 <= j < |other| && other[j] == history[i];
    }
  }

  /** The fitted model does not depend on the order of the history. */
  lemma OrderIndependent(decay: Decay, history: seq<MatchResult>, other: seq<MatchResult>)
    requires multiset(history) == multiset(other)
    ensures FittedModel(decay, history) == FittedModel(decay, other)
  {
    hide Sum, Shrink, Teams;
    SumPermutation(decay, history, other, One);
    SumPermutation(decay, history, other, HomeGoals);
    SumPermutation(decay, history, other, AwayGoals);
    TeamsPermutation(history, other);
    TeamsPermutation(other, history);
    if 0.0 < Sum(decay, history, One) {
      var rates := RatesOf(decay, history);
      forall t: Tally, key ensures TallyOf(decay, history, t, rates, key) == TallyOf(decay, other, t, rates, key) {
        SumPermutation(decay, history, other, CreditTo(t, rates, key));
      }
      hide TallyOf;
      forall key
        ensures Attack(decay, history, key) == Attack(decay, other, key)
        ensures Defence(decay, history, key) == Defence(decay, other, key)
      {
      }
    }
  }

  /*************************** Conservation ***************************/

  lemma {:induction false} SumCombination(decay: Decay, history: seq<MatchResult>, f: Measure, a: real, g: Measure,
                                          b: real, h: Measure)
    requires forall m :: f.Of(m) == a * g.Of(m) + b * h.Of(m)
    ensures Sum(decay, history, f) == a * Sum(decay, history, g) + b * Sum(decay, history, h)
  {
    hide Sum, Term, Measure.Of;
    SumStep(decay, history, f);
    SumStep(decay, history, g);
    SumStep(decay, history, h);
    if history != [] {
      var n := |history| - 1;
      SumCombination(decay, history[..n], f, a, g, b, h);
      TermCombination(decay, history[n], f, a, g, b, h);
      Distribute(a, Sum(decay, history[..n], g), Term(decay, history[n], g));
      Distribute(b, Sum(decay, history[..n], h), Term(decay, history[n], h));
    }
  }

  lemma TermCombination(decay: Decay, m: MatchResult, f: Measure, a: real, g: Measure, b: real, h: Measure)
    requires f.Of(m) == a * g.Of(m) + b * h.Of(m)
    ensures Term(decay, m, f) == a * Term(decay, m, g) + b * Term(decay, m, h)
  {
    hide Decay.Weight, Measure.Of;
    var w, x, y := decay.Weight(m), g.Of(m), h.Of(m);
    assert w * (a * x + b * y) == a * (w * x) + b * (w * y);
  }

  /** The five dictionaries of one fit, as declared per team. */
  function TallyMap(decay: Decay, history: seq<MatchResult>, t: Tally, rates: LeagueRates): map<Key, real> {
    map key | key in Teams(history) :: TallyOf(decay, history, t, rates, key)
  }

  lemma TallyMapTotal(decay: Decay, history: seq<MatchResult>, t: Tally, rates: LeagueRates)
    ensures MapSum(TallyMap(decay, history, t, rates)) == Sum(decay, history, CreditBoth(t, rates))
  {
    AccumulatedAt(decay, history, t, rates);
    AccumulatedTotal(decay, history, t, rates);
    hide Accumulated, TallyOf, Teams;
    assert TallyMap(decay, history, t, rates) == Accumulated(decay, history, t, rates);
  }

  /**
   Goals and baselines balance over the league: everything scored is conceded, the average side is
   expected to score and concede exactly what was scored, and every match counts for two teams.
   */
  lemma GoalsBalance(decay: Decay, history: seq<MatchResult>)
    requires 0.0 < Sum(decay, history, One)
    ensures var rates, total := RatesOf(decay, history), Sum(decay, history, One);
            && MapSum(TallyMap(decay, history, Scored, rates)) == MapSum(TallyMap(decay, history, Conceded, rates))
               == total * (rates.home + rates.away)
            && MapSum(TallyMap(decay, history, ScoredBaseline, rates)) == total * (rates.home + rates.away)
            && MapSum(TallyMap(decay, history, ConcededBaseline, rates)) == total * (rates.home + rates.away)
            && MapSum(TallyMap(decay, history, Sample, rates)) == 2.0 * total
  {
    hide Sum, TallyMap, MapSum;
    var rates, total := RatesOf(decay, history), Sum(decay, history, One);
    var home, away := Sum(decay, history, HomeGoals), Sum(decay, history, AwayGoals);
    TallyTotal(decay, history, Scored, rates);
    TallyTotal(decay, history, Conceded, rates);
    TallyTotal(decay, history, ScoredBaseline, rates);
    TallyTotal(decay, history, ConcededBaseline, rates);
    TallyTotal(decay, history, Sample, rates);
    RateTimesTotal(home, away, total);
  }

  lemma TallyTotal(decay: Decay, history: seq<MatchResult>, t: Tally, rates: LeagueRates)
    ensures MapSum(TallyMap(decay, history, t, rates))
         == CreditTotal(t, rates, Sum(decay, history, One), Sum(decay, history, HomeGoals),
                        Sum(decay, history, AwayGoals))
  {
    TallyMapTotal(decay, history, t, rates);
    BothSum(decay, history, t, rates);
  }

  function CreditTotal(t: Tally, rates: LeagueRates, total: real, home: real, away: real): real {
    match t
    case Scored => home + away
    case Conceded => home + away
    case ScoredBaseline => total * (rates.home + rates.away)
    case ConcededBaseline => total * (rates.home + rates.away)
    case Sample => 2.0 * total
  }

  lemma BothSum(decay: Decay, history: seq<MatchResult>, t: Tally, rates: LeagueRates)
    ensures Sum(decay, history, CreditBoth(t, rates))
         == CreditTotal(t, rates, Sum(decay, history, One), Sum(decay, history, HomeGoals),
                        Sum(decay, history, AwayGoals))
  {
    hide Sum;
    match t
    case Scored => SumCombination(decay, history, CreditBoth(t, rates), 1.0, HomeGoals, 1.0, AwayGoals);
    case Conceded => SumCombination(decay, history, CreditBoth(t, rates), 1.0, HomeGoals, 1.0, AwayGoals);
    case ScoredBaseline => SumCombination(decay, history, CreditBoth(t, rates), rates.home + rates.away, One, 0.0, One);
    case ConcededBaseline =>
      SumCombination(decay, history, CreditBoth(t, rates), rates.home + rates.away, One, 0.0, One);
    case Sample => SumCombination(decay, history, CreditBoth(t, rates), 2.0, One, 0.0, One);
  }

  lemma RateTimesTotal(x: real, y: real, total: real)
    requires 0.0 < total
    ensures total * (x / total + y / total) == x + y
  {
    var a, b := x / total, y / total;
    assert x == a * total && y == b * total;
  }

  /*************************** The guard ***************************/

  lemma RatesSign(decay: Decay, history: seq<MatchResult>)
    requires decay.NonNegative() && 0.0 < Sum(decay, history, One)
    ensures 0.0 <= RatesOf(decay, history).home && 0.0 <= RatesOf(decay, history).away
    ensures RatesOf(decay, history).home == 0.0 <==> Sum(decay, history, HomeGoals) == 0.0
    ensures RatesOf(decay, history).away == 0.0 <==> Sum(decay, history, AwayGoals) == 0.0
  {
    SumSign(decay, history, HomeGoals);
    SumSign(decay, history, AwayGoals);
    hide Sum;
    QuotientSign(Sum(decay, history, HomeGoals), Sum(decay, history, One));
    QuotientSign(Sum(decay, history, AwayGoals), Sum(decay, history, One));
  }

  lemma QuotientSign(x: real, t: real)
    requires 0.0 <= x && 0.0 < t
    ensures 0.0 <= x / t
    ensures x / t == 0.0 <==> x == 0.0
  {
    CrossMultiply(0.0, 1.0, x, t);
  }

  lemma TallySign(decay: Decay, history: seq<MatchResult>, t: Tally, rates: LeagueRates, key: Key)
    requires decay.NonNegative() && 0.0 <= rates.home && 0.0 <= rates.away
    ensures 0.0 <= TallyOf(decay, history, t, rates, key)
  {
    SumSign(decay, history, CreditTo(t, rates, key));
  }

  lemma CreditZero(w: real, x: real, y: real, x': real, y': real, home: bool, away: bool)
    requires 0.0 <= w && 0.0 <= x && 0.0 <= y
    requires w * ((if home then x else 0.0) + (if away then y else 0.0)) == 0.0
    requires x == 0.0 ==> w * x' == 0.0
    requires y == 0.0 ==> w * y' == 0.0
    ensures w * ((if home then x' else 0.0) + (if away then y' else 0.0)) == 0.0
  {
    SplitCredit(w, x, y, home, away);
    SplitCredit(w, x', y', home, away);
    MulNonNegative(w, x);
    MulNonNegative(w, y);
    if home && w != 0.0 { assert w * x == 0.0; }
    if away && w != 0.0 { assert w * y == 0.0; }
  }

  lemma TermOfCredit(decay: Decay, m: MatchResult, t: Tally, rates: LeagueRates, key: Key)
    ensures Term(decay, m, CreditTo(t, rates, key))
         == decay.Weight(m) * ((if key == HomeKey(m) then t.HomeCredit(rates, m) else 0.0)
                               + (if key == AwayKey(m) then t.AwayCredit(rates, m) else 0.0))
  {
    hide Decay.Weight;
  }

  /** A goal only weighs in a league whose rate for that end of the pitch is positive. */
  lemma GoalsNeedRates(decay: Decay, history: seq<MatchResult>, i: nat)
    requires decay.NonNegative() && 0.0 < Sum(decay, history, One) && i < |history|
    ensures RatesOf(decay, history).home == 0.0 ==> decay.Weight(history[i]) * history[i].homeGoals as real == 0.0
    ensures RatesOf(decay, history).away == 0.0 ==> decay.Weight(history[i]) * history[i].awayGoals as real == 0.0
  {
    hide Sum, RatesOf;
    RatesSign(decay, history);
    if RatesOf(decay, history).home == 0.0 { TermZero(decay, history, HomeGoals, i); }
    if RatesOf(decay, history).away == 0.0 { TermZero(decay, history, AwayGoals, i); }
    hide Decay.Weight;
  }

  lemma TermZero(decay: Decay, history: seq<MatchResult>, f: Measure, i: nat)
    requires decay.NonNegative() && f.NonNegative() && Sum(decay, history, f) == 0.0 && i < |history|
    ensures decay.Weight(history[i]) * f.Of(history[i]) == 0.0
  {
    hide Sum, Decay.Weight, Measure.Of;
    SumZero(decay, history, f);
    assert Term(decay, history[i], f) == 0.0;
  }

  lemma MatchCreditZero(decay: Decay, history: seq<MatchResult>, i: nat, key: Key)
    requires decay.NonNegative() && 0.0 < Sum(decay, history, One) && i < |history|
    ensures var rates := RatesOf(decay, history);
            && (Term(decay, history[i], CreditTo(ScoredBaseline, rates, key)) == 0.0
                ==> Term(decay, history[i], CreditTo(Scored, rates, key)) == 0.0)
            && (Term(decay, history[i], CreditTo(ConcededBaseline, rates, key)) == 0.0
                ==> Term(decay, history[i], CreditTo(Conceded, rates, key)) == 0.0)
  {
    hide Sum, RatesOf, Decay.Weight, Term, HomeKey, AwayKey;
    var rates := RatesOf(decay, history);
    var m := history[i];
    RatesSign(decay, history);
    WeightSign(decay, m);
    GoalsNeedRates(decay, history, i);
    TermOfCredit(decay, m, ScoredBaseline, rates, key);
    TermOfCredit(decay, m, ConcededBaseline, rates, key);
    TermOfCredit(decay, m, Scored, rates, key);
    TermOfCredit(decay, m, Conceded, rates, key);
    var w, h, a := decay.Weight(m), m.homeGoals as real, m.awayGoals as real;
    if Term(decay, m, CreditTo(ScoredBaseline, rates, key)) == 0.0 {
      CreditZero(w, rates.home, rates.away, h, a, key == HomeKey(m), key == AwayKey(m));
    }
    if Term(decay, m, CreditTo(ConcededBaseline, rates, key)) == 0.0 {
      CreditZero(w, rates.away, rates.home, a, h, key == HomeKey(m), key == AwayKey(m));
    }
  }

  /** A team whose baseline is zero has scored (conceded) nothing, so the guard in `_shrink` discards nothing. */
  lemma GuardDiscardsNothing(decay: Decay, history: seq<MatchResult>, key: Key)
    requires decay.NonNegative() && 0.0 < Sum(decay, history, One)
    ensures var rates := RatesOf(decay, history);
            && (TallyOf(decay, history, ScoredBaseline, rates, key) <= 0.0
                ==> TallyOf(decay, history, Scored, rates, key) == 0.0)
            && (TallyOf(decay, history, ConcededBaseline, rates, key) <= 0.0
                ==> TallyOf(decay, history, Conceded, rates, key) == 0.0)
  {
    var rates := RatesOf(decay, history);
    RatesSign(decay, history);
    forall t: Tally
      ensures 0.0 <= TallyOf(decay, history, t, rates, key)
      ensures TallyOf(decay, history, t, rates, key) == 0.0
         <==> forall i | 0 <= i < |history| :: Term(decay, history[i], CreditTo(t, rates, key)) == 0.0
    {
      TallySign(decay, history, t, rates, key);
      SumZero(decay, history, CreditTo(t, rates, key));
    }
    forall i: nat | i < |history|
      ensures Term(decay, history[i], CreditTo(ScoredBaseline, rates, key)) == 0.0
              ==> Term(decay, history[i], CreditTo(Scored, rates, key)) == 0.0
      ensures Term(decay, history[i], CreditTo(ConcededBaseline, rates, key)) == 0.0
              ==> Term(decay, history[i], CreditTo(Conceded, rates, key)) == 0.0
    {
      MatchCreditZero(decay, history, i, key);
    }
  }

  /*************************** Shrinkage ***************************/

  /** x lies between 1 and y. */
  predicate BetweenOneAnd(x: real, y: real) {
    1.0 <= x <= y || y <= x <= 1.0
  }

  /** A strength never leaves the interval between league average and its own record. */
  lemma ShrinkBetween(observed: real, expected: real, sample: real)
    requires 0.0 < expected && 0.0 < sample
    ensures BetweenOneAnd(Shrink(observed, expected, sample), observed / expected)
  {
    var c, ratio := sample / (sample + MIN_SAMPLE), observed / expected;
    CrossMultiply(0.0, 1.0, sample, sample + MIN_SAMPLE);
    CrossMultiply(sample, sample + MIN_SAMPLE, 1.0, 1.0);
    Blend(c, ratio);
  }

  lemma Blend(c: real, ratio: real)
    requires 0.0 <= c <= 1.0
    ensures c * ratio + (1.0 - c) * 1.0 == 1.0 + c * (ratio - 1.0)
    ensures BetweenOneAnd(1.0 + c * (ratio - 1.0), ratio)
  {
    if 1.0 <= ratio {
      MulMono(c, 1.0, ratio - 1.0);
      MulNonNegative(c, ratio - 1.0);
    } else {
      MulMono(c, 1.0, 1.0 - ratio);
      MulNonNegative(c, 1.0 - ratio);
      assert c * (ratio - 1.0) == -(c * (1.0 - ratio));
    }
  }

  lemma ShrinkSign(observed: real, expected: real, sample: real)
    requires 0.0 <= observed
    ensures 0.0 <= Shrink(observed, expected, sample)
  {
    if 0.0 < expected && 0.0 < sample {
      ShrinkBetween(observed, expected, sample);
      CrossMultiply(0.0, 1.0, observed, expected);
    }
  }

  /** Scaling all the evidence down moves the strength toward 1 without crossing it. */
  lemma ShrinkFades(c: real, observed: real, expected: real, sample: real)
    requires 0.0 < c <= 1.0
    ensures BetweenOneAnd(Shrink(c * observed, c * expected, c * sample), Shrink(observed, expected, sample))
  {
    hide Shrink, BetweenOneAnd;
    if 0.0 < expected && 0.0 < sample {
      ShrinkFadesWithEvidence(c, observed, expected, sample);
    } else {
      ShrinkGuard(observed, expected, sample);
      ScaledGuard(c, expected, sample);
      ShrinkGuard(c * observed, c * expected, c * sample);
      BetweenItself(1.0);
    }
  }

  lemma BetweenItself(x: real)
    ensures BetweenOneAnd(1.0, x)
  {
  }

  lemma ScaledGuard(c: real, expected: real, sample: real)
    requires 0.0 < c && (expected <= 0.0 || sample <= 0.0)
    ensures c * expected <= 0.0 || c * sample <= 0.0
  {
    if expected <= 0.0 { MulMono(expected, 0.0, c); } else { MulMono(sample, 0.0, c); }
  }

  lemma ShrinkFadesWithEvidence(c: real, observed: real, expected: real, sample: real)
    requires 0.0 < c <= 1.0 && 0.0 < expected && 0.0 < sample
    ensures BetweenOneAnd(Shrink(c * observed, c * expected, c * sample), Shrink(observed, expected, sample))
  {
    hide Shrink, BetweenOneAnd;
    MulPositive(c, expected);
    MulPositive(c, sample);
    CancelFactor(c, observed, expected);
    ConfidenceFades(c, sample);
    var ratio := observed / expected;
    var before, after := sample / (sample + MIN_SAMPLE), (c * sample) / (c * sample + MIN_SAMPLE);
    ShrinkUnfold(observed, expected, sample, ratio, before);
    ShrinkUnfold(c * observed, c * expected, c * sample, ratio, after);
    ScaleBlend(after, before, ratio);
  }

  lemma ShrinkGuard(observed: real, expected: real, sample: real)
    requires expected <= 0.0 || sample <= 0.0
    ensures Shrink(observed, expected, sample) == 1.0
  {
  }

  lemma ShrinkUnfold(observed: real, expected: real, sample: real, ratio: real, confidence: real)
    requires 0.0 < expected && 0.0 < sample && ratio == observed / expected
             && confidence == sample / (sample + MIN_SAMPLE)
    ensures Shrink(observed, expected, sample) == 1.0 + confidence * (ratio - 1.0)
  {
    assert confidence * ratio + (1.0 - confidence) * 1.0 == 1.0 + confidence * (ratio - 1.0);
  }

  lemma ConfidenceFades(c: real, sample: real)
    requires 0.0 < c <= 1.0 && 0.0 < sample
    ensures 0.0 <= (c * sample) / (c * sample + MIN_SAMPLE) <= sample / (sample + MIN_SAMPLE)
  {
    var s := c * sample;
    MulPositive(c, sample);
    MulMono(c, 1.0, sample);
    CrossMultiply(0.0, 1.0, s, s + MIN_SAMPLE);
    assert s * (sample + MIN_SAMPLE) == s * sample + s * MIN_SAMPLE;
    assert sample * (s + MIN_SAMPLE) == s * sample + sample * MIN_SAMPLE;
    CrossMultiply(s, s + MIN_SAMPLE, sample, sample + MIN_SAMPLE);
  }

  lemma ScaleBlend(c: real, d: real, ratio: real)
    requires 0.0 <= c <= d
    ensures BetweenOneAnd(1.0 + c * (ratio - 1.0), 1.0 + d * (ratio - 1.0))
  {
    if 1.0 <= ratio {
      MulMono(c, d, ratio - 1.0);
      MulNonNegative(c, ratio - 1.0);
    } else {
      MulMono(c, d, 1.0 - ratio);
      MulNonNegative(c, 1.0 - ratio);
      assert c * (ratio - 1.0) == -(c * (1.0 - ratio));
      assert d * (ratio - 1.0) == -(d * (1.0 - ratio));
    }
  }

  /*************************** Ageing ***************************/

  lemma {:induction false} HalvingAtNaturals(decay: Decay, n: nat)
    requires decay.IsHalving()
    ensures 0.0 < decay.halving(n as real)
  {
    if n > 0 {
      HalvingAtNaturals(decay, n - 1);
      assert n as real == (n - 1) as real + 1.0;
    }
  }

  /** No match ever loses its whole weight. */
  lemma HalvingPositive(decay: Decay, x: real)
    requires decay.IsHalving() && 0.0 <= x
    ensures 0.0 < decay.halving(x)
  {
    var n := x.Floor + 1;
    HalvingAtNaturals(decay, n);
    var rest := n as real - x;
    assert decay.halving(x + rest) == decay.halving(x) * decay.halving(rest);
  }

  /** Half-lives between two dates. */
  function Wait(date: int, later: int): real {
    (later - date) as real / SECONDS_PER_DAY / HALF_LIFE_DAYS
  }

  lemma HalvingSum(decay: Decay, x: real, y: real)
    requires decay.IsHalving() && 0.0 <= x && 0.0 <= y
    ensures decay.halving(x + y) == decay.halving(x) * decay.halving(y)
    ensures decay.halving(x) <= 1.0
  {
  }

  lemma HalvingUnits(decay: Decay)
    requires decay.IsHalving()
    ensures decay.halving(0.0) == 1.0 && decay.halving(1.0) == 0.5
  {
  }

  /**
   If waiting x costs nothing, neither does waiting x any number of times, so some wait of 1 or more
   costs nothing.
   */
  lemma {:induction false} FreeWait(decay: Decay, x: real, n: nat) returns (y: real)
    requires decay.IsHalving() && 0.0 < x && decay.halving(x) == 1.0
    ensures decay.halving(y) == 1.0 && y == n as real * x && 0.0 <= y
  {
    hide Decay.IsHalving;
    if n == 0 {
      HalvingUnits(decay);
      y := 0.0;
    } else {
      var before := FreeWait(decay, x, n - 1);
      HalvingSum(decay, before, x);
      y := before + x;
      assert y == n as real * x by { assert n as real == (n - 1) as real + 1.0; }
    }
  }

  /** Any positive age costs weight. */
  lemma HalvingBelowOne(decay: Decay, x: real)
    requires decay.IsHalving() && 0.0 < x
    ensures decay.halving(x) < 1.0
  {
    hide Decay.IsHalving;
    HalvingSum(decay, x, 0.0);
    if decay.halving(x) == 1.0 {
      var n := (1.0 / x).Floor + 1;
      assert 1.0 / x <= n as real;
      var y := FreeWait(decay, x, n);
      PastOne(x, n as real, y);
      HalvingUnits(decay);
      HalvingSum(decay, 1.0, y - 1.0);
      HalvingSum(decay, y - 1.0, 0.0);
      assert false;
    }
  }

  lemma PastOne(x: real, n: real, y: real)
    requires 0.0 < x && 1.0 / x <= n && y == n * x
    ensures 1.0 <= y
  {
    var inverse := 1.0 / x;
    MulMono(inverse, n, x);
    assert inverse * x == 1.0;
  }

  /** The date from which a match ages while the anchor moves from asOf to later. */
  function Clamp(date: int, asOf: int, later: int): int {
    if date <= asOf then asOf else if later <= date then later else date
  }

  /** What a match's weight is multiplied by while the anchor moves. */
  function Kept(decay: Decay, later: int, date: int): real {
    decay.halving(Wait(Clamp(date, decay.asOf, later), later))
  }

  lemma WeightKept(decay: Decay, later: int, m: MatchResult)
    requires decay.IsHalving() && decay.asOf <= later
    ensures decay.(asOf := later).Weight(m) == Kept(decay, later, m.utcDate) * decay.Weight(m)
    ensures 0.0 < decay.Weight(m) && 0.0 < Kept(decay, later, m.utcDate) <= 1.0
  {
    hide Decay.IsHalving;
    var x, y := Wait(Clamp(m.utcDate, decay.asOf, later), later), decay.AgeDays(m.utcDate) / HALF_LIFE_DAYS;
    assert decay.(asOf := later).AgeDays(m.utcDate) / HALF_LIFE_DAYS == x + y;
    HalvingSum(decay, x, y);
    HalvingPositive(decay, x);
    HalvingPositive(decay, y);
  }

  lemma HalvingStrict(decay: Decay, x: real, y: real)
    requires decay.IsHalving() && 0.0 <= x < y
    ensures decay.halving(y) < decay.halving(x)
  {
    hide Decay.IsHalving;
    HalvingSum(decay, x, y - x);
    HalvingBelowOne(decay, y - x);
    HalvingPositive(decay, x);
    StrictlyLess(decay.halving(x), decay.halving(y - x));
    assert x + (y - x) == y;
  }

  lemma WaitFalls(date: int, other: int, later: int)
    requires date < other <= later
    ensures 0.0 <= Wait(other, later) < Wait(date, later)
  {
  }

  /** The later a match starts to age, the more of its weight it keeps. */
  lemma KeptStrictlyRises(decay: Decay, later: int, date: int, other: int)
    requires decay.IsHalving() && decay.asOf <= later
    requires Clamp(date, decay.asOf, later) < Clamp(other, decay.asOf, later)
    ensures Kept(decay, later, date) < Kept(decay, later, other)
  {
    var d, e := Clamp(date, decay.asOf, later), Clamp(other, decay.asOf, later);
    assert e <= later;
    hide Decay.IsHalving, Wait, Clamp;
    WaitFalls(d, e, later);
    HalvingStrict(decay, Wait(e, later), Wait(d, later));
  }

  lemma StrictlyLess(p: real, q: real)
    requires 0.0 < p && q < 1.0
    ensures p * q < p
  {
    assert 0.0 < p * (1.0 - q);
  }

  /** Moving the anchor multiplies every weight of the history by c. */
  ghost predicate AgesBy(decay: Decay, later: int, history: seq<MatchResult>, c: real) {
    forall i | 0 <= i < |history| :: decay.(asOf := later).Weight(history[i]) == c * decay.Weight(history[i])
  }

  /** Every match of the history starts to age at the same moment of the move. */
  ghost predicate SameClamp(asOf: int, later: int, history: seq<MatchResult>) {
    forall i, j | 0 <= i < |history| && 0 <= j < |history| ::
      Clamp(history[i].utcDate, asOf, later) == Clamp(history[j].utcDate, asOf, later)
  }

  /**
   Moving the anchor scales all weights by one common factor if and only if all dates agree once
   limited to the stretch it moved over: all played before it, all still ahead after it, or all at once.
   */
  lemma WeightsAgeTogetherIff(decay: Decay, later: int, history: seq<MatchResult>)
    requires decay.IsHalving() && decay.asOf <= later
    ensures (exists c :: AgesBy(decay, later, history, c)) <==> SameClamp(decay.asOf, later, history)
  {
    hide Decay.IsHalving, Decay.Weight, Kept, Clamp;
    forall i | 0 <= i < |history|
      ensures decay.(asOf := later).Weight(history[i])
              == Kept(decay, later, history[i].utcDate) * decay.Weight(history[i])
      ensures 0.0 < decay.Weight(history[i])
    {
      WeightKept(decay, later, history[i]);
    }
    if c :| AgesBy(decay, later, history, c) {
      forall i, j | 0 <= i < |history| && 0 <= j < |history|
        ensures Clamp(history[i].utcDate, decay.asOf, later) == Clamp(history[j].utcDate, decay.asOf, later)
      {
        SameFactor(decay.Weight(history[i]), c, Kept(decay, later, history[i].utcDate));
        SameFactor(decay.Weight(history[j]), c, Kept(decay, later, history[j].utcDate));
        SameKeptSameClamp(decay, later, history[i].utcDate, history[j].utcDate);
      }
    }
    if SameClamp(decay.asOf, later, history) {
      var c := if history == [] then 1.0 else Kept(decay, later, history[0].utcDate);
      forall i | 0 <= i < |history| ensures Kept(decay, later, history[i].utcDate) == c {
        SameClampSameKept(decay, later, history[i].utcDate, history[0].utcDate);
      }
      assert AgesBy(decay, later, history, c);
    }
  }

  lemma SameFactor(w: real, c: real, k: real)
    requires 0.0 < w && c * w == k * w
    ensures c == k
  {
    CancelPositive(w, c, k);
    CancelPositive(w, k, c);
  }

  lemma SameKeptSameClamp(decay: Decay, later: int, date: int, other: int)
    requires decay.IsHalving() && decay.asOf <= later
    ensures Kept(decay, later, date) == Kept(decay, later, other)
            ==> Clamp(date, decay.asOf, later) == Clamp(other, decay.asOf, later)
  {
    hide Decay.IsHalving, Kept, Clamp;
    if Clamp(date, decay.asOf, later) < Clamp(other, decay.asOf, later) {
      KeptStrictlyRises(decay, later, date, other);
    } else if Clamp(other, decay.asOf, later) < Clamp(date, decay.asOf, later) {
      KeptStrictlyRises(decay, later, other, date);
    }
  }

  lemma SameClampSameKept(decay: Decay, later: int, date: int, other: int)
    requires Clamp(date, decay.asOf, later) == Clamp(other, decay.asOf, later)
    ensures Kept(decay, later, date) == Kept(decay, later, other)
  {
  }

  /** That factor is the one for the whole move if and only if no match lies after the old anchor. */
  lemma WeightsAgeInFullIff(decay: Decay, later: int, history: seq<MatchResult>)
    requires decay.IsHalving() && decay.asOf < later
    ensures AgesBy(decay, later, history, decay.halving(Wait(decay.asOf, later)))
       <==> forall i | 0 <= i < |history| :: history[i].utcDate <= decay.asOf
  {
    hide Decay.IsHalving, Decay.Weight;
    var c := decay.halving(Wait(decay.asOf, later));
    forall i | 0 <= i < |history|
      ensures decay.(asOf := later).Weight(history[i]) == c * decay.Weight(history[i])
              <==> history[i].utcDate <= decay.asOf
    {
      WeightKept(decay, later, history[i]);
      if decay.asOf < history[i].utcDate {
        KeptStrictlyRises(decay, later, decay.asOf, history[i].utcDate);
        MulStrict(c, Kept(decay, later, history[i].utcDate), decay.Weight(history[i]));
      }
    }
  }

  lemma MulStrict(a: real, b: real, w: real)
    requires a < b && 0.0 < w
    ensures a * w < b * w
  {
    assert 0.0 < (b - a) * w;
  }

  /** Same league rates, same teams, and every strength between 1 and what it was. */
  ghost predicate Faded(before: Model, after: Model) {
    && after.rates == before.rates
    && after.attack.Keys == before.attack.Keys && after.defence.Keys == before.defence.Keys
    && (forall key | key in before.attack :: BetweenOneAnd(after.attack[key], before.attack[key]))
    && (forall key | key in before.defence :: BetweenOneAnd(after.defence[key], before.defence[key]))
  }

  /**
   Letting the anchor move on while all dates stay on one side of it: both league rates stay put and
   every strength drifts toward 1 without crossing it.
   */
  lemma AgeingFades(decay: Decay, later: int, history: seq<MatchResult>)
    requires decay.IsHalving() && decay.asOf <= later && SameClamp(decay.asOf, later, history)
    ensures Faded(FittedModel(decay, history), FittedModel(decay.(asOf := later), history))
  {
    hide Decay.IsHalving, Decay.Weight, FittedModel, Kept, Clamp, Faded;
    var c := if history == [] then 1.0 else Kept(decay, later, history[0].utcDate);
    if history != [] { WeightKept(decay, later, history[0]); }
    forall i | 0 <= i < |history| ensures decay.(asOf := later).Weight(history[i]) == c * decay.Weight(history[i])
    {
      WeightKept(decay, later, history[i]);
      SameClampSameKept(decay, later, history[i].utcDate, history[0].utcDate);
    }
    ScalingFades(decay, decay.(asOf := later), c, history);
  }

  /** One half-life in seconds. */
  const HALF_LIFE: int := 15768000

  /**
   The condition cannot be dropped: with one match behind and one ahead of both anchors, a
   half-life of waiting moves the home rate from a half to a third.
   */
  lemma AMatchAheadMovesTheRates(decay: Decay)
    requires decay.IsHalving()
    ensures var history := [MatchResult(1, 1, decay.asOf, 1, 2, 1, 0),
                            MatchResult(2, 1, decay.asOf + 2 * HALF_LIFE, 1, 2, 0, 0)];
            var aged := decay.(asOf := decay.asOf + HALF_LIFE);
            && FittedModel(decay, history).rates.home == 1.0 / 2.0
            && FittedModel(aged, history).rates.home == 1.0 / 3.0
            && !Faded(FittedModel(decay, history), FittedModel(aged, history))
  {
    var played := MatchResult(1, 1, decay.asOf, 1, 2, 1, 0);
    var ahead := MatchResult(2, 1, decay.asOf + 2 * HALF_LIFE, 1, 2, 0, 0);
    var aged := decay.(asOf := decay.asOf + HALF_LIFE);
    assert decay.Weight(played) == 1.0 && decay.Weight(ahead) == 1.0;
    assert aged.AgeDays(played.utcDate) / HALF_LIFE_DAYS == 1.0;
    assert aged.Weight(played) == 0.5 && aged.Weight(ahead) == 1.0;
    hide Decay.Weight, Attack, Defence;
    TwoMatchSums(decay, played, ahead);
    TwoMatchSums(aged, played, ahead);
  }

  lemma TwoMatchSums(decay: Decay, m: MatchResult, other: MatchResult)
    ensures Sum(decay, [m, other], One) == decay.Weight(m) + decay.Weight(other)
    ensures Sum(decay, [m, other], HomeGoals)
            == decay.Weight(m) * m.homeGoals as real + decay.Weight(other) * other.homeGoals as real
  {
    hide Decay.Weight;
    assert [] + [m] == [m] && [m] + [other] == [m, other];
    SumAppend(decay, [], m, One);
    SumAppend(decay, [m], other, One);
    SumAppend(decay, [], m, HomeGoals);
    SumAppend(decay, [m], other, HomeGoals);
  }

  lemma ScaledTotal(decay: Decay, aged: Decay, c: real, history: seq<MatchResult>)
    requires 0.0 < c && forall i | 0 <= i < |history| :: aged.Weight(history[i]) == c * decay.Weight(history[i])
    ensures 0.0 < Sum(aged, history, One) <==> 0.0 < Sum(decay, history, One)
    ensures 0.0 < Sum(decay, history, One) ==> RatesOf(aged, history) == RatesOf(decay, history)
  {
    hide Sum, Decay.Weight;
    SumScales(decay, aged, c, history, One);
    SumScales(decay, aged, c, history, HomeGoals);
    SumScales(decay, aged, c, history, AwayGoals);
    var total := Sum(decay, history, One);
    if 0.0 < total {
      MulPositive(c, total);
      CancelFactor(c, Sum(decay, history, HomeGoals), total);
      CancelFactor(c, Sum(decay, history, AwayGoals), total);
    } else {
      MulMono(total, 0.0, c);
    }
  }

  lemma ScaledStrengths(decay: Decay, aged: Decay, c: real, history: seq<MatchResult>, key: Key)
    requires 0.0 < c <= 1.0 && forall i | 0 <= i < |history| :: aged.Weight(history[i]) == c * decay.Weight(history[i])
    requires 0.0 < Sum(decay, history, One) && 0.0 < Sum(aged, history, One)
    ensures BetweenOneAnd(Attack(aged, history, key), Attack(decay, history, key))
    ensures BetweenOneAnd(Defence(aged, history, key), Defence(decay, history, key))
  {
    hide Sum, Decay.Weight, Shrink, BetweenOneAnd, RatesOf;
    ScaledTotal(decay, aged, c, history);
    var rates := RatesOf(decay, history);
    assert RatesOf(aged, history) == rates;
    ScaledTallies(decay, aged, c, history, rates, key);
    hide TallyOf;
    ScaledShrink(c, TallyOf(decay, history, Scored, rates, key), TallyOf(decay, history, ScoredBaseline, rates, key),
                 TallyOf(decay, history, Sample, rates, key),
                 TallyOf(aged, history, Scored, rates, key), TallyOf(aged, history, ScoredBaseline, rates, key),
                 TallyOf(aged, history, Sample, rates, key));
    ScaledShrink(c, TallyOf(decay, history, Conceded, rates, key),
                 TallyOf(decay, history, ConcededBaseline, rates, key), TallyOf(decay, history, Sample, rates, key),
                 TallyOf(aged, history, Conceded, rates, key), TallyOf(aged, history, ConcededBaseline, rates, key),
                 TallyOf(aged, history, Sample, rates, key));
  }

  lemma ScaledShrink(c: real, observed: real, expected: real, sample: real, observed': real, expected': real,
                     sample': real)
    requires 0.0 < c <= 1.0 && observed' == c * observed && expected' == c * expected && sample' == c * sample
    ensures BetweenOneAnd(Shrink(observed', expected', sample'), Shrink(observed, expected, sample))
  {
    ShrinkFades(c, observed, expected, sample);
  }

  lemma ScaledTallies(decay: Decay, aged: Decay, c: real, history: seq<MatchResult>, rates: LeagueRates, key: Key)
    requires forall i | 0 <= i < |history| :: aged.Weight(history[i]) == c * decay.Weight(history[i])
    ensures TallyOf(aged, history, Scored, rates, key) == c * TallyOf(decay, history, Scored, rates, key)
    ensures TallyOf(aged, history, Conceded, rates, key) == c * TallyOf(decay, history, Conceded, rates, key)
    ensures TallyOf(aged, history, ScoredBaseline, rates, key)
            == c * TallyOf(decay, history, ScoredBaseline, rates, key)
    ensures TallyOf(aged, history, ConcededBaseline, rates, key)
            == c * TallyOf(decay, history, ConcededBaseline, rates, key)
    ensures TallyOf(aged, history, Sample, rates, key) == c * TallyOf(decay, history, Sample, rates, key)
  {
    hide Sum, Decay.Weight;
    SumScales(decay, aged, c, history, CreditTo(Scored, rates, key));
    SumScales(decay, aged, c, history, CreditTo(Conceded, rates, key));
    SumScales(decay, aged, c, history, CreditTo(ScoredBaseline, rates, key));
    SumScales(decay, aged, c, history, CreditTo(ConcededBaseline, rates, key));
    SumScales(decay, aged, c, history, CreditTo(Sample, rates, key));
  }

  /** Whatever the dates: scaling every weight by one factor up to 1 keeps the rates and fades every strength. */
  lemma ScalingFades(decay: Decay, aged: Decay, c: real, history: seq<MatchResult>)
    requires 0.0 < c <= 1.0 && forall i | 0 <= i < |history| :: aged.Weight(history[i]) == c * decay.Weight(history[i])
    ensures Faded(FittedModel(decay, history), FittedModel(aged, history))
  {
    hide Sum, Decay.Weight, RatesOf, Attack, Defence, BetweenOneAnd, Teams;
    ScaledTotal(decay, aged, c, history);
    if 0.0 < Sum(decay, history, One) {
      forall key
        ensures BetweenOneAnd(Attack(aged, history, key), Attack(decay, history, key))
        ensures BetweenOneAnd(Defence(aged, history, key), Defence(decay, history, key))
      {
        ScaledStrengths(decay, aged, c, history, key);
      }
    }
  }

  /*************************** Signs ***************************/

  ghost predicate NonNegativeModel(model: Model) {
    && 0.0 <= model.rates.home && 0.0 <= model.rates.away
    && (forall key | key in model.attack :: 0.0 <= model.attack[key])
    && (forall key | key in model.defence :: 0.0 <= model.defence[key])
  }

  lemma FittedNonNegative(decay: Decay, history: seq<MatchResult>)
    requires decay.NonNegative()
    ensures NonNegativeModel(FittedModel(decay, history))
  {
    hide Shrink, Sum;
    if 0.0 < Sum(decay, history, One) {
      RatesSign(decay, history);
      var rates := RatesOf(decay, history);
      forall key ensures 0.0 <= Attack(decay, history, key) && 0.0 <= Defence(decay, history, key) {
        TallySign(decay, history, Scored, rates, key);
        TallySign(decay, history, Conceded, rates, key);
        ShrinkSign(TallyOf(decay, history, Scored, rates, key), TallyOf(decay, history, ScoredBaseline, rates, key),
                   TallyOf(decay, history, Sample, rates, key));
        ShrinkSign(TallyOf(decay, history, Conceded, rates, key), TallyOf(decay, history, ConcededBaseline, rates, key),
                   TallyOf(decay, history, Sample, rates, key));
      }
    }
  }

  /** The two fixture rates are never negative, and a fixture between strangers gets exactly the league rates. */
  lemma FixtureRates(model: Model, homeTeamId: int, awayTeamId: int, competitionId: int)
    requires NonNegativeModel(model)
    ensures var (home, away) := ExpectedGoals(model, homeTeamId, awayTeamId, competitionId);
            && 0.0 <= home && 0.0 <= away
            && ({Key(homeTeamId, competitionId), Key(awayTeamId, competitionId)}
                !! model.attack.Keys + model.defence.Keys
                ==> home == model.rates.home && away == model.rates.away)
  {
    var h, a := Key(homeTeamId, competitionId), Key(awayTeamId, competitionId);
    RateSign(model.rates.home, GetOr(model.attack, h, 1.0), GetOr(model.defence, a, 1.0));
    RateSign(model.rates.away, GetOr(model.attack, a, 1.0), GetOr(model.defence, h, 1.0));
  }

  /** The side's attack and its opponent's defence number are no higher in one model than in the other. */
  predicate NoStronger(model: Model, other: Model, side: Key, opponent: Key) {
    && GetOr(model.attack, side, 1.0) <= GetOr(other.attack, side, 1.0)
    && GetOr(model.defence, opponent, 1.0) <= GetOr(other.defence, opponent, 1.0)
  }

  /**
   A side's rate reads its own attack and its opponent's defence, rises with both, and reads nothing
   else of the model but the league rate for its end of the pitch.
   */
  lemma RatesFollowStrengths(model: Model, other: Model, homeTeamId: int, awayTeamId: int, competitionId: int)
    requires NonNegativeModel(model)
    ensures var (home, away) := ExpectedGoals(model, homeTeamId, awayTeamId, competitionId);
            var (home', away') := ExpectedGoals(other, homeTeamId, awayTeamId, competitionId);
            var h, a := Key(homeTeamId, competitionId), Key(awayTeamId, competitionId);
            && (model.rates.home <= other.rates.home && NoStronger(model, other, h, a) ==> home <= home')
            && (model.rates.away <= other.rates.away && NoStronger(model, other, a, h) ==> away <= away')
  {
    var h, a := Key(homeTeamId, competitionId), Key(awayTeamId, competitionId);
    StrengthSign(model, h);
    StrengthSign(model, a);
    hide GetOr, NonNegativeModel, Rate;
    if model.rates.home <= other.rates.home && NoStronger(model, other, h, a) {
      RateRises(model.rates.home, GetOr(model.attack, h, 1.0), GetOr(model.defence, a, 1.0),
                other.rates.home, GetOr(other.attack, h, 1.0), GetOr(other.defence, a, 1.0));
    }
    if model.rates.away <= other.rates.away && NoStronger(model, other, a, h) {
      RateRises(model.rates.away, GetOr(model.attack, a, 1.0), GetOr(model.defence, h, 1.0),
                other.rates.away, GetOr(other.attack, a, 1.0), GetOr(other.defence, h, 1.0));
    }
  }

  lemma StrengthSign(model: Model, key: Key)
    requires NonNegativeModel(model)
    ensures 0.0 <= model.rates.home && 0.0 <= model.rates.away
    ensures 0.0 <= GetOr(model.attack, key, 1.0) && 0.0 <= GetOr(model.defence, key, 1.0)
  {
  }

  lemma RateRises(x: real, y: real, z: real, x': real, y': real, z': real)
    requires 0.0 <= x <= x' && 0.0 <= y <= y' && 0.0 <= z <= z'
    ensures Rate(x, y, z) <= Rate(x', y', z')
  {
    MulMonoBoth(x, x', y, y');
    MulNonNegative(x, y);
    MulMonoBoth(x * y, x' * y', z, z');
  }

  lemma RateSign(x: real, y: real, z: real)
    requires 0.0 <= x && 0.0 <= y && 0.0 <= z
    ensures 0.0 <= Rate(x, y, z)
  {
    MulNonNegative(x, y);
    MulNonNegative(x * y, z);
  }
}
