/** What the weights, strengths and rates come to, in plain weighted counts and without the fit's own functions. */
module FitMeaning {
  import opened RealArithmetic
  import opened MapSums
  import opened MatchHistory
  import opened PoissonFit
  import opened StrengthFitting
  import opened FitLaws

  /*************************** Weights ***************************/

  /** A match at or after the anchor weighs 1, and each 182.5 days before it halve the weight. */
  lemma WeightLandmarks(decay: Decay, m: MatchResult)
    requires decay.IsHalving()
    ensures decay.asOf <= m.utcDate ==> decay.Weight(m) == 1.0
    ensures m.utcDate <= decay.asOf ==> decay.Weight(m.(utcDate := m.utcDate - 15768000)) == 0.5 * decay.Weight(m)
    ensures forall other: MatchResult | other.utcDate == m.utcDate :: decay.Weight(other) == decay.Weight(m)
  {
    HalvingUnits(decay);
    hide Decay.IsHalving;
    if m.utcDate <= decay.asOf {
      var x := decay.AgeDays(m.utcDate) / HALF_LIFE_DAYS;
      assert decay.AgeDays(m.utcDate - 15768000) / HALF_LIFE_DAYS == x + 1.0;
      HalvingSum(decay, x, 1.0);
    }
  }

  /*************************** Weighted counts ***************************/

  /** Weight of all matches, and of the goals at either end of the pitch. */
  function TotalWeight(decay: Decay, history: seq<MatchResult>): real {
    if history == [] then 0.0
    else TotalWeight(decay, history[..|history| - 1]) + decay.Weight(history[|history| - 1])
  }

  function HomeGoalWeight(decay: Decay, history: seq<MatchResult>): real {
    if history == [] then 0.0
    else
      var m := history[|history| - 1];
      HomeGoalWeight(decay, history[..|history| - 1]) + decay.Weight(m) * m.homeGoals as real
  }

  function AwayGoalWeight(decay: Decay, history: seq<MatchResult>): real {
    if history == [] then 0.0
    else
      var m := history[|history| - 1];
      AwayGoalWeight(decay, history[..|history| - 1]) + decay.Weight(m) * m.awayGoals as real
  }

  /** A team's weighted matches and goals, home and away apart. */
  datatype Record = Record(homeWeight: real, homeFor: real, homeAgainst: real,
                           awayWeight: real, awayFor: real, awayAgainst: real)

  function RecordOf(decay: Decay, history: seq<MatchResult>, team: Key): Record {
    if history == [] then Record(0.0, 0.0, 0.0, 0.0, 0.0, 0.0)
    else
      var r, m := RecordOf(decay, history[..|history| - 1], team), history[|history| - 1];
      var w := decay.Weight(m);
      var home := if team == HomeKey(m)
                  then r.(homeWeight := r.homeWeight + w,
                          homeFor := r.homeFor + w * m.homeGoals as real,
                          homeAgainst := r.homeAgainst + w * m.awayGoals as real)
                  else r;
      if team == AwayKey(m)
      then home.(awayWeight := home.awayWeight + w,
                 awayFor := home.awayFor + w * m.awayGoals as real,
                 awayAgainst := home.awayAgainst + w * m.homeGoals as real)
      else home
  }

  function GoalsFor(r: Record): real { r.homeFor + r.awayFor }

  function GoalsAgainst(r: Record): real { r.homeAgainst + r.awayAgainst }

  function Appearances(r: Record): real { r.homeWeight + r.awayWeight }

  /** What an average side scores, and what it concedes, in the same fixtures. */
  function AverageFor(r: Record, rates: LeagueRates): real { r.homeWeight * rates.home + r.awayWeight * rates.away }

  function AverageAgainst(r: Record, rates: LeagueRates): real { r.homeWeight * rates.away + r.awayWeight * rates.home }

  lemma {:induction false} TotalsMean(decay: Decay, history: seq<MatchResult>)
    ensures Sum(decay, history, One) == TotalWeight(decay, history)
    ensures Sum(decay, history, HomeGoals) == HomeGoalWeight(decay, history)
    ensures Sum(decay, history, AwayGoals) == AwayGoalWeight(decay, history)
  {
    hide Decay.Weight;
    if history != [] { TotalsMean(decay, history[..|history| - 1]); }
  }

  lemma {:induction false} TalliesMean(decay: Decay, history: seq<MatchResult>, rates: LeagueRates, team: Key)
    ensures var r := RecordOf(decay, history, team);
            && TallyOf(decay, history, Scored, rates, team) == GoalsFor(r)
            && TallyOf(decay, history, Conceded, rates, team) == GoalsAgainst(r)
            && TallyOf(decay, history, ScoredBaseline, rates, team) == AverageFor(r, rates)
            && TallyOf(decay, history, ConcededBaseline, rates, team) == AverageAgainst(r, rates)
            && TallyOf(decay, history, Sample, rates, team) == Appearances(r)
  {
    hide Decay.Weight, Term, Sum;
    if history == [] {
      NoTallies(decay, rates, team);
    } else {
      var n := |history| - 1;
      var m := history[n];
      TalliesMean(decay, history[..n], rates, team);
      assert history == history[..n] + [m];
      OneMoreMatch(decay, history[..n], m, rates, team);
      var r := RecordOf(decay, history[..n], team);
      var w := decay.Weight(m);
      BothRates(r.homeWeight, w, rates.home);
      BothRates(r.homeWeight, w, rates.away);
      BothRates(r.awayWeight, w, rates.home);
      BothRates(r.awayWeight, w, rates.away);
    }
  }

  lemma BothRates(x: real, w: real, rate: real)
    ensures (x + w) * rate == x * rate + w * rate
  {
  }

  lemma NoTallies(decay: Decay, rates: LeagueRates, team: Key)
    ensures forall t: Tally :: TallyOf(decay, [], t, rates, team) == 0.0
  {
  }

  /** What one more match adds to each of a team's five counts. */
  lemma OneMoreMatch(decay: Decay, history: seq<MatchResult>, m: MatchResult, rates: LeagueRates, team: Key)
    ensures var w, next := decay.Weight(m), history + [m];
            var home, away := if team == HomeKey(m) then w else 0.0, if team == AwayKey(m) then w else 0.0;
            && TallyOf(decay, next, Scored, rates, team)
               == TallyOf(decay, history, Scored, rates, team) + home * m.homeGoals as real + away * m.awayGoals as real
            && TallyOf(decay, next, Conceded, rates, team)
               == TallyOf(decay, history, Conceded, rates, team) + home * m.awayGoals as real
                   + away * m.homeGoals as real
            && TallyOf(decay, next, ScoredBaseline, rates, team)
               == TallyOf(decay, history, ScoredBaseline, rates, team) + home * rates.home + away * rates.away
            && TallyOf(decay, next, ConcededBaseline, rates, team)
               == TallyOf(decay, history, ConcededBaseline, rates, team) + home * rates.away + away * rates.home
            && TallyOf(decay, next, Sample, rates, team) == TallyOf(decay, history, Sample, rates, team) + home + away
  {
    hide Decay.Weight, Term, Sum;
    forall t: Tally
      ensures TallyOf(decay, history + [m], t, rates, team)
           == TallyOf(decay, history, t, rates, team) + Term(decay, m, CreditTo(t, rates, team))
    {
      SumAppend(decay, history, m, CreditTo(t, rates, team));
    }
    CreditTerm(decay, m, Scored, rates, team);
    CreditTerm(decay, m, Conceded, rates, team);
    CreditTerm(decay, m, ScoredBaseline, rates, team);
    CreditTerm(decay, m, ConcededBaseline, rates, team);
    CreditTerm(decay, m, Sample, rates, team);
  }

  /*************************** Strengths ***************************/

  /** A strength is the team's own record plus six appearances of an average side, against an average side's. */
  predicate IsStrength(x: real, goals: real, average: real, appearances: real) {
    if 0.0 < average && 0.0 < appearances
    then x * (average * (appearances + 6.0)) == appearances * goals + 6.0 * average
    else x == 1.0
  }

  lemma ShrinkMeans(observed: real, expected: real, sample: real)
    ensures IsStrength(Shrink(observed, expected, sample), observed, expected, sample)
  {
    if 0.0 < expected && 0.0 < sample {
      var ratio, confidence := observed / expected, sample / (sample + 6.0);
      ShrinkUnfold(observed, expected, sample, ratio, confidence);
      assert ratio * expected == observed && confidence * (sample + 6.0) == sample;
      MultipliedOut(observed, expected, sample, ratio, confidence);
    }
  }

  lemma MultipliedOut(observed: real, expected: real, sample: real, ratio: real, confidence: real)
    requires ratio * expected == observed && confidence * (sample + 6.0) == sample
    ensures (1.0 + confidence * (ratio - 1.0)) * (expected * (sample + 6.0)) == sample * observed + 6.0 * expected
  {
    var n := sample + 6.0;
    var own := ratio - 1.0;
    assert (1.0 + confidence * own) * (expected * n) == expected * n + (confidence * n) * (own * expected);
    assert own * expected == observed - expected;
    assert sample * (observed - expected) == sample * observed - sample * expected;
    assert expected * n == sample * expected + 6.0 * expected;
  }

  /**
   The whole fit in plain counts: each league rate times the total weight is the weighted goals at that
   end, and every team's attack and defence are its strengths at scoring and at conceding.
   */
  lemma FitMeans(decay: Decay, history: seq<MatchResult>)
    requires 0.0 < TotalWeight(decay, history)
    ensures var model := FittedModel(decay, history);
            && model.rates.home * TotalWeight(decay, history) == HomeGoalWeight(decay, history)
            && model.rates.away * TotalWeight(decay, history) == AwayGoalWeight(decay, history)
            && model.attack.Keys == Teams(history) && model.defence.Keys == Teams(history)
    ensures var model := FittedModel(decay, history);
            forall team | team in Teams(history) ::
              var r := RecordOf(decay, history, team);
              && IsStrength(model.attack[team], GoalsFor(r), AverageFor(r, model.rates), Appearances(r))
              && IsStrength(model.defence[team], GoalsAgainst(r), AverageAgainst(r, model.rates), Appearances(r))
  {
    TotalsMean(decay, history);
    hide Sum, TotalWeight, HomeGoalWeight, AwayGoalWeight, IsStrength, Shrink, TallyOf, Teams;
    hide RecordOf, GoalsFor, GoalsAgainst, AverageFor, AverageAgainst, Appearances;
    var model := FittedModel(decay, history);
    assert model.rates == RatesOf(decay, history);
    forall team | team in Teams(history)
      ensures var r := RecordOf(decay, history, team);
              && IsStrength(model.attack[team], GoalsFor(r), AverageFor(r, model.rates), Appearances(r))
              && IsStrength(model.defence[team], GoalsAgainst(r), AverageAgainst(r, model.rates), Appearances(r))
    {
      var r := RecordOf(decay, history, team);
      TalliesMean(decay, history, model.rates, team);
      ShrinkMeans(GoalsFor(r), AverageFor(r, model.rates), Appearances(r));
      ShrinkMeans(GoalsAgainst(r), AverageAgainst(r, model.rates), Appearances(r));
    }
  }

  /** Without any weight there is nothing to go on: both rates are 0 and nobody has a strength. */
  lemma NothingToFit(decay: Decay, history: seq<MatchResult>)
    requires TotalWeight(decay, history) <= 0.0
    ensures FittedModel(decay, history) == Model(LeagueRates(0.0, 0.0), map[], map[])
  {
    TotalsMean(decay, history);
  }

  /*************************** Fixture rates ***************************/

  /**
   Each rate is proportional to its own three factors and to nothing else: the league rate for its end,
   its side's attack and the opponent's defence, a missing strength counting as 1.
   */
  lemma RatesAreProportional(model: Model, other: Model, homeTeamId: int, awayTeamId: int, competitionId: int,
                             league: real, attack: real, defence: real)
    ensures var (home, away) := ExpectedGoals(model, homeTeamId, awayTeamId, competitionId);
            var (home', away') := ExpectedGoals(other, homeTeamId, awayTeamId, competitionId);
            var h, a := Key(homeTeamId, competitionId), Key(awayTeamId, competitionId);
            && (other.rates.home == league * model.rates.home
                && GetOr(other.attack, h, 1.0) == attack * GetOr(model.attack, h, 1.0)
                && GetOr(other.defence, a, 1.0) == defence * GetOr(model.defence, a, 1.0)
                ==> home' == league * attack * defence * home)
            && (other.rates.away == league * model.rates.away
                && GetOr(other.attack, a, 1.0) == attack * GetOr(model.attack, a, 1.0)
                && GetOr(other.defence, h, 1.0) == defence * GetOr(model.defence, h, 1.0)
                ==> away' == league * attack * defence * away)
  {
    var h, a := Key(homeTeamId, competitionId), Key(awayTeamId, competitionId);
    hide GetOr;
    ScaledRate(model.rates.home, GetOr(model.attack, h, 1.0), GetOr(model.defence, a, 1.0), league, attack, defence,
               other.rates.home, GetOr(other.attack, h, 1.0), GetOr(other.defence, a, 1.0));
    ScaledRate(model.rates.away, GetOr(model.attack, a, 1.0), GetOr(model.defence, h, 1.0), league, attack, defence,
               other.rates.away, GetOr(other.attack, a, 1.0), GetOr(other.defence, h, 1.0));
    hide Rate;
  }

  lemma ScaledRate(x: real, y: real, z: real, a: real, b: real, c: real, x': real, y': real, z': real)
    ensures x' == a * x && y' == b * y && z' == c * z ==> Rate(x', y', z') == a * b * c * Rate(x, y, z)
  {
    if x' == a * x && y' == b * y && z' == c * z {
      var ab, xy := a * b, x * y;
      assert x' * y' == ab * xy;
      assert (ab * xy) * z' == (ab * c) * (xy * z);
    }
  }

  /** The value itself: a home rate of 1.5, a home attack of 1.2 and an away defence of 0.8 make 1.44. */
  lemma RateExample(model: Model)
    requires model.rates == LeagueRates(1.5, 1.25)
    requires model.attack == map[Key(1, 9) := 1.2] && model.defence == map[Key(2, 9) := 0.8, Key(1, 9) := 0.5]
    ensures ExpectedGoals(model, 1, 2, 9) == (1.44, 0.625)
  {
  }
}
