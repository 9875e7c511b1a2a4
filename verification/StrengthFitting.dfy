/** The `fit` procedure and the fixture rates read off its result. */
module StrengthFitting {
  import opened MapSums
  import opened MatchHistory
  import opened PoissonFit

  /** The dataclass `fit` fills in place. */
  class Strengths {
    var leagueHome: real
    var leagueAway: real
    var attack: map<Key, real>
    var defence: map<Key, real>

    constructor ()
      ensures Value() == EMPTY
    {
      leagueHome, leagueAway := 0.0, 0.0;
      attack, defence := map[], map[];
    }

    function Value(): Model
      reads this
    {
      Model(LeagueRates(leagueHome, leagueAway), attack, defence)
    }

    /** The closing loop over `sample.items()`. */
    method FillStrengths(scored: map<Key, real>, conceded: map<Key, real>,
                         scoredBaseline: map<Key, real>, concededBaseline: map<Key, real>, sample: map<Key, real>)
      requires attack == map[] && defence == map[]
      requires scored.Keys == conceded.Keys == scoredBaseline.Keys == concededBaseline.Keys == sample.Keys
      modifies `attack, `defence
      ensures attack == map key | key in sample.Keys :: Shrink(scored[key], scoredBaseline[key], sample[key])
      ensures defence == map key | key in sample.Keys :: Shrink(conceded[key], concededBaseline[key], sample[key])
    {
      var rest := sample.Keys;
      while rest != {}
        invariant rest <= sample.Keys
        invariant attack == map key | key in sample.Keys - rest :: Shrink(scored[key], scoredBaseline[key], sample[key])
        invariant defence == map key | key in sample.Keys - rest ::
                    Shrink(conceded[key], concededBaseline[key], sample[key])
        decreases rest
      {
        var key :| key in rest;
        attack := attack[key := Shrink(scored[key], scoredBaseline[key], sample[key])];
        defence := defence[key := Shrink(conceded[key], concededBaseline[key], sample[key])];
        rest := rest - {key};
      }
    }
  }

  /** The loop's running sum over the first i weighted matches. */
  lemma SumNext(decay: Decay, history: seq<MatchResult>, i: nat, f: Measure)
    requires i < |history|
    ensures Sum(decay, history[..i + 1], f) == Sum(decay, history[..i], f) + decay.Weight(history[i]) * f.Of(history[i])
  {
    assert history[..i + 1] == history[..i] + [history[i]];
    SumAppend(decay, history[..i], history[i], f);
  }

  method WeightedTotals(history: seq<MatchResult>, weights: seq<real>, ghost decay: Decay)
    returns (total: real, home: real, away: real)
    requires |weights| == |history| && forall i | 0 <= i < |history| :: weights[i] == decay.Weight(history[i])
    ensures total == Sum(decay, history, One)
    ensures home == Sum(decay, history, HomeGoals) && away == Sum(decay, history, AwayGoals)
  {
    total, home, away := 0.0, 0.0, 0.0;
    for i := 0 to |history|
      invariant total == Sum(decay, history[..i], One)
      invariant home == Sum(decay, history[..i], HomeGoals) && away == Sum(decay, history[..i], AwayGoals)
    {
      SumNext(decay, history, i, One);
      SumNext(decay, history, i, HomeGoals);
      SumNext(decay, history, i, AwayGoals);
      total := total + weights[i];
      home := home + weights[i] * history[i].homeGoals as real;
      away := away + weights[i] * history[i].awayGoals as real;
    }
    assert history[..|history|] == history;
  }

  lemma AccumulatedNext(decay: Decay, history: seq<MatchResult>, i: nat, t: Tally, rates: LeagueRates)
    requires i < |history|
    ensures Accumulated(decay, history[..i + 1], t, rates)
         == Add(Add(Accumulated(decay, history[..i], t, rates), HomeKey(history[i]),
                    HomeTerm(decay, history[i], t, rates)),
                AwayKey(history[i]), AwayTerm(decay, history[i], t, rates))
  {
    hide Add, HomeTerm, AwayTerm;
    var seen := history[..i + 1];
    assert seen[..i] == history[..i] && seen[i] == history[i] && |seen| == i + 1;
  }

  lemma NothingAccumulated(decay: Decay, rates: LeagueRates)
    ensures forall t: Tally :: Accumulated(decay, [], t, rates) == map[]
  {
  }

  lemma Credits(decay: Decay, m: MatchResult, rates: LeagueRates, weight: real)
    requires weight == decay.Weight(m)
    ensures HomeTerm(decay, m, Scored, rates) == AwayTerm(decay, m, Conceded, rates) == weight * m.homeGoals as real
    ensures AwayTerm(decay, m, Scored, rates) == HomeTerm(decay, m, Conceded, rates) == weight * m.awayGoals as real
    ensures HomeTerm(decay, m, ScoredBaseline, rates) == AwayTerm(decay, m, ConcededBaseline, rates)
            == weight * rates.home
    ensures AwayTerm(decay, m, ScoredBaseline, rates) == HomeTerm(decay, m, ConcededBaseline, rates)
            == weight * rates.away
    ensures HomeTerm(decay, m, Sample, rates) == AwayTerm(decay, m, Sample, rates) == weight
  {
  }

  /** The loop over matches, each paying both of its teams into the five dictionaries. */
  method Accumulate(history: seq<MatchResult>, weights: seq<real>, rates: LeagueRates, ghost decay: Decay)
    returns (scored: map<Key, real>, conceded: map<Key, real>, scoredBaseline: map<Key, real>,
             concededBaseline: map<Key, real>, sample: map<Key, real>)
    requires |weights| == |history| && forall i | 0 <= i < |history| :: weights[i] == decay.Weight(history[i])
    ensures scored == Accumulated(decay, history, Scored, rates)
    ensures conceded == Accumulated(decay, history, Conceded, rates)
    ensures scoredBaseline == Accumulated(decay, history, ScoredBaseline, rates)
    ensures concededBaseline == Accumulated(decay, history, ConcededBaseline, rates)
    ensures sample == Accumulated(decay, history, Sample, rates)
  {
    hide Add, Decay.Weight, HomeKey, AwayKey, HomeTerm, AwayTerm, Accumulated;
    scored, conceded, scoredBaseline, concededBaseline, sample := map[], map[], map[], map[], map[];
    NothingAccumulated(decay, rates);
    for i := 0 to |history|
      invariant scored == Accumulated(decay, history[..i], Scored, rates)
      invariant conceded == Accumulated(decay, history[..i], Conceded, rates)
      invariant scoredBaseline == Accumulated(decay, history[..i], ScoredBaseline, rates)
      invariant concededBaseline == Accumulated(decay, history[..i], ConcededBaseline, rates)
      invariant sample == Accumulated(decay, history[..i], Sample, rates)
    {
      AccumulatedNext(decay, history, i, Scored, rates);
      AccumulatedNext(decay, history, i, Conceded, rates);
      AccumulatedNext(decay, history, i, ScoredBaseline, rates);
      AccumulatedNext(decay, history, i, ConcededBaseline, rates);
      AccumulatedNext(decay, history, i, Sample, rates);
      var m, weight := history[i], weights[i];
      var home, away := HomeKey(m), AwayKey(m);
      Credits(decay, m, rates, weight);

      scored := Add(scored, home, weight * m.homeGoals as real);
      conceded := Add(conceded, home, weight * m.awayGoals as real);
      scoredBaseline := Add(scoredBaseline, home, weight * rates.home);
      concededBaseline := Add(concededBaseline, home, weight * rates.away);
      sample := Add(sample, home, weight);

      scored := Add(scored, away, weight * m.awayGoals as real);
      conceded := Add(conceded, away, weight * m.homeGoals as real);
      scoredBaseline := Add(scoredBaseline, away, weight * rates.away);
      concededBaseline := Add(concededBaseline, away, weight * rates.home);
      sample := Add(sample, away, weight);
    }
    assert history[..|history|] == history;
  }

  /** Reading the dictionaries team by team gives the declared weighted sums. */
  lemma AccumulatedAt(decay: Decay, history: seq<MatchResult>, t: Tally, rates: LeagueRates)
    ensures Accumulated(decay, history, t, rates).Keys == Teams(history)
    ensures forall key | key in Teams(history) ::
              Accumulated(decay, history, t, rates)[key] == TallyOf(decay, history, t, rates, key)
  {
    forall key ensures key in Accumulated(decay, history, t, rates) <==> key in Teams(history)
               ensures key in Teams(history)
                       ==> Accumulated(decay, history, t, rates)[key] == TallyOf(decay, history, t, rates, key)
    {
      AccumulatedIsTally(decay, history, t, rates, key);
    }
  }

  lemma FittedOnNothing(decay: Decay, history: seq<MatchResult>)
    ensures history == [] || Sum(decay, history, One) <= 0.0 ==> FittedModel(decay, history) == EMPTY
  {
  }

  lemma ShrunkIsFitted(decay: Decay, history: seq<MatchResult>, rates: LeagueRates,
                       scored: map<Key, real>, conceded: map<Key, real>, scoredBaseline: map<Key, real>,
                       concededBaseline: map<Key, real>, sample: map<Key, real>, attack: map<Key, real>,
                       defence: map<Key, real>)
    requires 0.0 < Sum(decay, history, One) && rates == RatesOf(decay, history)
    requires scored.Keys == conceded.Keys == scoredBaseline.Keys == concededBaseline.Keys == sample.Keys
             == Teams(history)
    requires forall key | key in Teams(history) ::
               && scored[key] == TallyOf(decay, history, Scored, rates, key)
               && conceded[key] == TallyOf(decay, history, Conceded, rates, key)
               && scoredBaseline[key] == TallyOf(decay, history, ScoredBaseline, rates, key)
               && concededBaseline[key] == TallyOf(decay, history, ConcededBaseline, rates, key)
               && sample[key] == TallyOf(decay, history, Sample, rates, key)
    requires attack == map key | key in sample.Keys :: Shrink(scored[key], scoredBaseline[key], sample[key])
    requires defence == map key | key in sample.Keys :: Shrink(conceded[key], concededBaseline[key], sample[key])
    ensures Model(rates, attack, defence) == FittedModel(decay, history)
  {
    hide Sum, Shrink, TallyOf, Teams, RatesOf;
  }

  /** `fit`: whatever order the matches come in, the result is the declared model. */
  method Fit(history: seq<MatchResult>, decay: Decay) returns (strengths: Strengths)
    ensures fresh(strengths)
    ensures strengths.Value() == FittedModel(decay, history)
  {
    hide Accumulated, Sum, Shrink, TallyOf, FittedModel;
    strengths := new Strengths();
    FittedOnNothing(decay, history);
    if history == [] {
      return;
    }
    var weights := seq(|history|, i requires 0 <= i < |history| => decay.Weight(history[i]));
    var total, home, away := WeightedTotals(history, weights, decay);
    if total <= 0.0 {
      return;
    }
    strengths.leagueHome := home / total;
    strengths.leagueAway := away / total;
    var rates := LeagueRates(strengths.leagueHome, strengths.leagueAway);

    var scored, conceded, scoredBaseline, concededBaseline, sample := Accumulate(history, weights, rates, decay);
    AccumulatedAt(decay, history, Sample, rates);
    AccumulatedAt(decay, history, Scored, rates);
    AccumulatedAt(decay, history, Conceded, rates);
    AccumulatedAt(decay, history, ScoredBaseline, rates);
    AccumulatedAt(decay, history, ConcededBaseline, rates);
    strengths.FillStrengths(scored, conceded, scoredBaseline, concededBaseline, sample);
    ShrunkIsFitted(decay, history, rates, scored, conceded, scoredBaseline, concededBaseline, sample, strengths.attack,
                   strengths.defence);
  }

  function Rate(league: real, attack: real, defence: real): real {
    league * attack * defence
  }

  /** `expected_goals`: league rate for the end of the pitch, times own attack, times the opponent's defence. */
  function ExpectedGoals(model: Model, homeTeamId: int, awayTeamId: int, competitionId: int): (real, real) {
    var home, away := Key(homeTeamId, competitionId), Key(awayTeamId, competitionId);
    (Rate(model.rates.home, GetOr(model.attack, home, 1.0), GetOr(model.defence, away, 1.0)),
     Rate(model.rates.away, GetOr(model.attack, away, 1.0), GetOr(model.defence, home, 1.0)))
  }
}
