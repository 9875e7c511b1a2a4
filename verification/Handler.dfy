/** `process_job`: rebuild both models, store the numbers and the prose in one transaction, warm the cache. */
module Handler {
  import opened MapSums
  import opened MatchHistory
  import opened Options
  import opened Rounding
  import opened ScoreMatrix
  import opened Scorelines
  import opened PoissonFit
  import opened StrengthFitting
  import opened FitLaws
  import opened PoissonEngine
  import opened Predictions
  import Elo
  import Truncation

  datatype Fixture = Fixture(matchId: int, competitionId: int, homeTeamId: int, awayTeamId: int)

  /** The fixture as a match still to be played: its pre-match snapshot does not read the goals. */
  function Unplayed(fixture: Fixture): MatchResult {
    MatchResult(fixture.matchId, fixture.competitionId, 0, fixture.homeTeamId, fixture.awayTeamId, 0, 0)
  }

  /** The exponential function and the two curves, all taken as given. */
  datatype Functions = Functions(decay: Decay, curve: Elo.Curve, exp: real -> real) {
    ghost predicate Valid() {
      decay.NonNegative() && forall x :: 0.0 < exp(x)
    }
  }

  /** The row the two rates, the two ratings and the reported scorelines make. */
  function RowOf(home: real, away: real, snapshot: Elo.RatingSnapshot, top: seq<Scoreline>): PredictionRow
    requires 0.0 <= home && 0.0 <= away
  {
    PredictionRow(
      Round4(Prob(home, away, HomeWin, Truncation.MAX_GOALS)),
      Round4(Prob(home, away, Draw, Truncation.MAX_GOALS)),
      Round4(Prob(home, away, AwayWin, Truncation.MAX_GOALS)),
      Round4(Prob(home, away, OverTwoAndAHalf, Truncation.MAX_GOALS)),
      Round4(Prob(home, away, BothScore, Truncation.MAX_GOALS)),
      Round4(home), Round4(away), top, Round2(snapshot.home), Round2(snapshot.away))
  }

  /** What a stored row says, given the two rates and the two ratings behind it. */
  ghost predicate Describes(row: PredictionRow, home: real, away: real, snapshot: Elo.RatingSnapshot)
    requires 0.0 <= home && 0.0 <= away
  {
    && row == RowOf(home, away, snapshot, row.mostLikely)
    && IsTopScorelines(row.mostLikely, home, away, Truncation.MAX_GOALS)
  }

  /** The two expected-goal rates of a fixture, from its competition's history. */
  function Rates(fixture: Fixture, history: seq<MatchResult>, decay: Decay): (rates: (real, real))
    requires decay.NonNegative()
    ensures 0.0 <= rates.0 && 0.0 <= rates.1
  {
    FittedNonNegative(decay, history);
    FixtureRates(FittedModel(decay, history), fixture.homeTeamId, fixture.awayTeamId, fixture.competitionId);
    ExpectedGoals(FittedModel(decay, history), fixture.homeTeamId, fixture.awayTeamId, fixture.competitionId)
  }

  /** Both ratings as the replay of the history leaves them for the fixture. */
  ghost function Ratings(fixture: Fixture, history: seq<MatchResult>, curve: Elo.Curve): Elo.RatingSnapshot {
    Elo.PreMatch(Elo.Replay(curve, Elo.Sorted(history)), Unplayed(fixture))
  }

  ghost predicate Computed(row: PredictionRow, fixture: Fixture, history: seq<MatchResult>, f: Functions)
    requires f.Valid()
  {
    var rates := Rates(fixture, history, f.decay);
    Describes(row, rates.0, rates.1, Ratings(fixture, history, f.curve))
  }

  /** The computing half: from any history, empty included, to a row. Nothing divides by zero on the way. */
  method Compute(fixture: Fixture, history: seq<MatchResult>, f: Functions) returns (row: PredictionRow)
    requires f.Valid()
    ensures Computed(row, fixture, history, f)
  {
    hide Prob, IsTopScorelines, Elo.Replay, Elo.Sorted, FittedModel, Round4, Round2;
    var state := Elo.Run(f.curve, history);
    var strengths := Fit(history, f.decay);
    FittedNonNegative(f.decay, history);
    var model := strengths.Value();
    FixtureRates(model, fixture.homeTeamId, fixture.awayTeamId, fixture.competitionId);
    var (lambdaHome, lambdaAway) := ExpectedGoals(model, fixture.homeTeamId, fixture.awayTeamId, fixture.competitionId);
    var report := Score(lambdaHome, lambdaAway, f.exp(-lambdaHome), f.exp(-lambdaAway), Truncation.MAX_GOALS);
    var seed := Elo.SeedRating(state.ratings, fixture.competitionId);
    var eloHome := GetOr(state.ratings, Key(fixture.homeTeamId, fixture.competitionId), seed);
    var eloAway := GetOr(state.ratings, Key(fixture.awayTeamId, fixture.competitionId), seed);
    Elo.HandlerPairIsSnapshot(state.ratings, Unplayed(fixture));
    row := PredictionRow(Round4(report.probHome), Round4(report.probDraw), Round4(report.probAway),
                         Round4(report.overTwoAndAHalf), Round4(report.btts),
                         Round4(report.lambdaHome), Round4(report.lambdaAway), report.mostLikely,
                         Round2(eloHome), Round2(eloAway));
  }

  /** A stored number within half a unit of its last place. */
  predicate Near(stored: real, exact: real, unit: real) {
    -unit <= 2.0 * (stored - exact) <= unit
  }

  /**
   What each column of a computed row says: every rate, market and rating in its own place, rounded to
   its own scale, with a side without a rating at the seed of its competition.
   */
  lemma ComputedColumns(row: PredictionRow, fixture: Fixture, history: seq<MatchResult>, f: Functions)
    requires f.Valid() && Computed(row, fixture, history, f)
    ensures var model := FittedModel(f.decay, history);
            var (home, away) :=
              ExpectedGoals(model, fixture.homeTeamId, fixture.awayTeamId, fixture.competitionId);
            && 0.0 <= home && 0.0 <= away
            && Near(row.lambdaHome, home, 0.0001) && Near(row.lambdaAway, away, 0.0001)
            && Near(row.probHome, Prob(home, away, HomeWin, 10), 0.0001)
            && Near(row.probDraw, Prob(home, away, Draw, 10), 0.0001)
            && Near(row.probAway, Prob(home, away, AwayWin, 10), 0.0001)
            && Near(row.overTwoAndAHalf, Prob(home, away, OverTwoAndAHalf, 10), 0.0001)
            && Near(row.btts, Prob(home, away, BothScore, 10), 0.0001)
            && IsTopScorelines(row.mostLikely, home, away, 10)
    ensures var ratings := Elo.Replay(f.curve, Elo.Sorted(history));
            var seed := Elo.Seed(ratings, fixture.competitionId);
            var h, a := Key(fixture.homeTeamId, fixture.competitionId), Key(fixture.awayTeamId, fixture.competitionId);
            && Near(row.eloHome, if h in ratings then ratings[h] else seed, 0.01)
            && Near(row.eloAway, if a in ratings then ratings[a] else seed, 0.01)
  {
    hide Prob, IsTopScorelines, FittedModel, Elo.Replay, Elo.Sorted, Elo.Seed;
    var rates := Rates(fixture, history, f.decay);
    assert rates == ExpectedGoals(FittedModel(f.decay, history), fixture.homeTeamId, fixture.awayTeamId,
                                  fixture.competitionId);
    Elo.HandlerPairIsSnapshot(Elo.Replay(f.curve, Elo.Sorted(history)), Unplayed(fixture));
    hide Rates, Round4, Round2, ExpectedGoals, Elo.PreMatch;
  }

  /** Whatever the rates, the row satisfies every CHECK, with the three outcomes within 0.0001 of one. */
  lemma {:induction false} RowsPassChecks(home: real, away: real, snapshot: Elo.RatingSnapshot, top: seq<Scoreline>)
    requires 0.0 <= home && 0.0 <= away
    ensures var row := RowOf(home, away, snapshot, top);
            && ChecksHold(row)
            && 0.0 <= row.probHome <= 1.0 && 0.0 <= row.probDraw <= 1.0 && 0.0 <= row.probAway <= 1.0
            && 0.0 <= row.overTwoAndAHalf <= 1.0 && 0.0 <= row.btts <= 1.0
            && 0.0 <= row.lambdaHome && 0.0 <= row.lambdaAway
            && 0.9999 <= row.probHome + row.probDraw + row.probAway <= 1.0001
  {
    hide Prob, Round4, Round2;
    var n := Truncation.MAX_GOALS;
    ProbabilityLaws(home, away, HomeWin, n);
    ProbabilityLaws(home, away, Draw, n);
    ProbabilityLaws(home, away, AwayWin, n);
    ProbabilityLaws(home, away, OverTwoAndAHalf, n);
    ProbabilityLaws(home, away, BothScore, n);
    RoundedSharesSum(Prob(home, away, HomeWin, n), Prob(home, away, Draw, n), Prob(home, away, AwayWin, n));
  }

  /*************************** A better attack ***************************/

  /** Two models that differ in one team's attack at most, which the second has no lower. */
  ghost predicate AttackRises(model: Model, other: Model, key: Key) {
    && other.rates == model.rates && other.defence == model.defence
    && GetOr(model.attack, key, 1.0) <= GetOr(other.attack, key, 1.0)
    && (forall k | k != key :: GetOr(other.attack, k, 1.0) == GetOr(model.attack, k, 1.0))
  }

  lemma AttackMovesOneRate(model: Model, other: Model, key: Key, homeTeamId: int, awayTeamId: int, competitionId: int)
    requires NonNegativeModel(model) && NonNegativeModel(other) && AttackRises(model, other, key)
    requires homeTeamId != awayTeamId
    ensures var (home, away) := ExpectedGoals(model, homeTeamId, awayTeamId, competitionId);
            var (home', away') := ExpectedGoals(other, homeTeamId, awayTeamId, competitionId);
            && (key == Key(homeTeamId, competitionId) ==> home <= home' && away == away')
            && (key == Key(awayTeamId, competitionId) ==> home == home' && away <= away')
  {
    RatesFollowStrengths(model, other, homeTeamId, awayTeamId, competitionId);
    RatesFollowStrengths(other, model, homeTeamId, awayTeamId, competitionId);
    hide NonNegativeModel, Rate;
  }

  lemma HomeRateMovesRow(low: real, high: real, away: real, s: Elo.RatingSnapshot, top: seq<Scoreline>,
                         top': seq<Scoreline>)
    requires 0.0 <= low <= high && 0.0 <= away
    ensures var row, other := RowOf(low, away, s, top), RowOf(high, away, s, top');
            && row.probHome <= other.probHome && other.probAway <= row.probAway
            && row.overTwoAndAHalf <= other.overTwoAndAHalf && row.btts <= other.btts
  {
    hide Prob, Round4, Round2;
    var n := Truncation.MAX_GOALS;
    MonotoneInHomeRate(low, high, away, n);
    Round4Monotone(Prob(low, away, HomeWin, n), Prob(high, away, HomeWin, n));
    Round4Monotone(Prob(high, away, AwayWin, n), Prob(low, away, AwayWin, n));
    Round4Monotone(Prob(low, away, OverTwoAndAHalf, n), Prob(high, away, OverTwoAndAHalf, n));
    Round4Monotone(Prob(low, away, BothScore, n), Prob(high, away, BothScore, n));
  }

  lemma AwayRateMovesRow(home: real, low: real, high: real, s: Elo.RatingSnapshot, top: seq<Scoreline>,
                         top': seq<Scoreline>)
    requires 0.0 <= home && 0.0 <= low <= high
    ensures var row, other := RowOf(home, low, s, top), RowOf(home, high, s, top');
            && row.probAway <= other.probAway && other.probHome <= row.probHome
            && row.overTwoAndAHalf <= other.overTwoAndAHalf && row.btts <= other.btts
  {
    hide Prob, Round4, Round2;
    var n := Truncation.MAX_GOALS;
    MonotoneInAwayRate(home, low, high, n);
    Round4Monotone(Prob(home, low, AwayWin, n), Prob(home, high, AwayWin, n));
    Round4Monotone(Prob(home, high, HomeWin, n), Prob(home, low, HomeWin, n));
    Round4Monotone(Prob(home, low, OverTwoAndAHalf, n), Prob(home, high, OverTwoAndAHalf, n));
    Round4Monotone(Prob(home, low, BothScore, n), Prob(home, high, BothScore, n));
  }

  /** The row a fitted model and a fixture make, whatever the ratings and the list beside it. */
  function RowFrom(model: Model, fixture: Fixture, s: Elo.RatingSnapshot, top: seq<Scoreline>): PredictionRow
    requires NonNegativeModel(model)
  {
    FixtureRates(model, fixture.homeTeamId, fixture.awayTeamId, fixture.competitionId);
    var (home, away) := ExpectedGoals(model, fixture.homeTeamId, fixture.awayTeamId, fixture.competitionId);
    RowOf(home, away, s, top)
  }

  /**
   From strengths to stored percentages: with everything else fixed, a higher attack never lowers its
   own side's stored win probability, the overs or both-to-score, and never raises the opponent's.
   */
  lemma BetterAttackNeverHurts(model: Model, other: Model, fixture: Fixture, s: Elo.RatingSnapshot, top: seq<Scoreline>,
                               top': seq<Scoreline>)
    requires NonNegativeModel(model) && NonNegativeModel(other) && fixture.homeTeamId != fixture.awayTeamId
    ensures var row, better := RowFrom(model, fixture, s, top), RowFrom(other, fixture, s, top');
            && (AttackRises(model, other, Key(fixture.homeTeamId, fixture.competitionId)) ==>
                  row.probHome <= better.probHome && better.probAway <= row.probAway
                  && row.overTwoAndAHalf <= better.overTwoAndAHalf && row.btts <= better.btts)
            && (AttackRises(model, other, Key(fixture.awayTeamId, fixture.competitionId)) ==>
                  row.probAway <= better.probAway && better.probHome <= row.probHome
                  && row.overTwoAndAHalf <= better.overTwoAndAHalf && row.btts <= better.btts)
  {
    var h, a, c := fixture.homeTeamId, fixture.awayTeamId, fixture.competitionId;
    FixtureRates(model, h, a, c);
    FixtureRates(other, h, a, c);
    var (home, away) := ExpectedGoals(model, h, a, c);
    var (home', away') := ExpectedGoals(other, h, a, c);
    if AttackRises(model, other, Key(h, c)) {
      AttackMovesOneRate(model, other, Key(h, c), h, a, c);
      hide AttackRises, ExpectedGoals, RowOf, NonNegativeModel;
      HomeRateMovesRow(home, home', away, s, top, top');
    }
    if AttackRises(model, other, Key(a, c)) {
      AttackMovesOneRate(model, other, Key(a, c), h, a, c);
      hide AttackRises, ExpectedGoals, RowOf, NonNegativeModel;
      AwayRateMovesRow(home, away, away', s, top, top');
    }
  }

  /*************************** What the columns hold ***************************/

  /** The CHECKs are not the only limit: a column overflows exactly when a value rounds out of its precision. */
  lemma FitsIffInRange(x: real)
    ensures Round4(x) < 100.0 <==> x < 99.99995
    ensures -100000.0 < Round2(x) < 100000.0 <==> -99999.995 < x < 99999.995
  {
  }

  /** The CHECKs let through what the column refuses: a league averaging a hundred home goals is enough. */
  lemma AHundredGoalsDoNotFit(decay: Decay)
    requires decay.NonNegative() && decay.halving(0.0) == 1.0
    ensures Round4(Rates(Fixture(2, 1, 3, 4), [MatchResult(1, 1, decay.asOf, 1, 2, 100, 0)], decay).0) == 100.0
  {
    hide FittedModel;
    var m := MatchResult(1, 1, decay.asOf, 1, 2, 100, 0);
    OneMatchModel(decay, m);
    FittedNonNegative(decay, [m]);
    FixtureRates(FittedModel(decay, [m]), 3, 4, 1);
  }

  lemma OneMatchModel(decay: Decay, m: MatchResult)
    requires m.utcDate == decay.asOf && decay.halving(0.0) == 1.0
    ensures var model := FittedModel(decay, [m]);
            model.rates.home == m.homeGoals as real
                && model.attack.Keys + model.defence.Keys == {HomeKey(m), AwayKey(m)}
  {
    hide Sum, Attack, Defence;
    OneMatchSums(decay, m);
    assert Teams([m]) == {HomeKey(m), AwayKey(m)} by {
      assert [m][0] == m;
      assert HomeKey([m][0]) in Teams([m]) && AwayKey([m][0]) in Teams([m]);
    }
    assert RatesOf(decay, [m]).home == m.homeGoals as real;
  }

  lemma OneMatchSums(decay: Decay, m: MatchResult)
    requires m.utcDate == decay.asOf && decay.halving(0.0) == 1.0
    ensures Sum(decay, [m], One) == 1.0 && Sum(decay, [m], HomeGoals) == m.homeGoals as real
  {
    assert [m] == [] + [m];
    SumAppend(decay, [], m, One);
    SumAppend(decay, [], m, HomeGoals);
    assert decay.Weight(m) == 1.0;
  }

  /** The rates and ratings that still fit their columns once rounded. */
  predicate FitUnrounded(home: real, away: real, snapshot: Elo.RatingSnapshot) {
    && home < 99.99995 && away < 99.99995
    && -99999.995 < snapshot.home < 99999.995 && -99999.995 < snapshot.away < 99999.995
  }

  /** A row fits its columns exactly when its rates and ratings do before rounding. */
  lemma {:induction false} RowsFitIff(home: real, away: real, snapshot: Elo.RatingSnapshot, top: seq<Scoreline>)
    requires 0.0 <= home && 0.0 <= away
    ensures FitsColumns(RowOf(home, away, snapshot, top)) <==> FitUnrounded(home, away, snapshot)
  {
    FitsIffInRange(home);
    FitsIffInRange(away);
    FitsIffInRange(snapshot.home);
    FitsIffInRange(snapshot.away);
    hide Prob, Round4, Round2;
  }

  /*************************** The job ***************************/

  /** What write_preview did: raise, or return a text or nothing. */
  datatype Draft = Raised | Returned(text: Option<string>)

  /** How the cache write goes: only Redis's own errors are caught beside it. */
  datatype Warm = Warmed | RedisError | OtherError

  /** Which of the later effects raise. */
  datatype Faults = Faults(storePrediction: bool, storeCommentary: bool, commit: bool, warm: Warm)

  /** What Postgres and Redis hold about predictions: rows, prose, and cached prose. */
  datatype Contents = Contents(predictions: map<PredictionKey, PredictionRow>, commentary: map<int, string>,
                               cache: map<int, string>)

  /** The parts of a job that decide whether its transaction commits. */
  predicate Commits(row: PredictionRow, draft: Draft, faults: Faults) {
    && draft.Returned? && !faults.storePrediction && ChecksHold(row) && FitsColumns(row)
    && (draft.text.Some? ==> !faults.storeCommentary) && !faults.commit
  }

  /** What a job that computed this row leaves behind. */
  function JobResult(before: Contents, key: PredictionKey, row: PredictionRow, draft: Draft, faults: Faults): Contents {
    if !Commits(row, draft, faults) then before
    else
      var stored := before.(predictions := before.predictions[key := row]);
      if draft.text.None? then stored
      else
        var m, text := key.matchId, draft.text.value;
        stored.(commentary := before.commentary[m := text],
                cache := if faults.warm.Warmed? then before.cache[m := text] else before.cache)
  }

  /** What a job returns: its preview, unless something other than a Redis error raised. */
  function JobPreview(row: PredictionRow, draft: Draft, faults: Faults): Option<string> {
    if !Commits(row, draft, faults) || (draft.text.Some? && faults.warm.OtherError?) then None else draft.text
  }

  /**
   What the caller gets and what is kept, fault by fault: nothing before the commit is kept, nothing
   after it is lost.
   */
  lemma JobsByFault(before: Contents, key: PredictionKey, row: PredictionRow, text: string, faults: Faults)
    requires ChecksHold(row) && FitsColumns(row)
    ensures var written, silent := Returned(Some(text)), Returned(None);
            var stored := before.predictions[key := row];
            && (faults.storePrediction || faults.commit ==>
                  JobResult(before, key, row, written, faults) == before && JobPreview(row, written, faults) == None
                  && JobResult(before, key, row, silent, faults) == before)
            && (faults.storeCommentary ==>
                  JobResult(before, key, row, written, faults) == before && JobPreview(row, written, faults) == None)
            && JobResult(before, key, row, Raised, faults) == before && JobPreview(row, Raised, faults) == None
            && (!faults.storePrediction && !faults.commit ==>
                  JobResult(before, key, row, silent, faults) == before.(predictions := stored)
                  && JobPreview(row, silent, faults) == None)
            && (!faults.storePrediction && !faults.storeCommentary && !faults.commit ==>
                  JobResult(before, key, row, written, faults)
                  == Contents(stored, before.commentary[key.matchId := text],
                              if faults.warm == Warmed then before.cache[key.matchId := text] else before.cache)
                  && JobPreview(row, written, faults) == if faults.warm == OtherError then None else Some(text))
  {
    hide ChecksHold, FitsColumns;
  }

  /** A row that breaks a CHECK or a column is refused, and the job changes nothing. */
  lemma RefusedRowsChangeNothing(before: Contents, key: PredictionKey, row: PredictionRow, draft: Draft, faults: Faults)
    requires 100.0 <= row.lambdaHome || 100.0 <= row.lambdaAway || 100000.0 <= row.eloHome || 100000.0 <= row.eloAway
          || row.lambdaHome < 0.0 || row.lambdaAway < 0.0
          || row.probHome < 0.0 || row.probDraw < 0.0 || row.probAway < 0.0 || row.overTwoAndAHalf < 0.0
             || row.btts < 0.0
          || row.probHome > 1.0 || row.probDraw > 1.0 || row.probAway > 1.0 || row.overTwoAndAHalf > 1.0
             || row.btts > 1.0
          || row.probHome + row.probDraw + row.probAway > 1.0005 || row.probHome + row.probDraw + row.probAway < 0.9995
    ensures JobResult(before, key, row, draft, faults) == before && JobPreview(row, draft, faults) == None
  {
  }

  /** No CHECK ever stops a computed row: a job commits exactly when nothing else raises and the numbers fit. */
  lemma {:induction false} JobCommitsIff(home: real, away: real, snapshot: Elo.RatingSnapshot, top: seq<Scoreline>,
                                         draft: Draft, faults: Faults)
    requires 0.0 <= home && 0.0 <= away
    ensures Commits(RowOf(home, away, snapshot, top), draft, faults)
       <==> && draft.Returned? && !faults.storePrediction && !faults.commit
            && (draft.text.Some? ==> !faults.storeCommentary)
            && FitUnrounded(home, away, snapshot)
  {
    RowsPassChecks(home, away, snapshot, top);
    RowsFitIff(home, away, snapshot, top);
    hide RowOf, ChecksHold, FitsColumns, FitUnrounded;
  }

  /** A fixture never ends up with prose and no numbers. */
  ghost predicate ProseNumbered(c: Contents) {
    forall m | m in c.commentary :: exists key :: key in c.predictions && key.matchId == m
  }

  lemma JobKeepsProseNumbered(before: Contents, key: PredictionKey, row: PredictionRow, draft: Draft, faults: Faults)
    requires ProseNumbered(before)
    ensures ProseNumbered(JobResult(before, key, row, draft, faults))
  {
    hide Commits;
    var after := JobResult(before, key, row, draft, faults);
    if Commits(row, draft, faults) {
      forall m | m in after.commentary ensures exists k :: k in after.predictions && k.matchId == m {
        if m == key.matchId {
          assert key in after.predictions;
        } else {
          var k :| k in before.predictions && k.matchId == m;
          assert k in after.predictions;
        }
      }
    }
  }

  class Stores {
    var predictions: map<PredictionKey, PredictionRow>
    var commentary: map<int, string>
    var cache: map<int, string>

    function Value(): Contents
      reads this
    {
      Contents(predictions, commentary, cache)
    }

    /**
     `process_job`, the match looked up and its history fetched. Every exception ends in None, and
     one before the commit changes nothing.
     */
    method ProcessJob(found: Option<Fixture>, version: string, history: seq<MatchResult>, f: Functions, draft: Draft,
                      faults: Faults)
      returns (preview: Option<string>, ghost row: PredictionRow)
      requires f.Valid()
      modifies this
      ensures found.None? ==> Value() == old(Value()) && preview.None?
      ensures found.Some? ==>
                && Computed(row, found.value, history, f)
                && Value() == JobResult(old(Value()), PredictionKey(found.value.matchId, version), row, draft, faults)
                && preview == JobPreview(row, draft, faults)
    {
      preview := None;
      if found.None? {
        row := *;
        return;
      }
      var fixture := found.value;
      var numbers := Compute(fixture, history, f);
      row := numbers;
      hide ChecksHold, FitsColumns, Computed;
      if draft.Raised? {
        return;
      }
      var key := PredictionKey(fixture.matchId, version);
      var storedPredictions, storedCommentary := predictions, commentary;
      if faults.storePrediction || !ChecksHold(numbers) || !FitsColumns(numbers) {
        return;
      }
      storedPredictions := storedPredictions[key := numbers];
      if draft.text.Some? {
        if faults.storeCommentary {
          return;
        }
        storedCommentary := storedCommentary[fixture.matchId := draft.text.value];
      }
      if faults.commit {
        return;
      }
      predictions, commentary := storedPredictions, storedCommentary;
      if draft.text.Some? {
        if faults.warm.OtherError? {
          return;
        }
        if faults.warm.Warmed? {
          cache := cache[fixture.matchId := draft.text.value];
        }
      }
      preview := draft.text;
    }
  }
}
