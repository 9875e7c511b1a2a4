/** The league average over a replay: what seeding does to it, and that results do nothing to it. */
module EloAverage {
  import opened RealArithmetic
  import opened MapSums
  import opened MatchHistory
  import opened Elo

  /** The database refuses a match of a team against itself. */
  ghost predicate TeamsDiffer(matches: seq<MatchResult>) {
    forall i | 0 <= i < |matches| :: matches[i].homeTeamId != matches[i].awayTeamId
  }

  /** Teams already met in a competition. */
  function Met(matches: seq<MatchResult>, competition: int): set<Key> {
    set key | key in Teams(matches) && key.competition == competition
  }

  function Newcomers(known: set<Key>, m: MatchResult): nat {
    |{HomeKey(m), AwayKey(m)} - known|
  }

  /** Share of the promotion penalty one match spreads over its league. */
  function MatchPenalty(known: set<Key>, m: MatchResult): real {
    if known == {} || Newcomers(known, m) == 0 then 0.0
    else Newcomers(known, m) as real / (|known| + Newcomers(known, m)) as real
  }

  /** Total share of the penalty over a history: a function of who met whom in what order, nothing else. */
  function Penalty(matches: seq<MatchResult>, competition: int): real {
    if matches == [] then 0.0
    else
      var n := |matches| - 1;
      Penalty(matches[..n], competition)
      + if matches[n].competitionId == competition
        then MatchPenalty(Met(matches[..n], competition), matches[n])
        else 0.0
  }

  /*************************** One match ***************************/

  lemma MetAppend(matches: seq<MatchResult>, m: MatchResult, competition: int)
    ensures Met(matches + [m], competition)
         == Met(matches, competition) + if m.competitionId == competition then {HomeKey(m), AwayKey(m)} else {}
  {
    TeamsAppend(matches, m);
  }

  function Join(ratings: Ratings, key: Key, seed: real): Ratings {
    if key in ratings then ratings else ratings[key := seed]
  }

  lemma JoinAdds(ratings: Ratings, key: Key, seed: real)
    ensures MapSum(Join(ratings, key, seed)) == MapSum(ratings) + if key in ratings then 0.0 else seed
    ensures |Join(ratings, key, seed)| == |ratings| + if key in ratings then 0 else 1
    ensures Join(ratings, key, seed).Keys == ratings.Keys + {key}
  {
    MapSumUpdate(ratings, key, seed);
    if key !in ratings {
      assert ratings[key := seed].Keys == ratings.Keys + {key};
      assert |ratings[key := seed]| == |ratings[key := seed].Keys|;
      assert |ratings| == |ratings.Keys|;
    }
  }

  lemma SeededJoins(ratings: Ratings, m: MatchResult)
    ensures League(Seeded(ratings, m), m.competitionId)
         == Join(Join(League(ratings, m.competitionId), HomeKey(m), Seed(ratings, m.competitionId)), AwayKey(m),
                 Seed(ratings, m.competitionId))
  {
    hide Seed;
  }

  lemma NewcomerCount(known: set<Key>, m: MatchResult)
    requires m.homeTeamId != m.awayTeamId
    ensures Newcomers(known, m) == (if HomeKey(m) in known then 0 else 1) + if AwayKey(m) in known then 0 else 1
  {
    var home, away := HomeKey(m), AwayKey(m);
    assert {home, away} - known == (if home in known then {} else {home}) + if away in known then {} else {away};
  }

  /** Seeding adds the seed once per newcomer. */
  lemma SeedingAdds(ratings: Ratings, m: MatchResult)
    requires m.homeTeamId != m.awayTeamId
    ensures var k := Newcomers(League(ratings, m.competitionId).Keys, m);
            && MapSum(League(Seeded(ratings, m), m.competitionId))
               == MapSum(League(ratings, m.competitionId)) + k as real * Seed(ratings, m.competitionId)
            && |League(Seeded(ratings, m), m.competitionId)| == |League(ratings, m.competitionId)| + k
            && League(Seeded(ratings, m), m.competitionId).Keys
               == League(ratings, m.competitionId).Keys + {HomeKey(m), AwayKey(m)}
  {
    hide MapSum, Seed, Seeded, League, Join, Newcomers;
    var before, seed := League(ratings, m.competitionId), Seed(ratings, m.competitionId);
    SeededJoins(ratings, m);
    JoinAdds(before, HomeKey(m), seed);
    JoinAdds(Join(before, HomeKey(m), seed), AwayKey(m), seed);
    NewcomerCount(before.Keys, m);
    assert HomeKey(m) != AwayKey(m);
  }

  lemma LeagueAfterUpdate(curve: Curve, ratings: Ratings, m: MatchResult)
    ensures var before := PreMatch(ratings, m);
            var change := Change(curve, m, before.home, before.away);
            League(Applied(curve, ratings, m), m.competitionId)
            == League(Seeded(ratings, m), m.competitionId)[HomeKey(m) := before.home + change]
                 [AwayKey(m) := before.away - change]
    ensures HomeKey(m) in Seeded(ratings, m) && AwayKey(m) in Seeded(ratings, m)
  {
    hide Seed, Change;
  }

  /** The update itself moves points between the two sides only. */
  lemma UpdateKeepsSum(curve: Curve, ratings: Ratings, m: MatchResult)
    requires m.homeTeamId != m.awayTeamId
    ensures MapSum(League(Applied(curve, ratings, m), m.competitionId))
            == MapSum(League(Seeded(ratings, m), m.competitionId))
    ensures League(Applied(curve, ratings, m), m.competitionId).Keys == League(Seeded(ratings, m), m.competitionId).Keys
  {
    LeagueAfterUpdate(curve, ratings, m);
    hide MapSum, Applied, Seeded, Change, Seed;
    var seeded := League(Seeded(ratings, m), m.competitionId);
    var before := PreMatch(ratings, m);
    var change := Change(curve, m, before.home, before.away);
    var middle := seeded[HomeKey(m) := before.home + change];
    assert seeded[HomeKey(m)] == before.home && middle[AwayKey(m)] == before.away;
    MapSumUpdate(seeded, HomeKey(m), before.home + change);
    MapSumUpdate(middle, AwayKey(m), before.away - change);
  }

  lemma AverageOf(ratings: Ratings, competition: int, average: real)
    requires League(ratings, competition) != map[]
    requires MapSum(League(ratings, competition)) == average * |League(ratings, competition)| as real
    ensures Average(ratings, competition) == average
  {
  }

  lemma SumOfAverage(ratings: Ratings, competition: int)
    requires League(ratings, competition) != map[]
    ensures MapSum(League(ratings, competition))
            == Average(ratings, competition) * |League(ratings, competition)| as real
  {
  }

  lemma DilutedAverage(average: real, n: real, k: real, sum: real)
    requires 0.0 < n && 0.0 <= k && sum == average * n + k * (average - PROMOTED_PENALTY)
    ensures n + k != 0.0 && sum == (average - PROMOTED_PENALTY * (k / (n + k))) * (n + k)
  {
    var share := k / (n + k);
    assert k == share * (n + k);
    assert (average - PROMOTED_PENALTY * share) * (n + k) == average * (n + k) - PROMOTED_PENALTY * (share * (n + k));
  }

  /**
   One match moves its league's average only through newcomers: k of them joining n rated teams pull
   it down by exactly 50k/(n+k); the very first pair starts it at 1500.
   */
  lemma ApplyMovesAverage(curve: Curve, ratings: Ratings, m: MatchResult)
    requires m.homeTeamId != m.awayTeamId
    ensures var before, after := League(ratings, m.competitionId), League(Applied(curve, ratings, m), m.competitionId);
            && after != map[] && after.Keys == before.Keys + {HomeKey(m), AwayKey(m)}
            && (before == map[] ==> Average(Applied(curve, ratings, m), m.competitionId) == 1500.0)
            && (before != map[] ==>
                  Average(Applied(curve, ratings, m), m.competitionId)
                      == Average(ratings, m.competitionId) - 50.0 * MatchPenalty(before.Keys, m))
  {
    var c := m.competitionId;
    var before, after := League(ratings, c), League(Applied(curve, ratings, m), c);
    AfterApply(curve, ratings, m);
    hide Applied, MapSum, Average, Seed, League, Newcomers;
    SeedCases(ratings, c);
    assert HomeKey(m) in after.Keys;
    if before == map[] {
      FirstPair(before, m);
      AverageOf(Applied(curve, ratings, m), c, DEFAULT_RATING);
    } else {
      Diluted(ratings, Applied(curve, ratings, m), m);
    }
  }

  /** Newcomers at a penalty below the average pull it down by their share of the penalty. */
  lemma Diluted(ratings: Ratings, applied: Ratings, m: MatchResult)
    requires var before, after := League(ratings, m.competitionId), League(applied, m.competitionId);
             && before != map[] && after != map[]
             && MapSum(after) == MapSum(before) + Newcomers(before.Keys, m) as real * Seed(ratings, m.competitionId)
             && |after| == |before| + Newcomers(before.Keys, m)
    ensures Average(applied, m.competitionId)
         == Average(ratings, m.competitionId)
              - PROMOTED_PENALTY * MatchPenalty(League(ratings, m.competitionId).Keys, m)
  {
    hide MapSum, Average, Seed, League, Newcomers, MatchPenalty;
    var c := m.competitionId;
    var before := League(ratings, c);
    var n, k, average := |before| as real, Newcomers(before.Keys, m) as real, Average(ratings, c);
    SumOfAverage(ratings, c);
    SeedCases(ratings, c);
    PenaltyOf(before, m);
    var share := MatchPenalty(before.Keys, m);
    assert MapSum(League(applied, c)) == (average - PROMOTED_PENALTY * share) * (n + k) by {
      DilutedAverage(average, n, k, MapSum(League(applied, c)));
    }
    AverageOf(applied, c, average - PROMOTED_PENALTY * share);
  }

  lemma AfterApply(curve: Curve, ratings: Ratings, m: MatchResult)
    requires m.homeTeamId != m.awayTeamId
    ensures var before, after := League(ratings, m.competitionId), League(Applied(curve, ratings, m), m.competitionId);
            && MapSum(after) == MapSum(before) + Newcomers(before.Keys, m) as real * Seed(ratings, m.competitionId)
            && |after| == |before| + Newcomers(before.Keys, m)
            && after.Keys == before.Keys + {HomeKey(m), AwayKey(m)}
  {
    hide Applied, Seeded, MapSum, Seed, League, Newcomers;
    SeedingAdds(ratings, m);
    UpdateKeepsSum(curve, ratings, m);
    SameKeysSameSize(League(Applied(curve, ratings, m), m.competitionId), League(Seeded(ratings, m), m.competitionId));
  }

  lemma SameKeysSameSize(a: Ratings, b: Ratings)
    requires a.Keys == b.Keys
    ensures |a| == |b|
  {
    assert |a| == |a.Keys| && |b| == |b.Keys|;
  }

  lemma FirstPair(before: Ratings, m: MatchResult)
    requires before == map[] && m.homeTeamId != m.awayTeamId
    ensures MapSum(before) == 0.0 && |before| == 0 && Newcomers(before.Keys, m) == 2
  {
    NewcomerCount(before.Keys, m);
  }

  lemma PenaltyOf(before: Ratings, m: MatchResult)
    requires before != map[]
    ensures 0 < |before|
    ensures MatchPenalty(before.Keys, m)
            == Newcomers(before.Keys, m) as real / (|before| as real + Newcomers(before.Keys, m) as real)
  {
    hide Newcomers;
    assert |before.Keys| == |before|;
    var key :| key in before;
    assert key in before.Keys;
  }

  lemma SeedCases(ratings: Ratings, competition: int)
    ensures League(ratings, competition) == map[] ==> Seed(ratings, competition) == DEFAULT_RATING
    ensures League(ratings, competition) != map[]
            ==> Seed(ratings, competition) == Average(ratings, competition) - PROMOTED_PENALTY
  {
  }

  /*************************** A whole replay ***************************/

  /** After any replay the league holds exactly the teams met, averaging 1500 minus 50 per unit of penalty. */
  lemma {:induction false} ReplayAverage(curve: Curve, matches: seq<MatchResult>, competition: int)
    requires TeamsDiffer(matches)
    ensures League(Replay(curve, matches), competition).Keys == Met(matches, competition)
    ensures Met(matches, competition) == {} ==> Penalty(matches, competition) == 0.0
    ensures Met(matches, competition) != {} ==>
              && League(Replay(curve, matches), competition) != map[]
              && Average(Replay(curve, matches), competition)
                 == 1500.0 - 50.0 * Penalty(matches, competition)
  {
    hide Applied, Average, MatchPenalty, Met, Teams;
    if matches == [] {
      NobodyMet(competition);
      assert League(map[], competition) == map[];
    } else {
      var n := |matches| - 1;
      var m, ratings := matches[n], Replay(curve, matches[..n]);
      ReplayAverage(curve, matches[..n], competition);
      assert matches == matches[..n] + [m];
      MetAppend(matches[..n], m, competition);
      NoPenalty(m);
      if m.competitionId == competition {
        ApplyMovesAverage(curve, ratings, m);
        assert HomeKey(m) in Met(matches, competition);
        assert League(ratings, competition) == map[] <==> Met(matches[..n], competition) == {};
      } else {
        AppliedOutside(curve, ratings, m, competition);
        SameAverage(ratings, Applied(curve, ratings, m), competition);
      }
    }
  }

  lemma NobodyMet(competition: int)
    ensures Met([], competition) == {}
  {
  }

  lemma NoPenalty(m: MatchResult)
    ensures MatchPenalty({}, m) == 0.0
  {
  }

  lemma SameAverage(ratings: Ratings, other: Ratings, competition: int)
    requires League(ratings, competition) == League(other, competition)
    ensures League(ratings, competition) != map[] ==> Average(ratings, competition) == Average(other, competition)
  {
  }

  /** Same fixtures in the same order, whatever the goals, dates and ids. */
  ghost predicate SameFixtures(matches: seq<MatchResult>, other: seq<MatchResult>) {
    && |matches| == |other|
    && (forall i | 0 <= i < |matches| ::
        HomeKey(matches[i]) == HomeKey(other[i]) && AwayKey(matches[i]) == AwayKey(other[i]))
  }

  lemma {:induction false} SamePenalty(matches: seq<MatchResult>, other: seq<MatchResult>, competition: int)
    requires SameFixtures(matches, other)
    ensures Met(matches, competition) == Met(other, competition)
    ensures Penalty(matches, competition) == Penalty(other, competition)
  {
    hide MatchPenalty;
    if matches == [] {
      NobodyMet(competition);
    } else {
      var n := |matches| - 1;
      SamePenalty(matches[..n], other[..n], competition);
      assert matches == matches[..n] + [matches[n]] && other == other[..n] + [other[n]];
      MetAppend(matches[..n], matches[n], competition);
      MetAppend(other[..n], other[n], competition);
      PenaltyOfKeys(Met(matches[..n], competition), matches[n], other[n]);
    }
  }

  lemma PenaltyOfKeys(known: set<Key>, m: MatchResult, other: MatchResult)
    requires HomeKey(m) == HomeKey(other) && AwayKey(m) == AwayKey(other)
    ensures MatchPenalty(known, m) == MatchPenalty(known, other)
  {
  }

  /** Results cannot move a league's average: two seasons with the same fixtures end on the same one. */
  lemma AverageIgnoresResults(curve: Curve, matches: seq<MatchResult>, curve': Curve, other: seq<MatchResult>,
                              competition: int)
    requires TeamsDiffer(matches) && TeamsDiffer(other) && SameFixtures(matches, other)
    ensures League(Replay(curve, matches), competition).Keys == League(Replay(curve', other), competition).Keys
    ensures League(Replay(curve, matches), competition) != map[] ==>
              League(Replay(curve', other), competition) != map[]
              && Average(Replay(curve, matches), competition) == Average(Replay(curve', other), competition)
  {
    hide Replay, Average, Penalty, Met, TeamsDiffer, SameFixtures;
    ReplayAverage(curve, matches, competition);
    ReplayAverage(curve', other, competition);
    SamePenalty(matches, other, competition);
    KeysOfMap(League(Replay(curve, matches), competition));
  }

  lemma KeysOfMap(m: Ratings)
    ensures m == map[] <==> m.Keys == {}
  {
  }

  /*************************** How far it can fall ***************************/

  function Harmonic(n: nat): real {
    if n == 0 then 0.0 else Harmonic(n - 1) + 1.0 / n as real
  }

  lemma NewcomerBounds(known: set<Key>, m: MatchResult)
    ensures Newcomers(known, m) <= 2
    ensures |known + {HomeKey(m), AwayKey(m)}| == |known| + Newcomers(known, m)
    ensures m.homeTeamId != m.awayTeamId && known == {} ==> Newcomers(known, m) == 2
  {
    var joining := {HomeKey(m), AwayKey(m)} - known;
    assert joining <= {HomeKey(m), AwayKey(m)};
    SubsetSize(joining, {HomeKey(m), AwayKey(m)});
    assert known + {HomeKey(m), AwayKey(m)} == known + joining;
    if m.homeTeamId != m.awayTeamId && known == {} {
      assert joining == {HomeKey(m), AwayKey(m)};
    }
  }

  lemma {:induction false} SubsetSize(a: set<Key>, b: set<Key>)
    requires a <= b
    ensures |a| <= |b|
  {
    assert b == a + (b - a);
  }

  /** A pair arriving together costs no more than the two arriving one after the other. */
  lemma PenaltyStep(n: nat, k: nat)
    requires 2 <= n && k <= 2
    ensures 0.0 <= k as real / (n + k) as real <= Harmonic(n + k) - Harmonic(n)
  {
    var x := n as real;
    if k == 1 {
      assert Harmonic(n + 1) == Harmonic(n) + 1.0 / (n + 1) as real;
    } else if k == 2 {
      assert Harmonic(n + 2) == Harmonic(n + 1) + 1.0 / (n + 2) as real;
      assert Harmonic(n + 1) == Harmonic(n) + 1.0 / (n + 1) as real;
      CrossMultiply(1.0, x + 2.0, 1.0, x + 1.0);
      assert 2.0 / (x + 2.0) == 1.0 / (x + 2.0) + 1.0 / (x + 2.0);
    }
  }

  lemma {:induction false} PenaltyBounds(matches: seq<MatchResult>, competition: int)
    requires TeamsDiffer(matches)
    ensures Met(matches, competition) == {} || 2 <= |Met(matches, competition)|
    ensures 0.0 <= Penalty(matches, competition)
    ensures Met(matches, competition) == {} ==> Penalty(matches, competition) == 0.0
    ensures Met(matches, competition) != {}
            ==> Penalty(matches, competition) <= Harmonic(|Met(matches, competition)|) - 1.5
  {
    hide Met, Harmonic, Newcomers;
    if matches == [] {
      NobodyMet(competition);
    } else {
      var n := |matches| - 1;
      var m := matches[n];
      var known := Met(matches[..n], competition);
      PenaltyBounds(matches[..n], competition);
      assert matches == matches[..n] + [m];
      MetAppend(matches[..n], m, competition);
      assert m.homeTeamId != m.awayTeamId;
      if m.competitionId == competition {
        NewcomerBounds(known, m);
        assert HomeKey(m) in Met(matches, competition);
        if known == {} {
          HarmonicTwo();
        } else {
          PenaltyStep(|known|, Newcomers(known, m));
        }
      }
    }
  }

  lemma HarmonicTwo()
    ensures Harmonic(2) == 1.5
  {
    assert Harmonic(1) == Harmonic(0) + 1.0;
    assert Harmonic(2) == Harmonic(1) + 1.0 / 2.0;
  }

  /** Over any replay a league of T teams averages between 1500 - 50(H_T - 3/2) and 1500. */
  lemma AverageBounds(curve: Curve, matches: seq<MatchResult>, competition: int)
    requires TeamsDiffer(matches) && Met(matches, competition) != {}
    ensures League(Replay(curve, matches), competition) != map[]
    ensures var average := Average(Replay(curve, matches), competition);
            var teams := |League(Replay(curve, matches), competition)|;
            1500.0 - 50.0 * (Harmonic(teams) - 1.5) <= average <= 1500.0
  {
    hide Replay, Average, Penalty, Met, TeamsDiffer, Harmonic;
    ReplayAverage(curve, matches, competition);
    PenaltyBounds(matches, competition);
    assert |League(Replay(curve, matches), competition)| == |League(Replay(curve, matches), competition).Keys|;
  }

  /**
   Only the two teams of a competition's first match start at 1500. Everyone who arrives
   later is seeded at least a full penalty below it, in their first season as much as on promotion.
   */
  lemma SeedIsDefaultOnlyAtTheStart(curve: Curve, matches: seq<MatchResult>, competition: int)
    requires TeamsDiffer(matches)
    ensures Seed(Replay(curve, matches), competition) == 1500.0 <==> Met(matches, competition) == {}
    ensures Met(matches, competition) != {}
            ==> Seed(Replay(curve, matches), competition) <= 1450.0
  {
    hide Replay, Average, Met, TeamsDiffer, Harmonic;
    ReplayAverage(curve, matches, competition);
    KeysOfMap(League(Replay(curve, matches), competition));
    if Met(matches, competition) != {} {
      AverageBounds(curve, matches, competition);
    }
  }
}
