/** The Elo rating loop: seeding, one match, and the replay of a sorted history. */
module Elo {
  import opened MapSums
  import opened MatchHistory

  const DEFAULT_RATING: real := 1500.0
  const K_FACTOR: real := 20.0
  const PROMOTED_PENALTY: real := 50.0

  type Ratings = map<Key, real>

  datatype RatingSnapshot = RatingSnapshot(matchId: int, home: real, away: real)

  /** The logistic expectation and the margin multiplier, both taken as given. */
  datatype Curve = Curve(expected: (real, real) -> real, multiplier: nat -> real) {

    ghost predicate Valid() {
      && (forall home, away :: 0.0 < expected(home, away) < 1.0)
      && (forall margin: nat | 1 <= margin :: 1.0 <= multiplier(margin))
    }
  }

  /*************************** Seeding ***************************/

  /** The entries of one competition. */
  function League(ratings: Ratings, competition: int): Ratings {
    map key | key in ratings && key.competition == competition :: ratings[key]
  }

  ghost function Average(ratings: Ratings, competition: int): real
    requires League(ratings, competition) != map[]
  {
    MapSum(League(ratings, competition)) / |League(ratings, competition)| as real
  }

  ghost function Seed(ratings: Ratings, competition: int): real {
    if League(ratings, competition) == map[] then DEFAULT_RATING
    else Average(ratings, competition) - PROMOTED_PENALTY
  }

  /** Taking one entry out takes it out of its own league only. */
  lemma LeagueWithout(ratings: Ratings, competition: int, key: Key)
    requires key in ratings
    ensures var league, rest := League(ratings, competition), League(ratings - {key}, competition);
            if key.competition == competition
            then MapSum(league) == MapSum(rest) + ratings[key] && |league| == |rest| + 1
            else rest == league
  {
    hide MapSum;
    var league := League(ratings, competition);
    if key.competition == competition {
      MapSumRemove(league, key);
      assert league - {key} == League(ratings - {key}, competition);
      assert league.Keys == (league - {key}).Keys + {key};
      assert |league| == |league.Keys| && |league - {key}| == |(league - {key}).Keys|;
    } else {
      assert league == League(ratings - {key}, competition);
    }
  }

  lemma EmptyLeague(competition: int)
    ensures MapSum(League(map[], competition)) == 0.0 && |League(map[], competition)| == 0
  {
    assert League(map[], competition) == map[];
  }

  lemma SeedFromSum(ratings: Ratings, competition: int, sum: real, count: nat)
    requires sum == MapSum(League(ratings, competition)) && count == |League(ratings, competition)|
    ensures Seed(ratings, competition) == if count == 0 then DEFAULT_RATING else sum / count as real - PROMOTED_PENALTY
  {
    hide MapSum, League;
  }

  /** `seed_rating`: one pass over the live ratings of the competition. */
  method SeedRating(ratings: Ratings, competition: int) returns (seed: real)
    ensures seed == Seed(ratings, competition)
  {
    hide MapSum, League, Seed;
    var sum, count := 0.0, 0;
    var rest := ratings;
    while rest != map[]
      invariant rest.Keys <= ratings.Keys && forall key | key in rest :: rest[key] == ratings[key]
      invariant sum + MapSum(League(rest, competition)) == MapSum(League(ratings, competition))
      invariant count + |League(rest, competition)| == |League(ratings, competition)|
      decreases |rest|
    {
      var key :| key in rest;
      LeagueWithout(rest, competition, key);
      if key.competition == competition {
        sum := sum + rest[key];
        count := count + 1;
      }
      rest := rest - {key};
    }
    EmptyLeague(competition);
    SeedFromSum(ratings, competition, sum, count);
    if count == 0 {
      seed := DEFAULT_RATING;
    } else {
      seed := sum / count as real - PROMOTED_PENALTY;
    }
  }

  /*************************** One match ***************************/

  /** `setdefault` for both sides, from one seed computed before either insert. */
  ghost function Seeded(ratings: Ratings, m: MatchResult): Ratings {
    var seed := Seed(ratings, m.competitionId);
    var withHome := if HomeKey(m) in ratings then ratings else ratings[HomeKey(m) := seed];
    if AwayKey(m) in withHome then withHome else withHome[AwayKey(m) := seed]
  }

  /** Both ratings as they stand at kickoff. */
  ghost function PreMatch(ratings: Ratings, m: MatchResult): RatingSnapshot {
    RatingSnapshot(m.matchId, Seeded(ratings, m)[HomeKey(m)], Seeded(ratings, m)[AwayKey(m)])
  }

  /** Points the home side gains. */
  function Change(curve: Curve, m: MatchResult, home: real, away: real): real {
    var actual := if m.homeGoals > m.awayGoals then 1.0 else if m.homeGoals < m.awayGoals then 0.0 else 0.5;
    var margin := if m.homeGoals >= m.awayGoals then m.homeGoals - m.awayGoals else m.awayGoals - m.homeGoals;
    var multiplier := if margin == 0 then 1.0 else curve.multiplier(margin);
    K_FACTOR * multiplier * (actual - curve.expected(home, away))
  }

  ghost function Applied(curve: Curve, ratings: Ratings, m: MatchResult): Ratings {
    var before := PreMatch(ratings, m);
    var change := Change(curve, m, before.home, before.away);
    Seeded(ratings, m)[HomeKey(m) := before.home + change][AwayKey(m) := before.away - change]
  }

  /** A match leaves every other competition alone. */
  lemma AppliedOutside(curve: Curve, ratings: Ratings, m: MatchResult, competition: int)
    requires m.competitionId != competition
    ensures League(Applied(curve, ratings, m), competition) == League(ratings, competition)
  {
  }

  /*************************** A replay ***************************/

  ghost function Replay(curve: Curve, matches: seq<MatchResult>): Ratings {
    if matches == [] then map[]
    else
      var n := |matches| - 1;
      Applied(curve, Replay(curve, matches[..n]), matches[n])
  }

  ghost function Snapshots(curve: Curve, matches: seq<MatchResult>): (s: seq<RatingSnapshot>)
    ensures |s| == |matches|
  {
    if matches == [] then []
    else
      var n := |matches| - 1;
      Snapshots(curve, matches[..n]) + [PreMatch(Replay(curve, matches[..n]), matches[n])]
  }

  /** Chronological order with the match id as tie-break. */
  predicate Before(m: MatchResult, other: MatchResult) {
    m.utcDate < other.utcDate || (m.utcDate == other.utcDate && m.matchId < other.matchId)
  }

  function Insert(m: MatchResult, sorted: seq<MatchResult>): seq<MatchResult> {
    if sorted == [] then [m]
    else
      var n := |sorted| - 1;
      if Before(m, sorted[n]) then Insert(m, sorted[..n]) + [sorted[n]] else sorted + [m]
  }

  /** The stable sort by (utc_date, match_id). */
  function Sorted(matches: seq<MatchResult>): seq<MatchResult> {
    if matches == [] then []
    else Insert(matches[|matches| - 1], Sorted(matches[..|matches| - 1]))
  }

  class EloState {
    var ratings: Ratings
    var snapshots: seq<RatingSnapshot>

    constructor ()
      ensures ratings == map[] && snapshots == []
    {
      ratings, snapshots := map[], [];
    }

    /** `apply_match`: mutates the rating map in place and reports the ratings from before. */
    method ApplyMatch(curve: Curve, m: MatchResult) returns (snapshot: RatingSnapshot)
      modifies `ratings
      ensures ratings == Applied(curve, old(ratings), m)
      ensures snapshot == PreMatch(old(ratings), m)
    {
      var home, away := HomeKey(m), AwayKey(m);
      if home !in ratings || away !in ratings {
        var seed := SeedRating(ratings, m.competitionId);
        if home !in ratings { ratings := ratings[home := seed]; }
        if away !in ratings { ratings := ratings[away := seed]; }
      }
      var ratingHome, ratingAway := ratings[home], ratings[away];
      snapshot := RatingSnapshot(m.matchId, ratingHome, ratingAway);
      var change := Change(curve, m, ratingHome, ratingAway);
      ratings := ratings[home := ratingHome + change];
      ratings := ratings[away := ratingAway - change];
    }
  }

  /** `run`: sort, then replay match by match. */
  method Run(curve: Curve, matches: seq<MatchResult>) returns (state: EloState)
    ensures fresh(state)
    ensures state.ratings == Replay(curve, Sorted(matches))
    ensures state.snapshots == Snapshots(curve, Sorted(matches))
  {
    state := new EloState();
    var sorted := Sorted(matches);
    for i := 0 to |sorted|
      invariant fresh(state)
      invariant state.ratings == Replay(curve, sorted[..i])
      invariant state.snapshots == Snapshots(curve, sorted[..i])
    {
      assert sorted[..i + 1][..i] == sorted[..i];
      var snapshot := state.ApplyMatch(curve, sorted[i]);
      state.snapshots := state.snapshots + [snapshot];
    }
    assert sorted[..|sorted|] == sorted;
  }

  /*************************** The two ratings move apart by the result ***************************/

  /**
   A win lifts the winner and costs the loser exactly as much; a draw moves toward the underdog; and
   no result moves anyone by K times the margin's multiplier or more.
   */
  lemma ResultMovesRatings(curve: Curve, ratings: Ratings, m: MatchResult)
    requires curve.Valid() && m.homeTeamId != m.awayTeamId
    ensures var before, after := PreMatch(ratings, m), Applied(curve, ratings, m);
            && after[HomeKey(m)] + after[AwayKey(m)] == before.home + before.away
            && (m.homeGoals > m.awayGoals ==> before.home < after[HomeKey(m)])
            && (m.homeGoals < m.awayGoals ==> after[HomeKey(m)] < before.home)
            && (m.homeGoals == m.awayGoals
                ==> (before.home < after[HomeKey(m)] <==> curve.expected(before.home, before.away) < 0.5))
            && (m.homeGoals == m.awayGoals ==> -K_FACTOR < after[HomeKey(m)] - before.home < K_FACTOR)
            && (m.homeGoals > m.awayGoals
                ==> after[HomeKey(m)] - before.home < K_FACTOR * curve.multiplier(m.homeGoals - m.awayGoals))
            && (m.homeGoals < m.awayGoals
                ==> before.home - after[HomeKey(m)] < K_FACTOR * curve.multiplier(m.awayGoals - m.homeGoals))
            && (forall key | key in ratings && key != HomeKey(m) && key != AwayKey(m) ::
                key in after && after[key] == ratings[key])
  {
    var before := PreMatch(ratings, m);
    ChangeBounds(curve, m, before.home, before.away);
    hide Change;
  }

  /**
   The exact size of every move: 20 times the margin's multiplier times how far the result was from the
   expectation; a draw counts half a win and has no margin to scale by.
   */
  lemma ExactMoves(curve: Curve, ratings: Ratings, m: MatchResult)
    requires m.homeTeamId != m.awayTeamId
    ensures var before, after := PreMatch(ratings, m), Applied(curve, ratings, m);
            var gain, e := after[HomeKey(m)] - before.home, curve.expected(before.home, before.away);
            && (m.homeGoals > m.awayGoals ==> gain == 20.0 * curve.multiplier(m.homeGoals - m.awayGoals) * (1.0 - e))
            && (m.homeGoals < m.awayGoals ==> gain == -(20.0 * curve.multiplier(m.awayGoals - m.homeGoals) * e))
            && (m.homeGoals == m.awayGoals ==> gain == 20.0 * (0.5 - e))
            && after[AwayKey(m)] == before.away - gain
  {
    var before := PreMatch(ratings, m);
    ChangeIs(curve, m, before.home, before.away);
    hide Change, Seeded;
  }

  lemma ChangeIs(curve: Curve, m: MatchResult, home: real, away: real)
    ensures var change, e := Change(curve, m, home, away), curve.expected(home, away);
            && (m.homeGoals > m.awayGoals ==> change == 20.0 * curve.multiplier(m.homeGoals - m.awayGoals) * (1.0 - e))
            && (m.homeGoals < m.awayGoals ==> change == -(20.0 * curve.multiplier(m.awayGoals - m.homeGoals) * e))
            && (m.homeGoals == m.awayGoals ==> change == 20.0 * (0.5 - e))
  {
    var e := curve.expected(home, away);
    if m.homeGoals < m.awayGoals {
      var k := K_FACTOR * curve.multiplier(m.awayGoals - m.homeGoals);
      assert Change(curve, m, home, away) == k * (0.0 - e) == -(k * e);
    }
  }

  /** The same fixture, whatever its date and score. */
  predicate SameSides(m: MatchResult, other: MatchResult) {
    m.competitionId == other.competitionId && m.homeTeamId == other.homeTeamId && m.awayTeamId == other.awayTeamId
  }

  /** A home win and a home defeat by the same margin leave the home side 20 multipliers apart. */
  lemma WinAndDefeatApart(curve: Curve, ratings: Ratings, win: MatchResult, defeat: MatchResult, margin: nat)
    requires SameSides(win, defeat) && win.homeTeamId != win.awayTeamId && 1 <= margin
    requires win.homeGoals == win.awayGoals + margin && defeat.awayGoals == defeat.homeGoals + margin
    ensures Applied(curve, ratings, win)[HomeKey(win)] - Applied(curve, ratings, defeat)[HomeKey(win)]
         == 20.0 * curve.multiplier(margin)
  {
    ExactMoves(curve, ratings, win);
    ExactMoves(curve, ratings, defeat);
    hide Applied, Seed;
    var before := PreMatch(ratings, win);
    assert PreMatch(ratings, defeat).home == before.home && PreMatch(ratings, defeat).away == before.away;
    hide PreMatch;
    var k, e := 20.0 * curve.multiplier(margin), curve.expected(before.home, before.away);
    assert k * (1.0 - e) + k * e == k;
  }

  /** Two wins of the same fixture gain in the ratio of their margins' multipliers. */
  lemma GainsInProportion(curve: Curve, ratings: Ratings, win: MatchResult, other: MatchResult)
    requires SameSides(win, other) && win.homeTeamId != win.awayTeamId
    requires win.awayGoals < win.homeGoals && other.awayGoals < other.homeGoals
    ensures var start := PreMatch(ratings, win).home;
            (Applied(curve, ratings, win)[HomeKey(win)] - start) * curve.multiplier(other.homeGoals - other.awayGoals)
            == (Applied(curve, ratings, other)[HomeKey(win)] - start) * curve.multiplier(win.homeGoals - win.awayGoals)
  {
    ExactMoves(curve, ratings, win);
    ExactMoves(curve, ratings, other);
    hide Applied, Seed;
    var before := PreMatch(ratings, win);
    assert PreMatch(ratings, other).home == before.home && PreMatch(ratings, other).away == before.away;
    hide PreMatch;
    InProportion(curve.multiplier(win.homeGoals - win.awayGoals), curve.multiplier(other.homeGoals - other.awayGoals),
                 1.0 - curve.expected(before.home, before.away));
  }

  lemma InProportion(a: real, b: real, x: real)
    ensures (20.0 * a * x) * b == (20.0 * b * x) * a
  {
    var u := a * x;
    assert u * b == (b * x) * a;
  }

  lemma ChangeBounds(curve: Curve, m: MatchResult, home: real, away: real)
    requires curve.Valid()
    ensures var change := Change(curve, m, home, away);
            && (m.homeGoals > m.awayGoals ==> 0.0 < change < K_FACTOR * curve.multiplier(m.homeGoals - m.awayGoals))
            && (m.homeGoals < m.awayGoals ==> 0.0 < -change < K_FACTOR * curve.multiplier(m.awayGoals - m.homeGoals))
            && (m.homeGoals == m.awayGoals
                ==> -K_FACTOR < change < K_FACTOR && (0.0 < change <==> curve.expected(home, away) < 0.5))
  {
    var e := curve.expected(home, away);
    if m.homeGoals > m.awayGoals {
      Scaled(K_FACTOR * curve.multiplier(m.homeGoals - m.awayGoals), 1.0 - e);
    } else if m.homeGoals < m.awayGoals {
      var k := K_FACTOR * curve.multiplier(m.awayGoals - m.homeGoals);
      Scaled(k, e);
      assert Change(curve, m, home, away) == k * (0.0 - e) == -(k * e);
    }
  }

  lemma Scaled(k: real, x: real)
    requires 0.0 < k && 0.0 < x < 1.0
    ensures 0.0 < k * x < k
  {
    assert 0.0 < k * (1.0 - x);
  }

  /** The pair `process_job` stores is the snapshot the loop would take for the fixture, rated sides or not. */
  lemma HandlerPairIsSnapshot(ratings: Ratings, fixture: MatchResult)
    ensures var seed := Seed(ratings, fixture.competitionId);
            PreMatch(ratings, fixture)
                == RatingSnapshot(fixture.matchId, GetOr(ratings, HomeKey(fixture), seed),
                                  GetOr(ratings, AwayKey(fixture), seed))
  {
  }
}
