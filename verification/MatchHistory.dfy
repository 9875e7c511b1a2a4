/** Finished matches, the input both engines are rebuilt from. */
module MatchHistory {

  /** Goals are the nonnegative counts the match table's CHECKs admit; dates are seconds. */
  datatype MatchResult = MatchResult(
    matchId: int, competitionId: int, utcDate: int,
    homeTeamId: int, awayTeamId: int,
    homeGoals: nat, awayGoals: nat)

  /** Ratings and strengths are kept per team and competition. */
  datatype Key = Key(team: int, competition: int)

  function HomeKey(m: MatchResult): Key { Key(m.homeTeamId, m.competitionId) }

  function AwayKey(m: MatchResult): Key { Key(m.awayTeamId, m.competitionId) }

  /** The teams a history mentions. */
  function Teams(history: seq<MatchResult>): set<Key> {
    (set i | 0 <= i < |history| :: HomeKey(history[i])) + (set i | 0 <= i < |history| :: AwayKey(history[i]))
  }

  /** One more match adds its two teams. */
  lemma {:induction false} TeamsAppend(history: seq<MatchResult>, m: MatchResult)
    ensures Teams(history + [m]) == Teams(history) + {HomeKey(m), AwayKey(m)}
  {
    var next := history + [m];
    assert next[|history|] == m;
    assert forall i | 0 <= i < |history| :: next[i] == history[i];
    forall key | key in Teams(history) ensures key in Teams(next) {
      var i :| 0 <= i < |history| && (key == HomeKey(history[i]) || key == AwayKey(history[i]));
      assert next[i] == history[i];
    }
    assert HomeKey(next[|history|]) in Teams(next) && AwayKey(next[|history|]) in Teams(next);
  }
}
