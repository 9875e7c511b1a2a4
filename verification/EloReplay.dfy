/** Replays are reproducible, causal and isolated by competition. */
module EloReplay {
  import opened MatchHistory
  import opened Elo

  /*************************** The chronological sort ***************************/

  ghost predicate Chronological(matches: seq<MatchResult>) {
    forall i, j | 0 <= i < j < |matches| :: !Before(matches[j], matches[i])
  }

  lemma {:induction false} InsertPermutes(m: MatchResult, sorted: seq<MatchResult>)
    ensures multiset(Insert(m, sorted)) == multiset(sorted) + multiset{m}
  {
    if sorted != [] {
      var n := |sorted| - 1;
      InsertPermutes(m, sorted[..n]);
      assert sorted == sorted[..n] + [sorted[n]];
    }
  }

  lemma {:induction false} SortedPermutes(matches: seq<MatchResult>)
    ensures multiset(Sorted(matches)) == multiset(matches)
  {
    if matches != [] {
      var n := |matches| - 1;
      SortedPermutes(matches[..n]);
      InsertPermutes(matches[n], Sorted(matches[..n]));
      assert matches == matches[..n] + [matches[n]];
    }
  }

  lemma {:induction false} InsertOrdered(m: MatchResult, sorted: seq<MatchResult>)
    requires Chronological(sorted)
    ensures Chronological(Insert(m, sorted))
  {
    if sorted != [] {
      var n := |sorted| - 1;
      if Before(m, sorted[n]) {
        var front := Insert(m, sorted[..n]);
        InsertOrdered(m, sorted[..n]);
        InsertPermutes(m, sorted[..n]);
        forall i | 0 <= i < |front| ensures !Before(sorted[n], front[i]) {
          assert front[i] in multiset(front);
          assert front[i] == m || front[i] in sorted[..n];
        }
      } else {
        forall i | 0 <= i < |sorted| ensures !Before(m, sorted[i]) {
          assert i < n ==> !Before(sorted[n], sorted[i]);
        }
      }
    }
  }

  lemma {:induction false} SortedOrdered(matches: seq<MatchResult>)
    ensures Chronological(Sorted(matches))
  {
    if matches != [] {
      SortedOrdered(matches[..|matches| - 1]);
      InsertOrdered(matches[|matches| - 1], Sorted(matches[..|matches| - 1]));
    }
  }

  /** Earlier kickoffs come first, and at one kickoff the lower id does; snapshots carry the ids in that order. */
  lemma {:induction false} TiesByAscendingId(curve: Curve, matches: seq<MatchResult>, i: nat, j: nat)
    requires i < j < |matches|
    ensures |Sorted(matches)| == |matches|
    ensures var s := Sorted(matches);
            && s[i].utcDate <= s[j].utcDate
            && (s[i].utcDate == s[j].utcDate ==> s[i].matchId <= s[j].matchId)
            && Snapshots(curve, s)[i].matchId == s[i].matchId && Snapshots(curve, s)[j].matchId == s[j].matchId
  {
    var s := Sorted(matches);
    SortedPermutes(matches);
    SortedOrdered(matches);
    assert |s| == |multiset(s)| == |multiset(matches)| == |matches|;
    assert !Before(s[j], s[i]);
    SnapshotIds(curve, s, i);
    SnapshotIds(curve, s, j);
  }

  lemma {:induction false} SnapshotIds(curve: Curve, matches: seq<MatchResult>, i: nat)
    requires i < |matches|
    ensures Snapshots(curve, matches)[i].matchId == matches[i].matchId
  {
    hide Seeded, Replay;
    var n := |matches| - 1;
    if i < n { SnapshotIds(curve, matches[..n], i); }
  }

  /** Match ids are primary keys: no two matches of a history share one. */
  ghost predicate UniqueIds(matches: seq<MatchResult>) {
    forall i, j | 0 <= i < j < |matches| :: matches[i].matchId != matches[j].matchId
  }

  ghost predicate Strict(matches: seq<MatchResult>) {
    forall i, j | 0 <= i < j < |matches| :: Before(matches[i], matches[j])
  }

  lemma LastAgrees(a: seq<MatchResult>, b: seq<MatchResult>)
    requires Strict(a) && Strict(b) && multiset(a) == multiset(b) && a != []
    ensures b != [] && a[|a| - 1] == b[|b| - 1]
  {
    assert |a| == |multiset(a)| == |multiset(b)| == |b|;
    var n := |a| - 1;
    assert a[n] in multiset(b) && b[n] in multiset(a);
    var i :| 0 <= i < |b| && b[i] == a[n];
    var j :| 0 <= j < |a| && a[j] == b[n];
    assert j < n ==> Before(a[j], a[n]);
    assert i < n ==> Before(b[i], b[n]);
  }

  lemma {:induction false} OnlyOneStrictOrder(a: seq<MatchResult>, b: seq<MatchResult>)
    requires Strict(a) && Strict(b) && multiset(a) == multiset(b)
    ensures a == b
    decreases |a|
  {
    hide Before, Strict;
    assert |a| == |multiset(a)| == |multiset(b)| == |b|;
    if a != [] {
      var n := |a| - 1;
      LastAgrees(a, b);
      DropLast(a);
      DropLast(b);
      OnlyOneStrictOrder(a[..n], b[..n]);
      assert a == a[..n] + [a[n]] && b == b[..n] + [b[n]];
    }
  }

  lemma DropLast(a: seq<MatchResult>)
    requires a != [] && Strict(a)
    ensures multiset(a[..|a| - 1]) == multiset(a) - multiset{a[|a| - 1]}
    ensures Strict(a[..|a| - 1])
  {
    assert a == a[..|a| - 1] + [a[|a| - 1]];
  }

  lemma UniqueIdsCount(matches: seq<MatchResult>, m: MatchResult)
    requires UniqueIds(matches)
    ensures multiset(matches)[m] <= 1
    ensures forall other | other in matches && m in matches && other.matchId == m.matchId :: other == m
  {
    if matches != [] {
      var n := |matches| - 1;
      assert matches == matches[..n] + [matches[n]];
      UniqueIdsCount(matches[..n], m);
      if matches[n] == m {
        assert m !in matches[..n];
        assert m !in multiset(matches[..n]);
      }
    }
  }

  lemma SortedStrict(matches: seq<MatchResult>)
    requires UniqueIds(matches)
    ensures Strict(Sorted(matches))
  {
    var s := Sorted(matches);
    SortedPermutes(matches);
    SortedOrdered(matches);
    forall i, j | 0 <= i < j < |s| ensures Before(s[i], s[j]) {
      assert s[i] in multiset(matches) && s[j] in multiset(matches);
      UniqueIdsCount(matches, s[i]);
      if s[i] == s[j] {
        TwiceInSequence(s, i, j);
        assert false;
      }
    }
  }

  lemma TwiceInSequence(s: seq<MatchResult>, i: nat, j: nat)
    requires i < j < |s| && s[i] == s[j]
    ensures 2 <= multiset(s)[s[i]]
  {
    assert s == s[..i] + [s[i]] + s[i + 1..j] + [s[j]] + s[j + 1..];
  }

  /** Unique ids make the chronological order total: sorting forgets the input order. */
  lemma {:induction false} SortForgetsOrder(matches: seq<MatchResult>, other: seq<MatchResult>)
    requires UniqueIds(matches) && UniqueIds(other) && multiset(matches) == multiset(other)
    ensures Sorted(matches) == Sorted(other)
  {
    SortedStrict(matches);
    SortedStrict(other);
    SortedPermutes(matches);
    SortedPermutes(other);
    OnlyOneStrictOrder(Sorted(matches), Sorted(other));
  }

  /** Any permutation of a history with unique ids replays to the same ratings and snapshots. */
  lemma Reproducible(curve: Curve, matches: seq<MatchResult>, other: seq<MatchResult>)
    requires UniqueIds(matches) && UniqueIds(other) && multiset(matches) == multiset(other)
    ensures Replay(curve, Sorted(matches)) == Replay(curve, Sorted(other))
    ensures Snapshots(curve, Sorted(matches)) == Snapshots(curve, Sorted(other))
  {
    SortForgetsOrder(matches, other);
  }

  /*************************** Selecting matches ***************************/

  datatype Selection = InCompetition(competition: int) | PlayedBefore(date: int) {
    predicate Keeps(m: MatchResult) {
      match this
      case InCompetition(c) => m.competitionId == c
      case PlayedBefore(d) => m.utcDate < d
    }
  }

  function Filter(sel: Selection, matches: seq<MatchResult>): seq<MatchResult> {
    if matches == [] then []
    else
      var n := |matches| - 1;
      Filter(sel, matches[..n]) + if sel.Keeps(matches[n]) then [matches[n]] else []
  }

  lemma {:induction false} FilterMembers(sel: Selection, matches: seq<MatchResult>)
    ensures forall m :: m in Filter(sel, matches) <==> m in matches && sel.Keeps(m)
  {
    if matches != [] {
      FilterMembers(sel, matches[..|matches| - 1]);
      assert matches == matches[..|matches| - 1] + [matches[|matches| - 1]];
    }
  }

  lemma FilterAppend(sel: Selection, matches: seq<MatchResult>, m: MatchResult)
    ensures Filter(sel, matches + [m]) == Filter(sel, matches) + if sel.Keeps(m) then [m] else []
  {
    assert (matches + [m])[..|matches|] == matches;
  }

  lemma InsertLast(m: MatchResult, sorted: seq<MatchResult>)
    requires forall other | other in sorted :: !Before(m, other)
    ensures Insert(m, sorted) == sorted + [m]
  {
  }

  lemma InsertShift(m: MatchResult, front: seq<MatchResult>, last: MatchResult)
    requires Before(m, last)
    ensures Insert(m, front + [last]) == Insert(m, front) + [last]
  {
    assert (front + [last])[..|front|] == front;
  }

  lemma {:induction false} FilterInsert(sel: Selection, m: MatchResult, sorted: seq<MatchResult>)
    requires Chronological(sorted)
    ensures Filter(sel, Insert(m, sorted))
         == if sel.Keeps(m) then Insert(m, Filter(sel, sorted)) else Filter(sel, sorted)
  {
    if sorted == [] {
      FilterAppend(sel, [], m);
      assert [] + [m] == [m];
    } else {
      var n := |sorted| - 1;
      if Before(m, sorted[n]) {
        FilterInsert(sel, m, sorted[..n]);
        FilterAppend(sel, Insert(m, sorted[..n]), sorted[n]);
        if sel.Keeps(sorted[n]) {
          InsertShift(m, Filter(sel, sorted[..n]), sorted[n]);
        } else {
          assert Filter(sel, sorted) == Filter(sel, sorted[..n]);
          assert Filter(sel, Insert(m, sorted)) == Filter(sel, Insert(m, sorted[..n]));
        }
      } else {
        FilterAppend(sel, sorted, m);
        FilterMembers(sel, sorted);
        forall other | other in Filter(sel, sorted) ensures !Before(m, other) {
          var i :| 0 <= i < |sorted| && sorted[i] == other;
          assert i < n ==> !Before(sorted[n], sorted[i]);
        }
        InsertLast(m, Filter(sel, sorted));
      }
    }
  }

  /** Sorting commutes with selecting. */
  lemma {:induction false} FilterSorted(sel: Selection, matches: seq<MatchResult>)
    ensures Filter(sel, Sorted(matches)) == Sorted(Filter(sel, matches))
  {
    if matches != [] {
      var n := |matches| - 1;
      FilterSorted(sel, matches[..n]);
      SortedOrdered(matches[..n]);
      FilterInsert(sel, matches[n], Sorted(matches[..n]));
      if sel.Keeps(matches[n]) {
        assert (Filter(sel, matches[..n]) + [matches[n]])[..|Filter(sel, matches[..n])|] == Filter(sel, matches[..n]);
      } else {
        assert Filter(sel, matches) == Filter(sel, matches[..n]);
      }
    }
  }

  /*************************** Competitions do not leak into each other ***************************/

  lemma LeagueOfLeague(ratings: Ratings, competition: int)
    ensures League(League(ratings, competition), competition) == League(ratings, competition)
  {
  }

  lemma AppliedInside(curve: Curve, ratings: Ratings, m: MatchResult)
    ensures League(Applied(curve, ratings, m), m.competitionId) == Applied(curve, League(ratings, m.competitionId), m)
    ensures PreMatch(League(ratings, m.competitionId), m) == PreMatch(ratings, m)
  {
    LeagueOfLeague(ratings, m.competitionId);
  }

  /** The snapshots of the selected matches, in order. */
  ghost function Select(sel: Selection, matches: seq<MatchResult>, snapshots: seq<RatingSnapshot>): seq<RatingSnapshot>
    requires |snapshots| == |matches|
  {
    if matches == [] then []
    else
      var n := |matches| - 1;
      Select(sel, matches[..n], snapshots[..n]) + if sel.Keeps(matches[n]) then [snapshots[n]] else []
  }

  lemma SnapshotsAppend(curve: Curve, matches: seq<MatchResult>, m: MatchResult)
    ensures Replay(curve, matches + [m]) == Applied(curve, Replay(curve, matches), m)
    ensures Snapshots(curve, matches + [m]) == Snapshots(curve, matches) + [PreMatch(Replay(curve, matches), m)]
  {
    assert (matches + [m])[..|matches|] == matches;
  }

  lemma {:induction false} ReplayIsolated(curve: Curve, matches: seq<MatchResult>, competition: int)
    ensures League(Replay(curve, matches), competition) == Replay(curve, Filter(InCompetition(competition), matches))
    ensures Select(InCompetition(competition), matches, Snapshots(curve, matches))
            == Snapshots(curve, Filter(InCompetition(competition), matches))
  {
    if matches == [] {
      assert League(map[], competition) == map[];
    } else {
      var n := |matches| - 1;
      var m := matches[n];
      ReplayIsolated(curve, matches[..n], competition);
      hide Applied, PreMatch, League;
      if m.competitionId == competition {
        AppliedInside(curve, Replay(curve, matches[..n]), m);
        SnapshotsAppend(curve, Filter(InCompetition(competition), matches[..n]), m);
      } else {
        AppliedOutside(curve, Replay(curve, matches[..n]), m, competition);
        assert Filter(InCompetition(competition), matches) == Filter(InCompetition(competition), matches[..n]);
      }
    }
  }

  /**
   Running a mixed history and looking at one competition is the same as running that competition
   alone: same ratings, same snapshots, in the same order.
   */
  lemma CompetitionIsolation(curve: Curve, matches: seq<MatchResult>, competition: int)
    ensures League(Replay(curve, Sorted(matches)), competition)
            == Replay(curve, Sorted(Filter(InCompetition(competition), matches)))
    ensures Select(InCompetition(competition), Sorted(matches), Snapshots(curve, Sorted(matches)))
         == Snapshots(curve, Sorted(Filter(InCompetition(competition), matches)))
  {
    ReplayIsolated(curve, Sorted(matches), competition);
    FilterSorted(InCompetition(competition), matches);
  }

  /*************************** No look-ahead ***************************/

  lemma {:induction false} CutoffIsPrefix(matches: seq<MatchResult>, date: int)
    requires Chronological(matches)
    ensures Filter(PlayedBefore(date), matches) <= matches
    ensures |Filter(PlayedBefore(date), matches)| < |matches| ==> date <= matches[|matches| - 1].utcDate
  {
    if matches != [] {
      var n := |matches| - 1;
      CutoffIsPrefix(matches[..n], date);
      assert 0 < n ==> !Before(matches[n], matches[n - 1]);
    }
  }

  lemma {:induction false} SnapshotsOfPrefix(curve: Curve, matches: seq<MatchResult>, k: nat)
    requires k <= |matches|
    ensures Snapshots(curve, matches)[..k] == Snapshots(curve, matches[..k])
    ensures k < |matches| ==> Snapshots(curve, matches)[k] == PreMatch(Replay(curve, matches[..k]), matches[k])
  {
    hide PreMatch, Applied;
    if k < |matches| {
      var n := |matches| - 1;
      SnapshotsOfPrefix(curve, matches[..n], k);
      assert matches[..n][..k] == matches[..k];
    } else {
      assert matches[..k] == matches;
    }
  }

  /**
   Replaying only what was played before a date gives the first snapshots of the full replay, and
   each snapshot reads the ratings left by the earlier matches alone.
   */
  lemma Causal(curve: Curve, matches: seq<MatchResult>, date: int)
    ensures var all, early := Sorted(matches), Sorted(Filter(PlayedBefore(date), matches));
            && early <= all
            && Snapshots(curve, early) <= Snapshots(curve, all)
            && (forall k: nat | k < |all| :: Snapshots(curve, all)[k] == PreMatch(Replay(curve, all[..k]), all[k]))
            && (forall k | |early| <= k < |all| :: date <= all[k].utcDate)
  {
    hide Sorted, Filter, Snapshots, Replay, PreMatch, Chronological;
    var all := Sorted(matches);
    SortedOrdered(matches);
    FilterSorted(PlayedBefore(date), matches);
    CutoffIsPrefix(all, date);
    var k := |Filter(PlayedBefore(date), all)|;
    SnapshotsOfPrefix(curve, all, k);
    assert all[..k] == Filter(PlayedBefore(date), all);
    forall k: nat | k < |all| ensures Snapshots(curve, all)[k] == PreMatch(Replay(curve, all[..k]), all[k]) {
      SnapshotsOfPrefix(curve, all, k);
    }
    LateOnes(all, date);
  }

  lemma {:induction false} LateOnes(matches: seq<MatchResult>, date: int)
    requires Chronological(matches)
    ensures forall k | |Filter(PlayedBefore(date), matches)| <= k < |matches| :: date <= matches[k].utcDate
  {
    if matches != [] {
      var n := |matches| - 1;
      LateOnes(matches[..n], date);
      CutoffIsPrefix(matches[..n], date);
      CutoffIsPrefix(matches, date);
    }
  }
}
