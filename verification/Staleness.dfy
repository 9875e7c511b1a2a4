/**
 Stored numbers against the rest of their competition: a job reads every finished match, but is only
 sent for its own.
 */
module Staleness {
  import opened Options
  import opened MatchHistory
  import opened ChangeGate
  import opened Delivery
  import opened Freshness
  import opened Worker
  import opened WorkerRefinement
  import opened PoissonFit
  import opened Rounding
  import opened Handler
  import opened Predictions
  import FitLaws
  import Elo
  import EloReplay

  /*************************** What a job reads ***************************/

  /** Season to competition, which the match table only names by season. */
  type Seasons = int -> int

  /** The condition of `fetch_match_history`; the CHECKs keep goals nonnegative. */
  predicate Finished(row: Row, seasons: Seasons, competition: int) {
    && row.gate.status == "FINISHED" && seasons(row.details.seasonId) == competition
    && row.gate.homeGoals.Some? && row.gate.awayGoals.Some?
    && 0 <= row.gate.homeGoals.value && 0 <= row.gate.awayGoals.value
  }

  /** What one match contributes to its competition's history, if anything. */
  function ResultAt(matches: map<int, Row>, seasons: Seasons, competition: int, id: int): Option<MatchResult> {
    if id in matches && Finished(matches[id], seasons, competition) then
      var row := matches[id];
      Some(MatchResult(id, competition, row.gate.utcDate, row.details.homeTeamId, row.details.awayTeamId,
                       row.gate.homeGoals.value, row.gate.awayGoals.value))
    else None
  }

  /** `fetch_match_history`, up to order. */
  function Results(matches: map<int, Row>, seasons: Seasons, competition: int): set<MatchResult> {
    set id | id in matches && ResultAt(matches, seasons, competition, id).Some? ::
      ResultAt(matches, seasons, competition, id).value
  }

  lemma ResultsMembers(matches: map<int, Row>, seasons: Seasons, competition: int, r: MatchResult)
    ensures r in Results(matches, seasons, competition)
            <==> ResultAt(matches, seasons, competition, r.matchId) == Some(r)
  {
  }

  /**
   A row is history if it is finished with both scores known, in its own season's competition and in no
   other, and then with its own date, teams and goals.
   */
  lemma OwnCompetitionOnly(matches: map<int, Row>, seasons: Seasons, competition: int, id: int)
    requires id in matches && Countable(matches[id].gate.homeGoals) && Countable(matches[id].gate.awayGoals)
    ensures var g, d := matches[id].gate, matches[id].details;
            (exists r :: r in Results(matches, seasons, competition) && r.matchId == id)
            <==> (g.status == "FINISHED" && g.homeGoals != None && g.awayGoals != None
                  && competition == seasons(d.seasonId))
    ensures var g, d := matches[id].gate, matches[id].details;
            forall r | r in Results(matches, seasons, competition) && r.matchId == id ::
              r.competitionId == seasons(d.seasonId) && r.utcDate == g.utcDate
              && r.homeTeamId == d.homeTeamId && r.awayTeamId == d.awayTeamId
              && g.homeGoals == Some(r.homeGoals as int) && g.awayGoals == Some(r.awayGoals as int)
  {
    hide Results;
    var contribution := ResultAt(matches, seasons, competition, id);
    if contribution.Some? { ResultsMembers(matches, seasons, competition, contribution.value); }
    forall r | r in Results(matches, seasons, competition) && r.matchId == id ensures contribution == Some(r) {
      ResultsMembers(matches, seasons, competition, r);
    }
  }

  /** Two tables give the same history exactly when each match contributes the same to both. */
  lemma SameResultsIff(matches: map<int, Row>, other: map<int, Row>, seasons: Seasons, competition: int)
    ensures Results(matches, seasons, competition) == Results(other, seasons, competition)
       <==> forall id :: ResultAt(matches, seasons, competition, id) == ResultAt(other, seasons, competition, id)
  {
    hide Results, ResultAt;
    if Results(matches, seasons, competition) == Results(other, seasons, competition) {
      forall id ensures ResultAt(matches, seasons, competition, id) == ResultAt(other, seasons, competition, id) {
        ContributionKept(matches, other, seasons, competition, id);
        ContributionKept(other, matches, seasons, competition, id);
      }
    }
    if forall id :: ResultAt(matches, seasons, competition, id) == ResultAt(other, seasons, competition, id) {
      forall r ensures r in Results(matches, seasons, competition) <==> r in Results(other, seasons, competition) {
        ResultsMembers(matches, seasons, competition, r);
        ResultsMembers(other, seasons, competition, r);
        assert ResultAt(matches, seasons, competition, r.matchId) == ResultAt(other, seasons, competition, r.matchId);
      }
    }
  }

  lemma ContributionKept(matches: map<int, Row>, other: map<int, Row>, seasons: Seasons, competition: int, id: int)
    requires Results(matches, seasons, competition) == Results(other, seasons, competition)
    ensures ResultAt(matches, seasons, competition, id).Some?
        ==> ResultAt(other, seasons, competition, id) == ResultAt(matches, seasons, competition, id)
  {
    if ResultAt(matches, seasons, competition, id).Some? {
      var r := ResultAt(matches, seasons, competition, id).value;
      ResultsMembers(matches, seasons, competition, r);
      ResultsMembers(other, seasons, competition, r);
    }
  }

  /** `fetch_match_via_id`, as far as the engine reads it. */
  function FixtureOf(matches: map<int, Row>, seasons: Seasons, m: int): Option<Fixture> {
    if m !in matches then None
    else
      var d := matches[m].details;
      Some(Fixture(m, seasons(d.seasonId), d.homeTeamId, d.awayTeamId))
  }

  /** Everything in the match table that a job's numbers depend on. */
  datatype Inputs = Unknown | Inputs(fixture: Fixture, results: set<MatchResult>)

  function InputsOf(matches: map<int, Row>, seasons: Seasons, m: int): Inputs {
    match FixtureOf(matches, seasons, m)
    case None => Unknown
    case Some(fixture) => Inputs(fixture, Results(matches, seasons, fixture.competitionId))
  }

  /** The order in which the history is fetched does not reach the row. */
  lemma OrderIsNoInput(row: PredictionRow, fixture: Fixture, history: seq<MatchResult>, other: seq<MatchResult>,
                       f: Functions)
    requires f.Valid() && EloReplay.UniqueIds(history) && EloReplay.UniqueIds(other)
             && multiset(history) == multiset(other)
    ensures Computed(row, fixture, history, f) <==> Computed(row, fixture, other, f)
  {
    EloReplay.Reproducible(f.curve, history, other);
    FitLaws.OrderIndependent(f.decay, history, other);
    hide Describes, FittedModel, Elo.Replay, Elo.Sorted, EloReplay.UniqueIds;
    assert Rates(fixture, history, f.decay) == Rates(fixture, other, f.decay);
    assert Ratings(fixture, history, f.curve) == Ratings(fixture, other, f.curve);
  }

  /*************************** Which read the stored numbers come from ***************************/

  /** The step hands a message about the match to a job, which reads the table. */
  predicate Reads(s: State, a: Action, m: int) {
    a.Process? && a.consumer in s.unacked && MatchOf(s, a.consumer) == m
  }

  lemma ReadsRecord(s: State, a: Action, m: int)
    requires Enabled(s, a)
    ensures Reads(s, a, m) ==> m in Apply(s, a).read && Apply(s, a).read[m] == s.tables.matches
    ensures !Reads(s, a, m) ==>
              (m in Apply(s, a).read <==> m in s.read) && (m in s.read ==> Apply(s, a).read[m] == s.read[m])
  {
    match a
    case Process(c) => JustProcessed(s, c);
    case _ => OnlyProcessReads(s, a);
  }

  lemma OnlyProcessReads(s: State, a: Action)
    requires Enabled(s, a) && !a.Process?
    ensures Apply(s, a).read == s.read
  {
    hide Synced, Admissible;
    match a
    case SyncNext(r) => SyncReadsNothing(s, r);
    case _ =>
  }

  lemma SyncReadsNothing(s: State, r: nat)
    requires Enabled(s, SyncNext(r))
    ensures SyncStep(s, r).read == s.read
  {
  }

  /** What is recorded as read is the table at the match's latest read. */
  lemma {:induction false} LatestRead(states: seq<State>, actions: seq<Action>, i: nat, m: int) returns (k: nat)
    requires IsRun(states, actions) && i < |states| && m in states[i].read
    ensures k < i && Reads(states[k], actions[k], m) && states[i].read[m] == states[k].tables.matches
    ensures forall j | k < j < i :: !Reads(states[j], actions[j], m)
  {
    hide Apply, Enabled, Reads;
    assert Initial(states[0]);
    var s, a := states[i - 1], actions[i - 1];
    assert Enabled(s, a) && states[i] == Apply(s, a);
    ReadsRecord(s, a, m);
    if Reads(s, a, m) {
      k := i - 1;
    } else {
      k := LatestRead(states, actions, i - 1, m);
    }
  }

  /**
   The exact condition. Once all is quiet and the last job on a match succeeded, its stored numbers were
   computed from the table as it stood at the match's latest read, and they are what a job would read
   now if and only if the fixture is the same and every match contributes the same result to its
   competition's history as it did then.
   */
  lemma QuietMeansCurrentIff(states: seq<State>, actions: seq<Action>, i: nat, m: int, seasons: Seasons)
    returns (k: nat)
    requires IsRun(states, actions) && i < |states| && forall k | 0 <= k <= i :: Exclusive(states[k])
    requires states[i].tables.events == [] && states[i].queue == multiset{} && states[i].unacked == map[]
    requires m in states[i].read && m !in states[i].failed
    ensures k < i && Reads(states[k], actions[k], m) && forall j | k < j < i :: !Reads(states[j], actions[j], m)
    ensures m in states[i].basis && states[i].basis[m] == states[k].tables.matches
    ensures var past, now := states[k].tables.matches, states[i].tables.matches;
            var fixture := FixtureOf(now, seasons, m);
            InputsOf(states[i].basis[m], seasons, m) == InputsOf(now, seasons, m)
            <==> FixtureOf(past, seasons, m) == fixture
                 && (fixture.Some? ==> forall id :: ResultAt(past, seasons, fixture.value.competitionId, id)
                                                    == ResultAt(now, seasons, fixture.value.competitionId, id))
  {
    QuietMeansStored(states, actions, i, m);
    k := LatestRead(states, actions, i, m);
    var now := states[i].tables.matches;
    if FixtureOf(now, seasons, m).Some? {
      SameResultsIff(states[k].tables.matches, now, seasons, FixtureOf(now, seasons, m).value.competitionId);
    }
  }

  /*************************** Which steps move a job's inputs ***************************/

  /** The match's row changes, and it is the fixture's own or a finished match of its competition before or after. */
  predicate Concerns(before: map<int, Row>, after: map<int, Row>, seasons: Seasons, fixture: Fixture, id: int) {
    && (id in before || id in after)
    && !(id in before && id in after && before[id] == after[id])
    && (|| id == fixture.matchId
        || (id in before && Finished(before[id], seasons, fixture.competitionId))
        || (id in after && Finished(after[id], seasons, fixture.competitionId)))
  }

  ghost predicate Undisturbed(before: map<int, Row>, after: map<int, Row>, seasons: Seasons, fixture: Fixture) {
    forall id :: !Concerns(before, after, seasons, fixture, id)
  }

  lemma UndisturbedKeepsInputs(before: map<int, Row>, after: map<int, Row>, seasons: Seasons, fixture: Fixture)
    requires Undisturbed(before, after, seasons, fixture)
             && FixtureOf(before, seasons, fixture.matchId) == Some(fixture)
    ensures InputsOf(before, seasons, fixture.matchId) == InputsOf(after, seasons, fixture.matchId)
    ensures FixtureOf(after, seasons, fixture.matchId) == Some(fixture)
  {
    assert !Concerns(before, after, seasons, fixture, fixture.matchId);
    forall id
      ensures ResultAt(before, seasons, fixture.competitionId, id)
              == ResultAt(after, seasons, fixture.competitionId, id)
    {
      assert !Concerns(before, after, seasons, fixture, id);
    }
    SameResultsIff(before, after, seasons, fixture.competitionId);
  }

  /** Only the daily sync and the backfill write match rows at all. */
  lemma OnlySyncsDisturb(s: State, a: Action, seasons: Seasons, fixture: Fixture)
    requires Enabled(s, a) && !a.SyncNext? && !a.Backfill?
    ensures Undisturbed(s.tables.matches, Apply(s, a).tables.matches, seasons, fixture)
  {
  }

  /** As long as no step concerns the fixture, what a job would read about it stays what it was. */
  lemma {:induction false} UndisturbedStaysCurrent(states: seq<State>, k: nat, i: nat, seasons: Seasons,
                                                   fixture: Fixture)
    requires k <= i < |states| && FixtureOf(states[k].tables.matches, seasons, fixture.matchId) == Some(fixture)
    requires forall j | k <= j < i ::
               Undisturbed(states[j].tables.matches, states[j + 1].tables.matches, seasons, fixture)
    ensures InputsOf(states[k].tables.matches, seasons, fixture.matchId)
         == InputsOf(states[i].tables.matches, seasons, fixture.matchId)
    ensures FixtureOf(states[i].tables.matches, seasons, fixture.matchId) == Some(fixture)
  {
    if k < i {
      hide InputsOf, FixtureOf, Undisturbed;
      UndisturbedStaysCurrent(states, k, i - 1, seasons, fixture);
      UndisturbedKeepsInputs(states[i - 1].tables.matches, states[i].tables.matches, seasons, fixture);
    }
  }

  /*************************** Another match's result ***************************/

  const FIXTURE: Payload :=
    Payload(1, Gate("SCHEDULED", 1, None, None, None, None), Details(7, 3, 4, None, None, None, "{}"))

  const RESULT: Payload :=
    Payload(2, Gate("FINISHED", 0, Some(1), Some(0), None, None), Details(7, 1, 2, None, None, None, "{}"))

  /** A job on the one match a worker run just announced, from its delivery to its ack. */
  lemma AnnounceAndStore(s: State, p: Payload) returns (actions: seq<Action>, t: State)
    requires s.nextRun !in s.workers && s.tables.events == [] && s.queue == multiset{} && s.unacked == map[]
    requires Admissible(p) && Writes(s.tables.matches, p)
    ensures Leads(s, actions, t)
    ensures var m, matches, v := p.matchId, Upsert(s.tables.matches, p), At(s.version, p.matchId) + 1;
            && t == s.(tables := Tables(matches, [], s.tables.nextEvent + 1), nextRun := s.nextRun + 1,
                       changes := t.changes, publishes := t.publishes, handled := t.handled, failed := s.failed - {m},
                       version := s.version[m := v], seen := s.seen[m := v], stored := s.stored[m := v],
                       read := s.read[m := matches], basis := s.basis[m := matches])
  {
    hide Leads;
    var m := Message(s.tables.nextEvent, p.matchId);
    var first, u := DrainOne(s, p);
    var second, v := TakeAndRead(u, 0, m);
    LeadsOn(s, first, u, second, v);
    var third;
    third, t := StoreAndSettle(v, 0);
    LeadsOn(s, first + second, v, third, t);
    actions := first + second + third;
  }

  lemma Admitted()
    ensures Admissible(FIXTURE) && Admissible(RESULT)
  {
  }

  /**
   A fixture is predicted, then another match of its competition is played, announced and predicted.
   All is quiet, nothing failed and nothing overlapped, and the fixture's numbers still come from an
   empty history: its stored home rate is 0 where a job would now store 1.
   */
  lemma OtherResultsLeaveNumbersBehind(seasons: Seasons, f: Functions, row: PredictionRow)
    returns (states: seq<State>, actions: seq<Action>)
    requires f.Valid() && f.decay.halving(0.0) == 1.0 && f.decay.asOf == 0
    ensures IsRun(states, actions)
    ensures var t := states[|actions|];
            && t.tables.events == [] && t.queue == multiset{} && t.unacked == map[] && t.failed == {}
            && At(t.stored, 1) == At(t.version, 1) && StoredAsRead(t, 1) && 1 in t.basis
            && InputsOf(t.basis[1], seasons, 1) == Inputs(Fixture(1, seasons(7), 3, 4), {})
            && InputsOf(t.tables.matches, seasons, 1)
               == Inputs(Fixture(1, seasons(7), 3, 4), {MatchResult(2, seasons(7), 0, 1, 2, 1, 0)})
    ensures Computed(row, Fixture(1, seasons(7), 3, 4), [], f) ==> row.lambdaHome == 0.0
    ensures Computed(row, Fixture(1, seasons(7), 3, 4), [MatchResult(2, seasons(7), 0, 1, 2, 1, 0)], f)
            ==> row.lambdaHome == 1.0
  {
    states, actions := TwoAnnouncements();
    InputsOfTwo(seasons);
    RatesOfTwo(seasons(7), f.decay);
  }

  /** The match table after the fixture, and after the other match's result. */
  const FIRST: map<int, Row> := map[1 := Row(FIXTURE.gate, FIXTURE.details)]
  const BOTH: map<int, Row> := FIRST[2 := Row(RESULT.gate, RESULT.details)]

  lemma TwoAnnouncements() returns (states: seq<State>, actions: seq<Action>)
    ensures IsRun(states, actions)
    ensures var t := states[|actions|];
            && t.tables.events == [] && t.queue == multiset{} && t.unacked == map[] && t.failed == {}
            && At(t.stored, 1) == At(t.version, 1) && StoredAsRead(t, 1)
            && 1 in t.basis && t.basis[1] == FIRST && t.tables.matches == BOTH
  {
    Admitted();
    hide Leads, IsRun, Admissible;
    var s := State(Tables(map[], [], 0), map[], 0, multiset{}, map[], map[], map[], map[], map[], map[], map[], {}, {},
                   []);
    var first, u := AnnounceAndStore(s, FIXTURE);
    var second, t := AnnounceAndStore(u, RESULT);
    LeadsOn(s, first, u, second, t);
    actions := first + second;
    states := RunOf(s, actions, t);
  }

  lemma InputsOfTwo(seasons: Seasons)
    ensures InputsOf(FIRST, seasons, 1) == Inputs(Fixture(1, seasons(7), 3, 4), {})
    ensures InputsOf(BOTH, seasons, 1)
         == Inputs(Fixture(1, seasons(7), 3, 4), {MatchResult(2, seasons(7), 0, 1, 2, 1, 0)})
  {
    assert ResultAt(BOTH, seasons, seasons(7), 2) == Some(MatchResult(2, seasons(7), 0, 1, 2, 1, 0));
  }

  lemma RatesOfTwo(competition: int, decay: Decay)
    requires decay.NonNegative() && decay.halving(0.0) == 1.0 && decay.asOf == 0
    ensures Rates(Fixture(1, competition, 3, 4), [], decay).0 == 0.0
    ensures Rates(Fixture(1, competition, 3, 4), [MatchResult(2, competition, 0, 1, 2, 1, 0)], decay).0 == 1.0
  {
    var m := MatchResult(2, competition, 0, 1, 2, 1, 0);
    OneMatchModel(decay, m);
    FitLaws.FittedNonNegative(decay, [m]);
    FitLaws.FixtureRates(FittedModel(decay, [m]), 3, 4, competition);
    FitLaws.FittedNonNegative(decay, []);
    FitLaws.FixtureRates(FittedModel(decay, []), 3, 4, competition);
    assert FittedModel(decay, []) == EMPTY;
  }
}
