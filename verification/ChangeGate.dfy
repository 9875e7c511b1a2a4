/** The worker's tables: change-gated upserts, the outbox rows they owe, and the silent backfill. */
module ChangeGate {
  import opened Options

  /** The six columns that count as a change; None is SQL's NULL, and IS DISTINCT FROM is inequality. */
  datatype Gate = Gate(status: string, utcDate: int,
                       homeGoals: Option<int>, awayGoals: Option<int>,
                       homeGoalsHt: Option<int>, awayGoalsHt: Option<int>)

  /** Everything else a match row carries. */
  datatype Details = Details(seasonId: int, homeTeamId: int, awayTeamId: int, matchday: Option<int>,
                             duration: Option<string>, referee: Option<string>, blob: string)

  datatype Row = Row(gate: Gate, details: Details)

  datatype Payload = Payload(matchId: int, gate: Gate, details: Details)

  datatype Event = Event(id: nat, matchId: int)

  datatype Tables = Tables(matches: map<int, Row>, events: seq<Event>, nextEvent: nat)

  const STATUSES: set<string> :=
    {"SCHEDULED", "TIMED", "IN_PLAY", "PAUSED", "FINISHED", "SUSPENDED", "POSTPONED", "CANCELLED", "AWARDED"}

  const DURATIONS: set<string> := {"REGULAR", "EXTRA_TIME", "PENALTY_SHOOTOUT"}

  /** SMALLINT's range. */
  predicate Small(n: Option<int>) {
    n.Some? ==> -32768 <= n.value <= 32767
  }

  predicate Countable(goals: Option<int>) {
    Small(goals) && (goals.Some? ==> 0 <= goals.value)
  }

  /** The match table's CHECKs and small columns; a payload that breaks one raises and rolls its transaction back. */
  predicate Admissible(p: Payload) {
    && p.details.homeTeamId != p.details.awayTeamId
    && p.gate.status in STATUSES
    && (p.details.duration.Some? ==> p.details.duration.value in DURATIONS)
    && Countable(p.gate.homeGoals) && Countable(p.gate.awayGoals)
    && Countable(p.gate.homeGoalsHt) && Countable(p.gate.awayGoalsHt)
    && Small(p.details.matchday)
  }

  /** Whether the upsert returns a row. */
  predicate Writes(matches: map<int, Row>, p: Payload) {
    p.matchId !in matches || matches[p.matchId].gate != p.gate
  }

  function Upsert(matches: map<int, Row>, p: Payload): map<int, Row> {
    if Writes(matches, p) then matches[p.matchId := Row(p.gate, p.details)] else matches
  }

  /** One match of the daily sync: the upsert and the event it owes, in one transaction. */
  function SyncOne(t: Tables, p: Payload): Tables {
    if Writes(t.matches, p) then
      Tables(Upsert(t.matches, p), t.events + [Event(t.nextEvent, p.matchId)], t.nextEvent + 1)
    else t
  }

  function SyncAll(t: Tables, ps: seq<Payload>): Tables {
    if ps == [] then t else SyncOne(SyncAll(t, ps[..|ps| - 1]), ps[|ps| - 1])
  }

  /** The backfill: the same gate, no events. */
  function BackfillAll(t: Tables, ps: seq<Payload>): Tables {
    if ps == [] then t
    else
      var before := BackfillAll(t, ps[..|ps| - 1]);
      before.(matches := Upsert(before.matches, ps[|ps| - 1]))
  }

  /** How much of a batch the database accepts before the first payload that raises. */
  function AcceptedPrefix(ps: seq<Payload>): (n: nat)
    ensures n <= |ps|
    ensures forall i | 0 <= i < n :: Admissible(ps[i])
    ensures n < |ps| ==> !Admissible(ps[n])
  {
    if ps == [] || !Admissible(ps[0]) then 0 else 1 + AcceptedPrefix(ps[1..])
  }

  /**
   How much of a batch is written when, besides, only so many matches are spared every other error: a
   foreign key, an out-of-range id or date, a lost connection.
   */
  function Accepted(ps: seq<Payload>, healthy: nat): (n: nat)
    ensures n <= |ps| && n <= healthy
    ensures forall i | 0 <= i < n :: Admissible(ps[i])
    ensures n < |ps| ==> n == healthy || !Admissible(ps[n])
  {
    if AcceptedPrefix(ps) <= healthy then AcceptedPrefix(ps) else healthy
  }

  datatype Outcome = Changed(count: nat) | Raised

  class Database {
    var matches: map<int, Row>
    var events: seq<Event>
    var nextEvent: nat

    function Value(): Tables
      reads this
    {
      Tables(matches, events, nextEvent)
    }

    /** `sync_matches_per_competition`: one transaction per match, so a bad payload loses only what follows it. */
    method SyncMatches(batch: seq<Payload>, healthy: nat) returns (outcome: Outcome)
      modifies this
      ensures Value() == SyncAll(old(Value()), batch[..Accepted(batch, healthy)])
      ensures old(events) <= events
      ensures outcome == if Accepted(batch, healthy) == |batch| then Changed(|events| - |old(events)|) else Raised
    {
      var changed := 0;
      for i := 0 to |batch|
        invariant i <= Accepted(batch, healthy)
        invariant Value() == SyncAll(old(Value()), batch[..i])
        invariant old(events) <= events && |events| == |old(events)| + changed
      {
        assert batch[..i + 1][..i] == batch[..i];
        if i == healthy || !Admissible(batch[i]) {
          return Raised;
        }
        var p := batch[i];
        if Writes(matches, p) {
          matches := matches[p.matchId := Row(p.gate, p.details)];
          changed := changed + 1;
          events := events + [Event(nextEvent, p.matchId)];
          nextEvent := nextEvent + 1;
        }
      }
      assert batch[..|batch|] == batch;
      outcome := Changed(changed);
    }

    /**
     `sync_historic_matches`: one transaction for the whole batch, and nothing in the outbox. Its
     count is of the events the daily sync would have owed.
     */
    method SyncHistoric(batch: seq<Payload>, healthy: nat) returns (outcome: Outcome)
      modifies `matches
      ensures outcome.Raised? <==> Accepted(batch, healthy) < |batch|
      ensures Value() == if outcome.Raised? then old(Value()) else BackfillAll(old(Value()), batch)
      ensures outcome.Changed? ==> outcome.count == |SyncAll(old(Value()), batch).events| - |old(events)|
    {
      var staged, changed := matches, 0;
      for i := 0 to |batch|
        invariant i <= Accepted(batch, healthy)
        invariant Value() == old(Value())
        invariant staged == SyncAll(Value(), batch[..i]).matches
        invariant |SyncAll(Value(), batch[..i]).events| == |events| + changed
      {
        assert batch[..i + 1][..i] == batch[..i];
        if i == healthy || !Admissible(batch[i]) {
          return Raised;
        }
        var p := batch[i];
        if Writes(staged, p) {
          staged := staged[p.matchId := Row(p.gate, p.details)];
          changed := changed + 1;
        }
      }
      assert batch[..|batch|] == batch;
      BackfillKeepsOutbox(Value(), batch);
      BackfillMatches(Value(), batch);
      matches := staged;
      outcome := Changed(changed);
    }

    /** `fetch_rabbit_events`: everything pending, oldest first. */
    method FetchEvents() returns (pending: seq<Event>)
      ensures pending == events
    {
      pending := events;
    }

    /** `delete_rabbit_event`: a row survives if and only if it was not named, and the order stays. */
    method DeleteEvents(ids: set<nat>)
      modifies `events
      ensures events == Without(old(events), ids)
      ensures forall e :: e in events <==> e in old(events) && e.id !in ids
      ensures InIdOrder(old(events)) ==> InIdOrder(events)
    {
      WithoutMembers(events, ids);
      if InIdOrder(events) { WithoutKeepsOrder(events, ids); }
      events := Without(events, ids);
    }
  }

  function Without(events: seq<Event>, ids: set<nat>): seq<Event> {
    if events == [] then []
    else Without(events[..|events| - 1], ids) + if events[|events| - 1].id in ids then [] else [events[|events| - 1]]
  }

  lemma {:induction false} WithoutMembers(events: seq<Event>, ids: set<nat>)
    ensures forall e :: e in Without(events, ids) <==> e in events && e.id !in ids
  {
    if events != [] {
      WithoutMembers(events[..|events| - 1], ids);
      assert events == events[..|events| - 1] + [events[|events| - 1]];
    }
  }

  /** Strictly ascending ids: no row twice, oldest first. */
  ghost predicate InIdOrder(events: seq<Event>) {
    forall i, j | 0 <= i < j < |events| :: events[i].id < events[j].id
  }

  lemma {:induction false} WithoutKeepsOrder(events: seq<Event>, ids: set<nat>)
    requires InIdOrder(events)
    ensures InIdOrder(Without(events, ids))
  {
    if events != [] {
      var n := |events| - 1;
      WithoutKeepsOrder(events[..n], ids);
      WithoutMembers(events[..n], ids);
    }
  }

  /** The outbox lists its rows by ascending id and the next id is past them all. */
  ghost predicate OutboxInOrder(t: Tables) {
    InIdOrder(t.events) && forall e | e in t.events :: e.id < t.nextEvent
  }

  /** Syncs and deletes keep the outbox in id order, so a fetch reads it oldest change first. */
  lemma {:induction false} OutboxStaysInOrder(t: Tables, ps: seq<Payload>, ids: set<nat>)
    requires OutboxInOrder(t)
    ensures OutboxInOrder(SyncAll(t, ps))
    ensures OutboxInOrder(t.(events := Without(t.events, ids)))
  {
    WithoutKeepsOrder(t.events, ids);
    WithoutMembers(t.events, ids);
    if ps != [] { OutboxStaysInOrder(t, ps[..|ps| - 1], ids); }
  }

  lemma {:induction false} BackfillKeepsOutbox(t: Tables, ps: seq<Payload>)
    ensures BackfillAll(t, ps).events == t.events && BackfillAll(t, ps).nextEvent == t.nextEvent
  {
    if ps != [] { BackfillKeepsOutbox(t, ps[..|ps| - 1]); }
  }

  /** A row the match table can hold. */
  predicate Storable(row: Row) {
    var g, d := row.gate, row.details;
    && d.homeTeamId != d.awayTeamId
    && (forall goals | goals in [g.homeGoals, g.awayGoals, g.homeGoalsHt, g.awayGoalsHt] ::
          goals == None || 0 <= goals.value <= 32767)
    && (d.matchday == None || -32768 <= d.matchday.value <= 32767)
    && (d.duration == None || d.duration.value in ["REGULAR", "EXTRA_TIME", "PENALTY_SHOOTOUT"])
    && g.status in ["SCHEDULED", "TIMED", "IN_PLAY", "PAUSED", "FINISHED", "SUSPENDED", "POSTPONED", "CANCELLED",
                    "AWARDED"]
  }

  lemma AdmissibleIsStorable(p: Payload)
    ensures Admissible(p) <==> Storable(Row(p.gate, p.details))
  {
    var goals := [p.gate.homeGoals, p.gate.awayGoals, p.gate.homeGoalsHt, p.gate.awayGoalsHt];
    assert Countable(goals[0]) && Countable(goals[1]) && Countable(goals[2]) && Countable(goals[3])
      <==> forall n | n in goals :: n == None || 0 <= n.value <= 32767;
  }

  /** A batch goes through if and only if nothing else raises and the table can hold every one of its rows. */
  lemma WholeBatchIff(ps: seq<Payload>, healthy: nat)
    ensures Accepted(ps, healthy) == |ps|
       <==> |ps| <= healthy && forall p | p in ps :: Storable(Row(p.gate, p.details))
  {
    hide Admissible, Storable;
    forall p | p in ps ensures Admissible(p) <==> Storable(Row(p.gate, p.details)) { AdmissibleIsStorable(p); }
    var n := Accepted(ps, healthy);
    if n < |ps| { assert ps[n] in ps; }
  }

  ghost predicate AllStorable(matches: map<int, Row>) {
    forall m | m in matches :: Storable(matches[m])
  }

  /**
   Whatever payloads come in, refused ones included, every stored match keeps two different teams and
   no negative goals, as both models take for granted.
   */
  lemma {:induction false} MatchesStayStorable(t: Tables, ps: seq<Payload>, healthy: nat, n: nat)
    requires AllStorable(t.matches) && n <= Accepted(ps, healthy)
    ensures AllStorable(SyncAll(t, ps[..n]).matches) && AllStorable(BackfillAll(t, ps[..n]).matches)
  {
    hide Admissible, Storable;
    BackfillMatches(t, ps[..n]);
    if n > 0 {
      MatchesStayStorable(t, ps, healthy, n - 1);
      assert ps[..n][..n - 1] == ps[..n - 1];
      AdmissibleIsStorable(ps[n - 1]);
    } else {
      assert ps[..0] == [];
    }
  }

  /*************************** The gate as a stutter filter ***************************/

  /** The gate tuple a match carried just before payload i: the latest earlier payload's, or the stored one. */
  function Previous(matches: map<int, Row>, ps: seq<Payload>, i: nat, matchId: int): Option<Gate>
    requires i <= |ps|
  {
    if i == 0 then (if matchId in matches then Some(matches[matchId].gate) else None)
    else if ps[i - 1].matchId == matchId then Some(ps[i - 1].gate)
    else Previous(matches, ps, i - 1, matchId)
  }

  /** Events owed by a run of payloads: one where, and only where, the tuple differs from the previous one. */
  function Owed(matches: map<int, Row>, ps: seq<Payload>, nextEvent: nat, i: nat): seq<Event>
    requires i <= |ps|
  {
    if i == 0 then []
    else
      var before := Owed(matches, ps, nextEvent, i - 1);
      if Previous(matches, ps, i - 1, ps[i - 1].matchId) == Some(ps[i - 1].gate) then before
      else before + [Event(nextEvent + |before|, ps[i - 1].matchId)]
  }

  lemma {:induction false} StoredIsPrevious(t: Tables, ps: seq<Payload>, i: nat, matchId: int)
    requires i <= |ps|
    ensures var stored := SyncAll(t, ps[..i]).matches;
            Previous(t.matches, ps, i, matchId) == if matchId in stored then Some(stored[matchId].gate) else None
  {
    if i > 0 {
      StoredIsPrevious(t, ps, i - 1, matchId);
      assert ps[..i][..i - 1] == ps[..i - 1];
    } else {
      assert ps[..0] == [];
    }
  }

  /**
   Over any stream of payloads, whatever batches they came in: the stored tuple is the latest
   payload's, and the outbox gains exactly the events owed at the points where the tuple moved.
   */
  lemma {:induction false} StutterFilter(t: Tables, ps: seq<Payload>, i: nat)
    requires i <= |ps|
    ensures SyncAll(t, ps[..i]).events == t.events + Owed(t.matches, ps, t.nextEvent, i)
    ensures SyncAll(t, ps[..i]).nextEvent == t.nextEvent + |Owed(t.matches, ps, t.nextEvent, i)|
    ensures i > 0 ==>
              && ps[i - 1].matchId in SyncAll(t, ps[..i]).matches
              && SyncAll(t, ps[..i]).matches[ps[i - 1].matchId].gate == ps[i - 1].gate
  {
    if i == 0 {
      assert ps[..0] == [];
    } else {
      StutterFilter(t, ps, i - 1);
      assert ps[..i][..i - 1] == ps[..i - 1];
      StoredIsPrevious(t, ps, i - 1, ps[i - 1].matchId);
    }
  }

  lemma {:induction false} SyncConcat(t: Tables, ps: seq<Payload>, qs: seq<Payload>)
    ensures SyncAll(t, ps + qs) == SyncAll(SyncAll(t, ps), qs)
  {
    if qs == [] {
      assert ps + qs == ps;
    } else {
      var n := |qs| - 1;
      SyncConcat(t, ps, qs[..n]);
      assert (ps + qs)[..|ps| + n] == ps + qs[..n];
    }
  }

  /** The payload that last moved the match's tuple, or the row it started with. */
  function LastMove(matches: map<int, Row>, ps: seq<Payload>, i: nat, matchId: int): Option<Row>
    requires i <= |ps|
  {
    if i == 0 then (if matchId in matches then Some(matches[matchId]) else None)
    else if ps[i - 1].matchId == matchId && Previous(matches, ps, i - 1, matchId) != Some(ps[i - 1].gate) then
      Some(Row(ps[i - 1].gate, ps[i - 1].details))
    else LastMove(matches, ps, i - 1, matchId)
  }

  /**
   Details only follow the gate: over any stream of payloads, the whole stored row is that of the
   payload that last moved the match's tuple, whatever later payloads said about the other columns.
   */
  lemma {:induction false} StaleDetails(t: Tables, ps: seq<Payload>, i: nat, matchId: int)
    requires i <= |ps|
    ensures var stored := SyncAll(t, ps[..i]).matches;
            LastMove(t.matches, ps, i, matchId) == if matchId in stored then Some(stored[matchId]) else None
  {
    if i > 0 {
      StaleDetails(t, ps, i - 1, matchId);
      StoredIsPrevious(t, ps, i - 1, matchId);
      assert ps[..i][..i - 1] == ps[..i - 1];
    } else {
      assert ps[..0] == [];
    }
  }

  /*************************** Running a batch again ***************************/

  /** No match appears in the batch with two different tuples. */
  ghost predicate Consistent(ps: seq<Payload>) {
    forall p, q | p in ps && q in ps && p.matchId == q.matchId :: p.gate == q.gate
  }

  ghost predicate UpToDate(matches: map<int, Row>, ps: seq<Payload>) {
    forall p | p in ps :: p.matchId in matches && matches[p.matchId].gate == p.gate
  }

  /** A batch adds no event exactly when every payload is already stored, and then it changes nothing at all. */
  lemma {:induction false} QuietIffUpToDate(t: Tables, ps: seq<Payload>)
    ensures SyncAll(t, ps).events == t.events <==> UpToDate(t.matches, ps)
    ensures UpToDate(t.matches, ps) ==> SyncAll(t, ps) == t
    ensures |t.events| <= |SyncAll(t, ps).events|
  {
    if ps != [] {
      var n := |ps| - 1;
      QuietIffUpToDate(t, ps[..n]);
      assert ps == ps[..n] + [ps[n]];
      if SyncAll(t, ps).events == t.events {
        assert |SyncAll(t, ps[..n]).events| == |t.events|;
        OutboxGrows(t, ps[..n]);
      }
    }
  }

  lemma {:induction false} OutboxGrows(t: Tables, ps: seq<Payload>)
    ensures t.events <= SyncAll(t, ps).events
  {
    if ps != [] { OutboxGrows(t, ps[..|ps| - 1]); }
  }

  lemma {:induction false} LastOneStored(t: Tables, ps: seq<Payload>)
    requires Consistent(ps)
    ensures UpToDate(SyncAll(t, ps).matches, ps)
  {
    if ps != [] {
      var n := |ps| - 1;
      assert ps == ps[..n] + [ps[n]];
      LastOneStored(t, ps[..n]);
    }
  }

  /**
   Running the same batch twice in a row is silent the second time exactly when the batch does not
   contradict itself; distinct ids are the common special case.
   */
  lemma RerunSilentIffConsistent(t: Tables, ps: seq<Payload>)
    ensures SyncAll(SyncAll(t, ps), ps).events == SyncAll(t, ps).events <==> Consistent(ps)
    ensures Consistent(ps) ==> SyncAll(SyncAll(t, ps), ps) == SyncAll(t, ps)
  {
    QuietIffUpToDate(SyncAll(t, ps), ps);
    if Consistent(ps) { LastOneStored(t, ps); }
  }

  /** A batch with distinct ids changes nothing the second time. */
  lemma DistinctIdsRerunSilently(t: Tables, ps: seq<Payload>)
    requires forall i, j | 0 <= i < j < |ps| :: ps[i].matchId != ps[j].matchId
    ensures SyncAll(SyncAll(t, ps), ps) == SyncAll(t, ps)
  {
    RerunSilentIffConsistent(t, ps);
  }

  /*************************** The backfill is silent, and silences ***************************/

  lemma {:induction false} BackfillMatches(t: Tables, ps: seq<Payload>)
    ensures BackfillAll(t, ps).matches == SyncAll(t, ps).matches
  {
    if ps != [] { BackfillMatches(t, ps[..|ps| - 1]); }
  }

  /**
   A change the backfill wrote first is never announced: the daily sync that follows owes nothing if
   and only if the batch does not contradict itself, and then it changes nothing either.
   */
  lemma BackfillSilencesSync(t: Tables, ps: seq<Payload>)
    ensures BackfillAll(t, ps).events == t.events
    ensures SyncAll(BackfillAll(t, ps), ps).events == t.events <==> Consistent(ps)
    ensures Consistent(ps) ==> SyncAll(BackfillAll(t, ps), ps) == BackfillAll(t, ps)
  {
    BackfillMatches(t, ps);
    BackfillKeepsOutbox(t, ps);
    QuietIffUpToDate(BackfillAll(t, ps), ps);
    if Consistent(ps) { LastOneStored(t, ps); }
  }
}
