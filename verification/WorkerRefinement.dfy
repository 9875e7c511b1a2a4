/** A worker run without interleaving is one of the runs the delivery protocol allows. */
module WorkerRefinement {
  import opened ChangeGate
  import opened Worker
  import opened Delivery

  /** The effect of a run of payloads on everything but the worker itself. */
  function SyncedAll(s: State, ps: seq<Payload>): State {
    if ps == [] then s else Synced(SyncedAll(s, ps[..|ps| - 1]), ps[|ps| - 1])
  }

  lemma {:induction false} SyncedAllIsSync(s: State, ps: seq<Payload>)
    ensures var t := SyncedAll(s, ps);
            && t.tables == SyncAll(s.tables, ps)
            && t == s.(tables := t.tables, version := t.version, changes := t.changes)
  {
    if ps != [] { SyncedAllIsSync(s, ps[..|ps| - 1]); }
  }

  lemma {:induction false} SyncedAllElsewhere(s: State, workers: map<nat, Phase>, nextRun: nat, ps: seq<Payload>)
    ensures SyncedAll(s.(workers := workers, nextRun := nextRun), ps)
         == SyncedAll(s, ps).(workers := workers, nextRun := nextRun)
  {
    hide Synced;
    if ps != [] {
      var n := |ps| - 1;
      SyncedAllElsewhere(s, workers, nextRun, ps[..n]);
      SyncedElsewhere(SyncedAll(s, ps[..n]), workers, nextRun, ps[n]);
    }
  }

  lemma OneSync(s: State, r: nat, rest: seq<Payload>)
    requires r in s.workers && s.workers[r] == Syncing(rest) && rest != [] && Admissible(rest[0])
    ensures Enabled(s, SyncNext(r))
    ensures Apply(s, SyncNext(r)) == Synced(s, rest[0]).(workers := s.workers[r := Syncing(rest[1..])])
  {
  }

  lemma {:induction false} SyncedAllStep(s: State, ps: seq<Payload>, n: nat)
    requires n < |ps|
    ensures SyncedAll(s, ps[..n + 1]) == Synced(SyncedAll(s, ps[..n]), ps[n])
  {
    assert ps[..n + 1][..n] == ps[..n];
  }

  lemma Renamed<T>(m: map<nat, T>, k: nat, x: T, y: T)
    ensures m[k := x][k := y] == m[k := y]
    ensures m[k := x] - {k} == m - {k}
    ensures k in m && m[k] == x ==> m[k := x] == m
    ensures k !in m ==> m[k := x] - {k} == m
  {
  }

  /** The sync loop, one transaction per step. */
  lemma {:induction false} SyncPath(s: State, r: nat, rest: seq<Payload>, n: nat)
    returns (actions: seq<Action>, t: State)
    requires r in s.workers && s.workers[r] == Syncing(rest) && n <= AcceptedPrefix(rest)
    ensures Leads(s, actions, t)
    ensures t == SyncedAll(s, rest[..n]).(workers := s.workers[r := Syncing(rest[n..])])
  {
    hide Apply, Enabled, Leads, Synced, SyncedAll, AcceptedPrefix;
    if n == 0 {
      actions, t := [], s;
      NoSteps(s);
      Renamed(s.workers, r, Syncing(rest), Syncing(rest));
      assert rest[..0] == [] && rest[0..] == rest;
    } else {
      var u: State;
      actions, u := SyncPath(s, r, rest, n - 1);
      var p, left := rest[n - 1], rest[n - 1..];
      assert left[0] == p && left[1..] == rest[n..];
      OneSync(u, r, left);
      LeadsFurther(s, actions, u, SyncNext(r));
      actions, t := actions + [SyncNext(r)], Apply(u, SyncNext(r));
      SyncedAllStep(s, rest, n - 1);
      SyncedElsewhere(SyncedAll(s, rest[..n - 1]), u.workers, u.nextRun, p);
      SyncedAllIsSync(s, rest[..n - 1]);
      SyncedAllIsSync(s, rest[..n]);
      Renamed(s.workers, r, Syncing(left), Syncing(rest[n..]));
    }
  }

  lemma NoSteps(s: State)
    ensures Leads(s, [], s)
    ensures forall ps: seq<Payload> | ps == [] :: SyncedAll(s, ps) == s
  {
  }

  lemma SyncedElsewhere(s: State, workers: map<nat, Phase>, nextRun: nat, p: Payload)
    ensures Synced(s.(workers := workers, nextRun := nextRun), p)
         == Synced(s, p).(workers := workers, nextRun := nextRun)
  {
    hide SyncOne, Writes, At;
    if Writes(s.tables.matches, p) {
      var v, tables := At(s.version, p.matchId) + 1, SyncOne(s.tables, p);
      var t := Synced(s, p);
      assert t.tables == tables && t.version == s.version[p.matchId := v];
    }
  }

  function MessageOf(e: Event): Message {
    Message(e.id, e.matchId)
  }

  function Messages(events: seq<Event>): (messages: seq<Message>)
    ensures |messages| == |events| && forall i | 0 <= i < |events| :: messages[i] == MessageOf(events[i])
  {
    seq(|events|, i requires 0 <= i < |events| => MessageOf(events[i]))
  }

  function Publications(r: nat, events: seq<Event>): seq<(nat, nat)> {
    seq(|events|, i requires 0 <= i < |events| => (r, events[i].id))
  }

  lemma OnePublish(s: State, r: nat, fetched: seq<Event>, k: nat)
    requires r in s.workers && s.workers[r] == Draining(fetched, k) && k < |fetched|
    ensures Enabled(s, Publish(r))
    ensures Apply(s, Publish(r)) == s.(queue := s.queue + multiset([MessageOf(fetched[k])]),
                                       workers := s.workers[r := Draining(fetched, k + 1)],
                                       publishes := s.publishes + [(r, fetched[k].id)])
  {
  }

  lemma OneMore(queue: multiset<Message>, publishes: seq<(nat, nat)>, r: nat, fetched: seq<Event>, k: nat)
    requires k < |fetched|
    ensures queue + multiset(Messages(fetched[..k])) + multiset([MessageOf(fetched[k])])
            == queue + multiset(Messages(fetched[..k + 1]))
    ensures publishes + Publications(r, fetched[..k]) + [(r, fetched[k].id)]
            == publishes + Publications(r, fetched[..k + 1])
  {
    assert Messages(fetched[..k + 1]) == Messages(fetched[..k]) + [MessageOf(fetched[k])];
  }

  lemma NoMore(queue: multiset<Message>, publishes: seq<(nat, nat)>, r: nat, events: seq<Event>)
    requires events == []
    ensures queue + multiset(Messages(events)) == queue && publishes + Publications(r, events) == publishes
  {
    assert Messages(events) == [];
  }

  /** The publish loop, one message per step. */
  lemma {:induction false} PublishPath(s: State, r: nat, fetched: seq<Event>, k: nat)
    returns (actions: seq<Action>, t: State)
    requires r in s.workers && s.workers[r] == Draining(fetched, 0) && k <= |fetched|
    ensures Leads(s, actions, t)
    ensures t == s.(queue := s.queue + multiset(Messages(fetched[..k])),
                    workers := s.workers[r := Draining(fetched, k)],
                    publishes := s.publishes + Publications(r, fetched[..k]))
  {
    hide Apply, Enabled, Leads, Messages, Publications;
    if k == 0 {
      actions, t := [], s;
      NoSteps(s);
      NoMore(s.queue, s.publishes, r, fetched[..0]);
      Renamed(s.workers, r, Draining(fetched, 0), Draining(fetched, 0));
    } else {
      var u: State;
      actions, u := PublishPath(s, r, fetched, k - 1);
      OnePublish(u, r, fetched, k - 1);
      LeadsFurther(s, actions, u, Publish(r));
      actions, t := actions + [Publish(r)], Apply(u, Publish(r));
      OneMore(s.queue, s.publishes, r, fetched, k - 1);
      Renamed(s.workers, r, Draining(fetched, k - 1), Draining(fetched, k));
    }
  }

  lemma {:induction false} LeadsOn(s: State, first: seq<Action>, u: State, second: seq<Action>, t: State)
    requires Leads(s, first, u) && Leads(u, second, t)
    ensures Leads(s, first + second, t)
    decreases |second|
  {
    hide Apply, Enabled;
    if second == [] {
      assert first + second == first;
    } else {
      var n := |second| - 1;
      var v :| Leads(u, second[..n], v) && Enabled(v, second[n]) && t == Apply(v, second[n]);
      LeadsOn(s, first, u, second[..n], v);
      LeadsFurther(s, first + second[..n], v, second[n]);
      assert first + second == first + second[..n] + [second[n]];
    }
  }

  /** How many of the owed events a run gets published. */
  function Sent(owed: seq<Event>, batch: seq<Payload>, faults: Faults): (k: nat)
    ensures k <= |owed|
  {
    if Accepted(batch, faults.healthyMatches) < |batch| then 0
    else if |owed| <= faults.healthyPublishes then |owed| else faults.healthyPublishes
  }

  /** The state once a whole run is over. */
  ghost function AfterRun(s: State, batch: seq<Payload>, faults: Faults, ok: bool): State {
    var synced := SyncedAll(s, batch[..Accepted(batch, faults.healthyMatches)]);
    var owed := synced.tables.events;
    synced.(tables := synced.tables.(events := if ok then [] else owed),
            nextRun := s.nextRun + 1,
            queue := s.queue + multiset(Messages(owed[..Sent(owed, batch, faults)])),
            publishes := s.publishes + Publications(s.nextRun, owed[..Sent(owed, batch, faults)]))
  }

  lemma OneStart(s: State, batch: seq<Payload>)
    ensures Enabled(s, StartRun(batch))
    ensures Apply(s, StartRun(batch)) == s.(workers := s.workers[s.nextRun := Syncing(batch)], nextRun := s.nextRun + 1)
  {
  }

  /** The run up to the end of its sync. */
  lemma SyncPart(s: State, batch: seq<Payload>, n: nat) returns (actions: seq<Action>, t: State)
    requires n <= AcceptedPrefix(batch)
    ensures Leads(s, actions, t)
    ensures t == SyncedAll(s, batch[..n]).(nextRun := s.nextRun + 1,
                                           workers := s.workers[s.nextRun := Syncing(batch[n..])])
  {
    hide Apply, Enabled, Leads, SyncedAll, AcceptedPrefix;
    var r, start := s.nextRun, StartRun(batch);
    OneStart(s, batch);
    var begun := Apply(s, start);
    NoSteps(s);
    LeadsFurther(s, [], s, start);
    assert [] + [start] == [start];
    var more;
    more, t := SyncPath(begun, r, batch, n);
    LeadsOn(s, [start], begun, more, t);
    actions := [start] + more;
    Renamed(s.workers, r, Syncing(batch), Syncing(batch[n..]));
    SyncedAllElsewhere(s, begun.workers, s.nextRun + 1, batch[..n]);
  }

  lemma OneFetch(s: State, r: nat)
    requires r in s.workers && s.workers[r] == Syncing([])
    ensures Enabled(s, Fetch(r)) && Apply(s, Fetch(r)) == s.(workers := s.workers[r := Draining(s.tables.events, 0)])
  {
  }

  lemma OneEnd(s: State, r: nat, k: nat, ok: bool)
    requires r in s.workers && s.workers[r] == Draining(s.tables.events, k) && (ok ==> k == |s.tables.events|)
    ensures var last := if ok then Delete(r) else Die(r);
            Enabled(s, last) && Apply(s, last)
                == s.(tables := s.tables.(events := if ok then [] else s.tables.events), workers := s.workers - {r})
  {
    if ok { DeleteEmpties(s.tables.events, EventIds(s.tables.events)); }
  }

  /** From the end of its sync to the end of the run: fetch, publish what gets through, then delete or die. */
  lemma DrainPart(s: State, r: nat, k: nat, ok: bool) returns (actions: seq<Action>, t: State)
    requires r in s.workers && s.workers[r] == Syncing([]) && k <= |s.tables.events|
    requires ok ==> k == |s.tables.events|
    ensures Leads(s, actions, t)
    ensures t == s.(tables := s.tables.(events := if ok then [] else s.tables.events),
                    queue := s.queue + multiset(Messages(s.tables.events[..k])),
                    workers := s.workers - {r},
                    publishes := s.publishes + Publications(r, s.tables.events[..k]))
  {
    hide Apply, Enabled, Leads, Messages, Publications;
    var owed := s.tables.events;
    OneFetch(s, r);
    var fetched := Apply(s, Fetch(r));
    NoSteps(s);
    LeadsFurther(s, [], s, Fetch(r));
    assert [] + [Fetch(r)] == [Fetch(r)];
    var more, sent := PublishPath(fetched, r, owed, k);
    LeadsOn(s, [Fetch(r)], fetched, more, sent);
    var last := if ok then Delete(r) else Die(r);
    OneEnd(sent, r, k, ok);
    LeadsFurther(s, [Fetch(r)] + more, sent, last);
    actions, t := [Fetch(r)] + more + [last], Apply(sent, last);
    Renamed(s.workers, r, Draining(owed, 0), Draining(owed, k));
    Renamed(s.workers, r, Draining(owed, k), Draining(owed, k));
  }

  lemma OneDeath(s: State, r: nat)
    requires r in s.workers
    ensures Enabled(s, Die(r)) && Apply(s, Die(r)) == s.(workers := s.workers - {r})
  {
  }

  /**
   Whatever a run of `main` does to the tables and the queue, StartRun, SyncNext, Fetch, Publish and
   Delete or Die do in that order, touching no consumer and no other worker.
   */
  lemma DailyRunIsARun(s: State, queue: seq<int>, batch: seq<Payload>, faults: Faults, ok: bool, after: Tables,
                       queue': seq<int>)
    returns (actions: seq<Action>, t: State)
    requires s.nextRun !in s.workers
    requires RunOutcome(s.tables, queue, batch, faults, ok, after, queue')
    ensures Leads(s, actions, t)
    ensures t == AfterRun(s, batch, faults, ok)
    ensures t.tables == after
    ensures queue' == queue + PublishedIds(s.tables, batch, faults)
  {
    hide Apply, Enabled, Leads, Messages, Publications, SyncedAll, AcceptedPrefix, SyncAll;
    var r, n := s.nextRun, Accepted(batch, faults.healthyMatches);
    SyncedAllIsSync(s, batch[..n]);
    var first, synced := SyncPart(s, batch, n);
    var owed := synced.tables.events;
    Renamed(s.workers, r, Syncing(batch[n..]), Syncing(batch[n..]));
    if n < |batch| {
      OneDeath(synced, r);
      LeadsFurther(s, first, synced, Die(r));
      actions, t := first + [Die(r)], Apply(synced, Die(r));
      NoMore(s.queue, s.publishes, r, owed[..0]);
    } else {
      var second;
      second, t := DrainPart(synced, r, Sent(owed, batch, faults), ok);
      LeadsOn(s, first, synced, second, t);
      actions := first + second;
    }
    SurvivingIsSent(owed, batch, faults);
  }

  lemma SurvivingIsSent(owed: seq<Event>, batch: seq<Payload>, faults: Faults)
    ensures MatchIds(owed[..Sent(owed, batch, faults)])
         == if Accepted(batch, faults.healthyMatches) == |batch|
            then Surviving(MatchIds(owed), faults.healthyPublishes)
            else []
  {
    assert owed[..|owed|] == owed;
  }

  /** The match ids of the messages a run gets published. */
  function PublishedIds(before: Tables, batch: seq<Payload>, faults: Faults): (ids: seq<int>) {
    var owed := SyncAll(before, batch[..Accepted(batch, faults.healthyMatches)]).events;
    MatchIds(owed[..Sent(owed, batch, faults)])
  }
}
