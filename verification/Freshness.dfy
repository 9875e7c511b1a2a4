/** Which numbers are stored once the pipeline has gone quiet. */
module Freshness {
  import opened ChangeGate
  import opened Delivery
  import opened Worker
  import opened WorkerRefinement

  /** No two jobs that have read the same match are under way. */
  ghost predicate Exclusive(s: State) {
    forall c, d | ReadingOn(s, c) && ReadingOn(s, d) && c != d :: MatchOf(s, c) != MatchOf(s, d)
  }

  predicate ReadingOn(s: State, c: nat) {
    c in s.unacked && s.unacked[c].job.Reading?
  }

  function MatchOf(s: State, c: nat): int
    requires c in s.unacked
  {
    s.unacked[c].message.matchId
  }

  ghost predicate ReadingLatest(s: State) {
    forall c | ReadingOn(s, c) :: ReadLatest(s, c)
  }

  /** The job read what the latest read of its match recorded. */
  predicate ReadLatest(s: State, c: nat)
    requires ReadingOn(s, c)
  {
    var m := MatchOf(s, c);
    m in s.read && s.unacked[c].job == Reading(At(s.seen, m), s.read[m])
  }

  /** The stored numbers were computed from the latest read of the match. */
  predicate StoredAsRead(s: State, m: int) {
    At(s.stored, m) == At(s.seen, m) && (m in s.read ==> m in s.basis && s.basis[m] == s.read[m])
  }

  ghost predicate UnderWay(s: State, m: int) {
    exists c :: ReadingOn(s, c) && MatchOf(s, c) == m
  }

  /** A message about the match is queued or waits to be processed. */
  ghost predicate Announced(s: State, m: int) {
    (exists message :: message in s.queue && message.matchId == m)
    || (exists c :: c in s.unacked && s.unacked[c].job.Waiting? && MatchOf(s, c) == m)
  }

  /** What was last read is stored, unless a job on the match is still to come, under way, or last failed. */
  ghost predicate SettledOn(s: State, m: int) {
    m in s.failed || StoredAsRead(s, m) || UnderWay(s, m) || Announced(s, m)
  }

  ghost predicate Settled(s: State) {
    ReadingLatest(s) && forall m :: SettledOn(s, m)
  }

  lemma ReadingLatestKept(s: State, a: Action)
    requires ReadingLatest(s) && Enabled(s, a) && Exclusive(Apply(s, a))
    ensures ReadingLatest(Apply(s, a))
  {
    var next := Apply(s, a);
    forall c | ReadingOn(next, c) ensures ReadLatest(next, c) {
      if a.Process? {
        JustProcessed(s, a.consumer);
        if c != a.consumer {
          OthersKeepReading(s, a, c);
          assert MatchOf(next, c) != MatchOf(next, a.consumer);
        }
      } else {
        OthersKeepReading(s, a, c);
        assert ReadLatest(s, c);
      }
    }
  }

  /** Processing records what it reads about its own match and nothing else. */
  lemma JustProcessed(s: State, c: nat)
    requires Enabled(s, Process(c))
    ensures var next, m := ProcessStep(s, c), MatchOf(s, c);
            && ReadingOn(next, c) && MatchOf(next, c) == m && ReadLatest(next, c)
            && next.read == s.read[m := s.tables.matches] && next.seen == s.seen[m := At(s.version, m)]
  {
  }

  lemma OthersKeepReading(s: State, a: Action, c: nat)
    requires Enabled(s, a) && ReadingOn(Apply(s, a), c) && a != Process(c)
    ensures ReadingOn(s, c) && s.unacked[c] == Apply(s, a).unacked[c]
    ensures !a.Process? ==> Apply(s, a).seen == s.seen && Apply(s, a).read == s.read
  {
    match a
    case SyncNext(r) => SyncMovesNoMessages(s, r);
    case Publish(r) => PublishMovesNoUnacked(s, r);
    case _ =>
  }

  lemma QueuedKept(s: State, a: Action, message: Message)
    requires Enabled(s, a) && message in s.queue && !(a.Deliver? && a.message == message)
    ensures message in Apply(s, a).queue
  {
  }

  lemma WaitingKept(s: State, a: Action, c: nat)
    requires Enabled(s, a) && c in s.unacked && s.unacked[c].job.Waiting? && a != Process(c) && a != ConsumerDies(c)
    ensures c in Apply(s, a).unacked && Apply(s, a).unacked[c] == s.unacked[c]
  {
  }

  lemma MessagesMove(s: State, a: Action)
    requires Enabled(s, a)
    ensures a.Deliver?
        ==> a.consumer in Apply(s, a).unacked && Apply(s, a).unacked[a.consumer] == Delivered(a.message, Waiting)
    ensures a.ConsumerDies? ==> s.unacked[a.consumer].message in Apply(s, a).queue
  {
  }

  /** An announcement is only consumed by processing it. */
  lemma AnnouncedKept(s: State, a: Action, m: int)
    requires Enabled(s, a) && Announced(s, m)
    requires a.Process? ==> MatchOf(s, a.consumer) != m
    ensures Announced(Apply(s, a), m)
  {
    var next := Apply(s, a);
    MessagesMove(s, a);
    if message :| message in s.queue && message.matchId == m {
      if a.Deliver? && a.message == message {
        hide Apply, Enabled;
        assert next.unacked[a.consumer].job.Waiting? && MatchOf(next, a.consumer) == m;
      } else {
        QueuedKept(s, a, message);
        hide Apply, Enabled;
      }
    } else {
      var c :| c in s.unacked && s.unacked[c].job.Waiting? && MatchOf(s, c) == m;
      if a == ConsumerDies(c) {
        hide Apply, Enabled;
      } else {
        WaitingKept(s, a, c);
        hide Apply, Enabled;
        assert next.unacked[c].job.Waiting? && MatchOf(next, c) == m;
      }
    }
  }

  /** The match the action's own job is about, if it moves a job past its wait. */
  lemma OwnMatchSettled(s: State, a: Action)
    requires ReadingLatest(s) && Enabled(s, a)
    requires a.Process? || a.Store? || (a.Settle? && s.unacked[a.consumer].job.Reading?) || a.ConsumerDies?
    ensures SettledOn(Apply(s, a), MatchOf(s, a.consumer))
  {
    var next := Apply(s, a);
    match a
    case Process(c) =>
      assert ReadingOn(next, c) && MatchOf(next, c) == MatchOf(s, c);
    case Store(c) =>
      assert ReadingOn(s, c);
    case ConsumerDies(c) =>
      assert s.unacked[c].message in next.queue;
    case _ =>
  }

  lemma SettledOnKept(s: State, a: Action, m: int)
    requires Settled(s) && Enabled(s, a)
    ensures SettledOn(Apply(s, a), m)
  {
    var own := a.Process? || a.Store? || (a.Settle? && s.unacked[a.consumer].job.Reading?) || a.ConsumerDies?;
    if own && MatchOf(s, a.consumer) == m {
      OwnMatchSettled(s, a);
    } else {
      ElsewhereKept(s, a, m);
    }
  }

  /** A step that moves no job of the match leaves what was read, stored and failed about it alone. */
  lemma BooksKept(s: State, a: Action, m: int)
    requires Enabled(s, a)
    requires a.Process? || a.Store? ==> MatchOf(s, a.consumer) != m
    ensures StoredAsRead(s, m) ==> StoredAsRead(Apply(s, a), m)
    ensures m in s.failed ==> m in Apply(s, a).failed
  {
  }

  lemma ElsewhereKept(s: State, a: Action, m: int)
    requires Settled(s) && Enabled(s, a)
    requires a.Process? || a.Store? || (a.Settle? && s.unacked[a.consumer].job.Reading?) || a.ConsumerDies? ==>
               MatchOf(s, a.consumer) != m
    ensures SettledOn(Apply(s, a), m)
  {
    BooksKept(s, a, m);
    assert SettledOn(s, m);
    hide Settled;
    if UnderWay(s, m) {
      var c :| ReadingOn(s, c) && MatchOf(s, c) == m;
      assert ReadingOn(Apply(s, a), c) && MatchOf(Apply(s, a), c) == m;
    } else if Announced(s, m) {
      AnnouncedKept(s, a, m);
    }
  }

  lemma {:induction false} SettledOverRuns(states: seq<State>, actions: seq<Action>, i: nat)
    requires IsRun(states, actions) && i < |states| && forall k | 0 <= k <= i :: Exclusive(states[k])
    ensures Settled(states[i])
  {
    hide Apply, Enabled, Initial, Exclusive, SettledOn, ReadingLatest;
    if i == 0 {
      InitiallySettled(states[0]);
    } else {
      SettledOverRuns(states, actions, i - 1);
      var s, a := states[i - 1], actions[i - 1];
      assert Enabled(s, a) && states[i] == Apply(s, a);
      ReadingLatestKept(s, a);
      forall m ensures SettledOn(states[i], m) { SettledOnKept(s, a, m); }
    }
  }

  lemma InitiallySettled(s: State)
    requires Initial(s)
    ensures Settled(s)
  {
  }

  /**
   Once outbox, queue and consumers are empty, every match's stored numbers were computed from its
   latest committed change, unless the job that last finished on it raised, in any run where no two
   jobs that read the same match ever overlap.
   */
  lemma QuietMeansStored(states: seq<State>, actions: seq<Action>, i: nat, matchId: int)
    requires IsRun(states, actions) && i < |states| && forall k | 0 <= k <= i :: Exclusive(states[k])
    requires states[i].tables.events == [] && states[i].queue == multiset{} && states[i].unacked == map[]
    ensures matchId in states[i].failed
         || (At(states[i].stored, matchId) == At(states[i].version, matchId) && StoredAsRead(states[i], matchId))
  {
    SettledOverRuns(states, actions, i);
    QuietMeansCaughtUp(states, actions, i, matchId);
    assert SettledOn(states[i], matchId);
  }

  /** With a single consumer jobs never overlap at all. */
  lemma {:induction false} OneConsumerIsExclusive(states: seq<State>, actions: seq<Action>, consumer: nat, i: nat)
    requires IsRun(states, actions) && i < |states|
    requires forall k | 0 <= k < |actions| && actions[k].Deliver? :: actions[k].consumer == consumer
    ensures states[i].unacked.Keys <= {consumer}
    ensures Exclusive(states[i])
  {
    if i > 0 {
      hide Initial;
      OneConsumerIsExclusive(states, actions, consumer, i - 1);
      var s, a := states[i - 1], actions[i - 1];
      assert Enabled(s, a) && states[i] == Apply(s, a);
      forall c | c in states[i].unacked ensures c == consumer { NewcomerIsDelivered(s, a, c); }
    }
  }

  lemma NewcomerIsDelivered(s: State, a: Action, c: nat)
    requires Enabled(s, a) && c in Apply(s, a).unacked
    ensures c in s.unacked || (a.Deliver? && c == a.consumer)
  {
  }

  /*************************** Two consumers ***************************/

  /** One worker run over one changed match, on an empty outbox. */
  lemma DrainOne(s: State, p: Payload) returns (actions: seq<Action>, t: State)
    requires s.nextRun !in s.workers && s.tables.events == [] && Admissible(p) && Writes(s.tables.matches, p)
    ensures Leads(s, actions, t)
    ensures var e, v := s.tables.nextEvent, At(s.version, p.matchId) + 1;
            && t == s.(tables := t.tables, nextRun := s.nextRun + 1, queue := s.queue + multiset{Message(e, p.matchId)},
                       version := s.version[p.matchId := v], changes := t.changes, publishes := t.publishes)
            && t.tables == Tables(Upsert(s.tables.matches, p), [], e + 1)
  {
    hide Leads, AfterRun, RunOutcome, SyncAll;
    var owed := SyncAll(s.tables, [p]).events;
    OnePayload(s.tables, p);
    CleanRun(s.tables, p);
    actions, t := DailyRunIsARun(s, [], [p], CLEAN, true, SyncAll(s.tables, [p]).(events := []), MatchIds(owed));
    AfterCleanRun(s, p);
  }

  const CLEAN: Faults := Faults(1, 1, false)

  lemma OnePayload(t: Tables, p: Payload)
    requires Admissible(p) && Writes(t.matches, p) && t.events == []
    ensures Accepted([p], 1) == 1 && [p][..1] == [p]
    ensures SyncAll(t, [p]) == Tables(Upsert(t.matches, p), [Event(t.nextEvent, p.matchId)], t.nextEvent + 1)
  {
    assert AcceptedPrefix([p][1..]) == 0;
    assert SyncAll(t, [p][..0]) == t;
    assert t.events + [Event(t.nextEvent, p.matchId)] == [Event(t.nextEvent, p.matchId)];
  }

  lemma CleanRun(t: Tables, p: Payload)
    requires Admissible(p) && Writes(t.matches, p) && t.events == []
    ensures var owed := SyncAll(t, [p]);
            RunOutcome(t, [], [p], CLEAN, true, owed.(events := []), MatchIds(owed.events))
  {
    OnePayload(t, p);
    hide SyncAll, AcceptedPrefix;
    var ids := MatchIds(SyncAll(t, [p]).events);
    assert |ids| == 1 && [] + Surviving(ids, 1) == ids;
  }

  lemma AfterCleanRun(s: State, p: Payload)
    requires Admissible(p) && Writes(s.tables.matches, p) && s.tables.events == []
    ensures var e, v, t := s.tables.nextEvent, At(s.version, p.matchId) + 1, AfterRun(s, [p], CLEAN, true);
            && t == s.(tables := t.tables, nextRun := s.nextRun + 1, queue := s.queue + multiset{Message(e, p.matchId)},
                       version := s.version[p.matchId := v], changes := t.changes, publishes := t.publishes)
            && t.tables == Tables(Upsert(s.tables.matches, p), [], e + 1)
  {
    OnePayload(s.tables, p);
    SyncedAllIsSync(s, [p]);
    SyncedAllStep(s, [p], 0);
    NoSteps(s);
    assert SyncedAll(s, [p]) == Synced(s, p);
    hide SyncAll, AcceptedPrefix, SyncedAll;
    var owed := [Event(s.tables.nextEvent, p.matchId)];
    assert owed[..1] == owed && Messages(owed) == [Message(s.tables.nextEvent, p.matchId)];
  }

  /** A consumer takes a message and its job reads the match. */
  lemma TakeAndRead(s: State, c: nat, m: Message) returns (actions: seq<Action>, t: State)
    requires c !in s.unacked && m in s.queue
    ensures Leads(s, actions, t)
    ensures t == s.(queue := s.queue - multiset{m},
                    unacked := s.unacked[c := Delivered(m, Reading(At(s.version, m.matchId), s.tables.matches))],
                    seen := s.seen[m.matchId := At(s.version, m.matchId)],
                    read := s.read[m.matchId := s.tables.matches], handled := t.handled)
  {
    var u := Apply(s, Deliver(c, m));
    NoSteps(s);
    LeadsFurther(s, [], s, Deliver(c, m));
    LeadsFurther(s, [] + [Deliver(c, m)], u, Process(c));
    actions, t := [] + [Deliver(c, m)] + [Process(c)], Apply(u, Process(c));
    Renamed(s.unacked, c, Delivered(m, Waiting), Delivered(m, Reading(At(s.version, m.matchId), s.tables.matches)));
  }

  /** A job commits what it computed from its read, and its message is acked. */
  lemma StoreAndSettle(s: State, c: nat) returns (actions: seq<Action>, t: State)
    requires ReadingOn(s, c)
    ensures Leads(s, actions, t)
    ensures t == s.(unacked := s.unacked - {c}, stored := s.stored[MatchOf(s, c) := s.unacked[c].job.version],
                    basis := s.basis[MatchOf(s, c) := s.unacked[c].job.matches],
                    failed := s.failed - {MatchOf(s, c)})
  {
    var u := Apply(s, Store(c));
    NoSteps(s);
    LeadsFurther(s, [], s, Store(c));
    LeadsFurther(s, [] + [Store(c)], u, Settle(c));
    actions, t := [] + [Store(c)] + [Settle(c)], Apply(u, Settle(c));
    Renamed(s.unacked, c, u.unacked[c], u.unacked[c]);
  }

  /**
   With two consumers, as while one is being replaced, the older of two overlapping jobs can commit
   last. Nothing failed and all is quiet, and the stored numbers are a change behind.
   */
  lemma OlderJobCanCommitLast(p: Payload, q: Payload) returns (states: seq<State>, actions: seq<Action>)
    requires Admissible(p) && Admissible(q) && p.matchId == q.matchId && p.gate != q.gate
    ensures IsRun(states, actions)
    ensures var t := states[|actions|];
            && t.tables.events == [] && t.queue == multiset{} && t.unacked == map[] && t.failed == {}
            && At(t.stored, p.matchId) == 1 && At(t.version, p.matchId) == 2
  {
    hide Leads, IsRun;
    var m := p.matchId;
    var s := State(Tables(map[], [], 0), map[], 0, multiset{}, map[], map[], map[], map[], map[], map[],
                   map[], {}, {}, []);
    var first, s1 := DrainOne(s, p);
    var more, s2 := TakeAndRead(s1, 0, Message(0, m));
    LeadsOn(s, first, s1, more, s2);
    var third, s3 := DrainOne(s2, q);
    LeadsOn(s, first + more, s2, third, s3);
    var fourth, s4 := TakeAndRead(s3, 1, Message(1, m));
    LeadsOn(s, first + more + third, s3, fourth, s4);
    var fifth, s5 := StoreAndSettle(s4, 1);
    LeadsOn(s, first + more + third + fourth, s4, fifth, s5);
    var sixth, t := StoreAndSettle(s5, 0);
    actions := first + more + third + fourth + fifth + sixth;
    LeadsOn(s, first + more + third + fourth + fifth, s5, sixth, t);
    states := RunOf(s, actions, t);
  }
}
