/**
 The delivery protocol as a state machine: any number of worker runs and consumers, each awaited
 effect one step, every process free to die between steps. Safety over all runs.
 */
module Delivery {
  import opened ChangeGate
  import opened Worker

  /** A change the daily sync committed: the match's version-th. */
  datatype Change = Change(matchId: int, version: nat)

  /** The body is the match id; the event it was published for is bookkeeping. */
  datatype Message = Message(eventId: nat, matchId: int)

  datatype Phase =
    | Syncing(rest: seq<Payload>)
    | Draining(fetched: seq<Event>, sent: nat)

  /** `process_job` on a message: not called yet, past its reads of the match table, or past its commit. */
  datatype Job = Waiting | Reading(version: nat, matches: map<int, Row>) | Done

  /** An unacked message and how far its job is. */
  datatype Delivered = Delivered(message: Message, job: Job)

  datatype State = State(
    tables: Tables,
    workers: map<nat, Phase>,
    nextRun: nat,
    queue: multiset<Message>,
    unacked: map<nat, Delivered>,
    // bookkeeping
    changes: map<nat, Change>,          // every event ever committed
    version: map<int, nat>,             // changes committed per match
    seen: map<int, nat>,                // version read by the latest process_job
    read: map<int, map<int, Row>>,      // match table as that process_job read it
    stored: map<int, nat>,              // version whose numbers are stored
    basis: map<int, map<int, Row>>,     // match table those numbers were computed from
    failed: set<int>,                   // matches whose last finished job raised
    handled: set<nat>,                  // events whose message reached process_job
    publishes: seq<(nat, nat)>)         // (run, event), in order

  datatype Action =
    | StartRun(batch: seq<Payload>)
    | SyncNext(run: nat)
    | Fetch(run: nat)
    | Publish(run: nat)
    | Delete(run: nat)
    | Die(run: nat)
    | Backfill(batch: seq<Payload>)
    | Deliver(consumer: nat, message: Message)
    | Process(consumer: nat)
    | Store(consumer: nat)
    | Settle(consumer: nat)
    | ConsumerDies(consumer: nat)

  function At(m: map<int, nat>, k: int): nat {
    if k in m then m[k] else 0
  }

  predicate Enabled(s: State, a: Action) {
    match a
    case StartRun(_) => true
    case SyncNext(r) => r in s.workers && s.workers[r].Syncing? && s.workers[r].rest != []
        && Admissible(s.workers[r].rest[0])
    case Fetch(r) => r in s.workers && s.workers[r].Syncing? && s.workers[r].rest == []
    case Publish(r) => r in s.workers && s.workers[r].Draining? && s.workers[r].sent < |s.workers[r].fetched|
    case Delete(r) => r in s.workers && s.workers[r].Draining? && s.workers[r].sent == |s.workers[r].fetched|
    case Die(r) => r in s.workers
    case Backfill(batch) => AcceptedPrefix(batch) == |batch|
    case Deliver(c, m) => c !in s.unacked && m in s.queue
    case Process(c) => c in s.unacked && s.unacked[c].job.Waiting?
    case Store(c) => c in s.unacked && s.unacked[c].job.Reading?
    case Settle(c) => c in s.unacked && !s.unacked[c].job.Waiting?
    case ConsumerDies(c) => c in s.unacked
  }

  /** One match of a sync, and the version it makes. */
  function Synced(s: State, p: Payload): State {
    if Writes(s.tables.matches, p) then
      var v := At(s.version, p.matchId) + 1;
      s.(tables := SyncOne(s.tables, p),
         version := s.version[p.matchId := v],
         changes := s.changes[s.tables.nextEvent := Change(p.matchId, v)])
    else s
  }

  function SyncStep(s: State, r: nat): State
    requires Enabled(s, SyncNext(r))
  {
    var rest := s.workers[r].rest;
    Synced(s, rest[0]).(workers := s.workers[r := Syncing(rest[1..])])
  }

  function PublishStep(s: State, r: nat): State
    requires Enabled(s, Publish(r))
  {
    var w := s.workers[r];
    var e := w.fetched[w.sent];
    s.(queue := s.queue + multiset{Message(e.id, e.matchId)},
       workers := s.workers[r := w.(sent := w.sent + 1)],
       publishes := s.publishes + [(r, e.id)])
  }

  function ProcessStep(s: State, c: nat): State
    requires Enabled(s, Process(c))
  {
    var m := s.unacked[c].message;
    s.(unacked := s.unacked[c := Delivered(m, Reading(At(s.version, m.matchId), s.tables.matches))],
       seen := s.seen[m.matchId := At(s.version, m.matchId)],
       read := s.read[m.matchId := s.tables.matches],
       handled := s.handled + {m.eventId})
  }

  /** The job's transaction commits the numbers it computed from what it read. */
  function StoreStep(s: State, c: nat): State
    requires Enabled(s, Store(c))
  {
    var d := s.unacked[c];
    s.(unacked := s.unacked[c := Delivered(d.message, Done)],
       stored := s.stored[d.message.matchId := d.job.version],
       basis := s.basis[d.message.matchId := d.job.matches],
       failed := s.failed - {d.message.matchId})
  }

  /** The message is acked, also when its job raised before committing. */
  function SettleStep(s: State, c: nat): State
    requires Enabled(s, Settle(c))
  {
    var d := s.unacked[c];
    s.(unacked := s.unacked - {c}, failed := if d.job.Done? then s.failed else s.failed + {d.message.matchId})
  }

  function Apply(s: State, a: Action): State
    requires Enabled(s, a)
  {
    match a
    case StartRun(batch) => s.(workers := s.workers[s.nextRun := Syncing(batch)], nextRun := s.nextRun + 1)
    case SyncNext(r) => SyncStep(s, r)
    case Fetch(r) => s.(workers := s.workers[r := Draining(s.tables.events, 0)])
    case Publish(r) => PublishStep(s, r)
    case Delete(r) => s.(tables := s.tables.(events := Without(s.tables.events, EventIds(s.workers[r].fetched))),
                         workers := s.workers - {r})
    case Die(r) => s.(workers := s.workers - {r})
    case Backfill(batch) => s.(tables := BackfillAll(s.tables, batch))
    case Deliver(c, m) => s.(queue := s.queue - multiset{m}, unacked := s.unacked[c := Delivered(m, Waiting)])
    case Process(c) => ProcessStep(s, c)
    case Store(c) => StoreStep(s, c)
    case Settle(c) => SettleStep(s, c)
    case ConsumerDies(c) => s.(queue := s.queue + multiset{s.unacked[c].message}, unacked := s.unacked - {c})
  }

  ghost predicate Initial(s: State) {
    && s.tables.events == [] && s.workers == map[] && s.queue == multiset{} && s.unacked == map[]
    && s.changes == map[] && s.version == map[] && s.seen == map[] && s.read == map[] && s.stored == map[]
       && s.basis == map[] && s.failed == {}
       && s.handled == {} && s.publishes == []
  }

  /** A run of the system: consecutive states joined by enabled actions. */
  ghost predicate IsRun(states: seq<State>, actions: seq<Action>) {
    && |states| == |actions| + 1
    && Initial(states[0])
    && (forall i | 0 <= i < |actions| ::
        Enabled(states[i], actions[i]) && states[i + 1] == Apply(states[i], actions[i]))
  }

  /** A stretch of a run: from s, the actions lead to t. */
  ghost predicate Leads(s: State, actions: seq<Action>, t: State) {
    if actions == [] then s == t
    else
      var n := |actions| - 1;
      exists u :: Leads(s, actions[..n], u) && Enabled(u, actions[n]) && t == Apply(u, actions[n])
  }

  lemma LeadsFurther(s: State, actions: seq<Action>, u: State, a: Action)
    requires Leads(s, actions, u) && Enabled(u, a)
    ensures Leads(s, actions + [a], Apply(u, a))
  {
    hide Apply, Enabled;
    assert (actions + [a])[..|actions|] == actions;
  }

  /** A stretch from an initial state is a run. */
  lemma {:induction false} RunOf(s: State, actions: seq<Action>, t: State) returns (states: seq<State>)
    requires Initial(s) && Leads(s, actions, t)
    ensures IsRun(states, actions) && states[|actions|] == t
  {
    hide Apply, Enabled, Initial;
    if actions == [] {
      states := [s];
    } else {
      var n := |actions| - 1;
      var u :| Leads(s, actions[..n], u) && Enabled(u, actions[n]) && t == Apply(u, actions[n]);
      var before := RunOf(s, actions[..n], u);
      states := before + [t];
      forall i | 0 <= i < |actions|
        ensures Enabled(states[i], actions[i]) && states[i + 1] == Apply(states[i], actions[i])
      {
        if i < n {
          assert before[i] == states[i] && before[i + 1] == states[i + 1] && actions[..n][i] == actions[i];
        }
      }
    }
  }

  /*************************** The invariant ***************************/

  ghost predicate Queued(s: State, e: nat) {
    exists m :: m in s.queue && m.eventId == e
  }

  ghost predicate Held(s: State, e: nat) {
    exists c :: c in s.unacked && s.unacked[c].message.eventId == e
  }

  /** The event's message is in the broker's hands or has been handed to process_job. */
  ghost predicate Reached(s: State, e: nat) {
    e in s.handled || Queued(s, e) || Held(s, e)
  }

  ghost predicate Pending(s: State, e: nat) {
    exists row :: row in s.tables.events && row.id == e
  }

  predicate Known(s: State, e: Event) {
    e.id in s.changes && s.changes[e.id].matchId == e.matchId
  }

  predicate KnownMessage(s: State, m: Message) {
    m.eventId in s.changes && s.changes[m.eventId].matchId == m.matchId
  }

  predicate Distinct(events: seq<Event>) {
    forall i, j | 0 <= i < j < |events| :: events[i].id != events[j].id
  }

  ghost predicate OutboxSound(s: State) {
    && (forall e | e in s.changes :: e < s.tables.nextEvent)
    && (forall e | e in s.tables.events :: Known(s, e))
    && Distinct(s.tables.events)
  }

  ghost predicate MessagesSound(s: State) {
    && (forall m | m in s.queue :: KnownMessage(s, m))
    && (forall c | c in s.unacked :: KnownMessage(s, s.unacked[c].message))
    && (forall c | c in s.unacked && !s.unacked[c].job.Waiting? :: s.unacked[c].message.eventId in s.handled)
  }

  ghost predicate DrainsSound(s: State) {
    forall r | r in s.workers && s.workers[r].Draining? ::
      && s.workers[r].sent <= |s.workers[r].fetched|
      && (forall e | e in s.workers[r].fetched :: Known(s, e))
      && Distinct(s.workers[r].fetched)
  }

  /** Outbox rows, fetched rows and messages all stem from committed changes, each row with its own id. */
  ghost predicate WellFormed(s: State) {
    OutboxSound(s) && MessagesSound(s) && DrainsSound(s)
  }

  /** Nothing committed is lost, and a drain only counts as sent what it has sent. */
  ghost predicate NothingLost(s: State)
  {
    && (forall e | e in s.changes :: Pending(s, e) || Reached(s, e))
    && (forall r, i | r in s.workers && s.workers[r].Draining?
        && 0 <= i < s.workers[r].sent <= |s.workers[r].fetched| ::
          Reached(s, s.workers[r].fetched[i].id))
  }

  /** A handled event was read at or after its change. */
  ghost predicate ReadInTime(s: State) {
    forall e | e in s.handled :: e in s.changes && s.changes[e].version <= At(s.seen, s.changes[e].matchId)
  }

  /** Versions only count committed changes, and process_job reads no further than that. */
  ghost predicate VersionsCap(s: State) {
    Capped(s.changes, s.version, s.seen)
  }

  ghost predicate Capped(changes: map<nat, Change>, version: map<int, nat>, seen: map<int, nat>) {
    && (forall e | e in changes :: changes[e].version <= At(version, changes[e].matchId))
    && (forall m | m in seen :: seen[m] <= At(version, m))
  }

  ghost predicate HasChange(s: State, c: Change) {
    exists e :: e in s.changes && s.changes[e] == c
  }

  /** The newest version of a match came with an event. */
  ghost predicate NewestAnnounced(s: State) {
    forall m | m in s.version && 0 < s.version[m] :: HasChange(s, Change(m, s.version[m]))
  }

  ghost predicate Fresh(s: State) {
    ReadInTime(s) && VersionsCap(s) && NewestAnnounced(s)
  }

  /** Within one run no event is published twice. */
  ghost predicate PublishedOnce(s: State) {
    && (forall i, j | 0 <= i < j < |s.publishes| :: s.publishes[i] != s.publishes[j])
    && (forall i | 0 <= i < |s.publishes| :: s.publishes[i].0 < s.nextRun)
    && (forall r | r in s.workers :: r < s.nextRun)
    && (forall i | 0 <= i < |s.publishes| && s.publishes[i].0 in s.workers :: SentBefore(s, i))
  }

  /** The i-th publish is among those its run, if still alive, counts as sent. */
  ghost predicate SentBefore(s: State, i: nat)
    requires i < |s.publishes| && s.publishes[i].0 in s.workers
  {
    var w := s.workers[s.publishes[i].0];
    w.Draining? && w.sent <= |w.fetched| && exists k :: 0 <= k < w.sent && w.fetched[k].id == s.publishes[i].1
  }

  ghost predicate Inv(s: State) {
    WellFormed(s) && NothingLost(s) && Fresh(s) && PublishedOnce(s)
  }

  /*************************** Each step keeps it ***************************/

  lemma KnownForGood(s: State, a: Action)
    requires OutboxSound(s) && Enabled(s, a)
    ensures forall e | Known(s, e) :: Known(Apply(s, a), e)
    ensures forall m | KnownMessage(s, m) :: KnownMessage(Apply(s, a), m)
  {
  }

  lemma OutboxSoundKept(s: State, a: Action)
    requires OutboxSound(s) && Enabled(s, a)
    ensures OutboxSound(Apply(s, a))
  {
    KnownForGood(s, a);
    match a
    case SyncNext(r) => OutboxSoundAfterSync(s, r);
    case Delete(r) => WithoutKeepsDistinct(s.tables.events, EventIds(s.workers[r].fetched));
    case Backfill(batch) => BackfillKeepsOutbox(s.tables, batch);
    case _ =>
  }

  lemma OutboxSoundAfterSync(s: State, r: nat)
    requires OutboxSound(s) && Enabled(s, SyncNext(r))
    ensures OutboxSound(SyncStep(s, r))
  {
    hide Writes, Upsert, At, Admissible;
    var p := s.workers[r].rest[0];
    assert forall e | e in s.tables.events :: e.id < s.tables.nextEvent;
    if Writes(s.tables.matches, p) {
      assert SyncStep(s, r).tables.events == s.tables.events + [Event(s.tables.nextEvent, p.matchId)];
    } else {
      assert SyncStep(s, r).tables == s.tables && SyncStep(s, r).changes == s.changes;
    }
  }

  lemma QueueOrigin(s: State, a: Action, m: Message)
    requires Enabled(s, a) && m in Apply(s, a).queue
    ensures m in s.queue
         || (a.ConsumerDies? && m == s.unacked[a.consumer].message)
         || (a.Publish? && var e := s.workers[a.run].fetched[s.workers[a.run].sent]; m == Message(e.id, e.matchId))
  {
  }

  lemma SyncMovesNoMessages(s: State, r: nat)
    requires Enabled(s, SyncNext(r))
    ensures SyncStep(s, r).unacked == s.unacked && SyncStep(s, r).queue == s.queue
  {
  }

  lemma PublishMovesNoUnacked(s: State, r: nat)
    requires Enabled(s, Publish(r))
    ensures PublishStep(s, r).unacked == s.unacked
  {
  }

  lemma UnackedOrigin(s: State, a: Action, c: nat)
    requires Enabled(s, a) && c in Apply(s, a).unacked
    ensures var d := Apply(s, a).unacked[c];
            || (a.Deliver? && d.message in s.queue && d.job.Waiting?)
            || (c in s.unacked && d.message == s.unacked[c].message
                && (!d.job.Waiting? ==> !s.unacked[c].job.Waiting? || d.message.eventId in Apply(s, a).handled))
  {
    hide SyncStep, PublishStep;
    match a
    case Deliver(d, _) =>
    case Process(d) => assert c != d ==> c in s.unacked && Apply(s, a).unacked[c] == s.unacked[c];
    case Store(d) => assert c != d ==> c in s.unacked && Apply(s, a).unacked[c] == s.unacked[c];
    case Settle(d) => assert Apply(s, a).unacked[c] == s.unacked[c];
    case ConsumerDies(d) => assert Apply(s, a).unacked[c] == s.unacked[c];
    case SyncNext(r) => SyncMovesNoMessages(s, r);
    case Publish(r) => assert PublishStep(s, r).unacked == s.unacked by { PublishMovesNoUnacked(s, r); }
    case _ => assert Apply(s, a).unacked == s.unacked;
  }

  lemma MessagesSoundKept(s: State, a: Action)
    requires WellFormed(s) && Enabled(s, a)
    ensures MessagesSound(Apply(s, a))
  {
    KnownForGood(s, a);
    var next := Apply(s, a);
    assert s.handled <= next.handled;
    hide KnownMessage, Known, Apply, Enabled;
    forall m | m in next.queue ensures KnownMessage(next, m) {
      QueueOrigin(s, a, m);
      if a.Publish? && m !in s.queue {
        SentIsKnown(s, a.run);
      }
    }
    forall c | c in next.unacked
      ensures KnownMessage(next, next.unacked[c].message)
      ensures !next.unacked[c].job.Waiting? ==> next.unacked[c].message.eventId in next.handled
    {
      UnackedOrigin(s, a, c);
    }
  }

  lemma SentIsKnown(s: State, r: nat)
    requires WellFormed(s) && Enabled(s, Publish(r))
    ensures var e := s.workers[r].fetched[s.workers[r].sent]; KnownMessage(s, Message(e.id, e.matchId))
  {
    var w := s.workers[r];
    assert w.fetched[w.sent] in w.fetched;
    FetchedMessageKnown(s, w.fetched[w.sent]);
  }

  lemma FetchedMessageKnown(s: State, e: Event)
    requires Known(s, e)
    ensures KnownMessage(s, Message(e.id, e.matchId))
  {
  }

  lemma DrainsSoundKept(s: State, a: Action)
    requires WellFormed(s) && Enabled(s, a)
    ensures DrainsSound(Apply(s, a))
  {
    KnownForGood(s, a);
    hide Known, Distinct;
  }

  lemma WellFormedKept(s: State, a: Action)
    requires WellFormed(s) && Enabled(s, a)
    ensures WellFormed(Apply(s, a))
  {
    OutboxSoundKept(s, a);
    MessagesSoundKept(s, a);
    DrainsSoundKept(s, a);
  }

  lemma {:induction false} WithoutKeepsDistinct(events: seq<Event>, ids: set<nat>)
    requires Distinct(events)
    ensures Distinct(Without(events, ids))
    ensures forall e :: e in Without(events, ids) <==> e in events && e.id !in ids
  {
    WithoutMembers(events, ids);
    if events != [] {
      var n := |events| - 1;
      WithoutKeepsDistinct(events[..n], ids);
      WithoutMembers(events[..n], ids);
    }
  }

  lemma QueuedStaysReached(s: State, a: Action, e: nat)
    requires Enabled(s, a) && Queued(s, e)
    ensures Queued(Apply(s, a), e) || Held(Apply(s, a), e)
  {
    var next := Apply(s, a);
    var m :| m in s.queue && m.eventId == e;
    match a
    case Deliver(c, other) =>
      if m == other {
        assert next.unacked[c].message.eventId == e;
      } else {
        assert m in next.queue;
      }
    case _ =>
      assert m in next.queue;
  }

  lemma MessageStaysHeld(s: State, a: Action, c: nat)
    requires Enabled(s, a) && c in s.unacked && a != Settle(c) && a != ConsumerDies(c)
    ensures c in Apply(s, a).unacked && Apply(s, a).unacked[c].message == s.unacked[c].message
  {
    match a
    case SyncNext(r) => SyncMovesNoMessages(s, r);
    case Publish(r) => PublishMovesNoUnacked(s, r);
    case _ =>
  }

  lemma HeldStaysReached(s: State, a: Action, e: nat)
    requires WellFormed(s) && Enabled(s, a) && Held(s, e)
    ensures Reached(Apply(s, a), e)
  {
    var next := Apply(s, a);
    var c :| c in s.unacked && s.unacked[c].message.eventId == e;
    if a == ConsumerDies(c) {
      assert s.unacked[c].message in next.queue;
    } else if a == Settle(c) {
      assert e in s.handled && next.handled == s.handled;
    } else {
      MessageStaysHeld(s, a, c);
      hide Apply, Enabled, WellFormed, Queued;
    }
  }

  /** Nothing that was reached is ever unreached again. */
  lemma ReachedForGood(s: State, a: Action, e: nat)
    requires WellFormed(s) && Enabled(s, a) && Reached(s, e)
    ensures Reached(Apply(s, a), e)
  {
    if Queued(s, e) {
      QueuedStaysReached(s, a, e);
    } else if Held(s, e) {
      HeldStaysReached(s, a, e);
    } else {
      hide Queued, Held;
      assert e in s.handled && s.handled <= Apply(s, a).handled;
    }
  }

  /** A pending event stays pending until a drain that published it deletes it. */
  lemma PendingUntilDeleted(s: State, a: Action, e: nat)
    requires WellFormed(s) && NothingLost(s) && Enabled(s, a) && Pending(s, e)
    ensures Pending(Apply(s, a), e) || Reached(s, e)
  {
    var row :| row in s.tables.events && row.id == e;
    match a
    case Delete(r) =>
      WithoutMembers(s.tables.events, EventIds(s.workers[r].fetched));
      if e in EventIds(s.workers[r].fetched) {
        var f :| f in s.workers[r].fetched && f.id == e;
        var i :| 0 <= i < |s.workers[r].fetched| && s.workers[r].fetched[i] == f;
        assert Reached(s, s.workers[r].fetched[i].id);
      } else {
        assert row in Apply(s, a).tables.events;
      }
    case Backfill(batch) =>
      BackfillKeepsOutbox(s.tables, batch);
      assert row in Apply(s, a).tables.events;
    case _ =>
      assert row in Apply(s, a).tables.events;
  }

  lemma {:induction false} NothingLostKept(s: State, a: Action)
    requires WellFormed(s) && NothingLost(s) && Enabled(s, a)
    ensures NothingLost(Apply(s, a))
  {
    var next := Apply(s, a);
    hide Queued, Held;
    forall e | e in next.changes ensures Pending(next, e) || Reached(next, e) {
      if e in s.changes {
        if Pending(s, e) { PendingUntilDeleted(s, a, e); }
        if Reached(s, e) { ReachedForGood(s, a, e); }
      } else {
        NewChangePending(s, a, e);
      }
    }
    forall r, i | r in next.workers && next.workers[r].Draining?
        && 0 <= i < next.workers[r].sent <= |next.workers[r].fetched|
      ensures Reached(next, next.workers[r].fetched[i].id)
    {
      if a == Publish(r) && i == s.workers[r].sent {
        JustPublished(s, r);
      } else {
        assert r in s.workers && s.workers[r].Draining? && s.workers[r].fetched == next.workers[r].fetched
               && i < s.workers[r].sent by {
          DrainsOnlyPublish(s, a, r, i);
        }
        ReachedForGood(s, a, s.workers[r].fetched[i].id);
      }
    }
  }

  lemma DrainsOnlyPublish(s: State, a: Action, r: nat, i: nat)
    requires WellFormed(s) && Enabled(s, a)
    requires r in Apply(s, a).workers && Apply(s, a).workers[r].Draining? && i < Apply(s, a).workers[r].sent
    requires !(a == Publish(r) && i == s.workers[r].sent)
    ensures r in s.workers && s.workers[r].Draining? && s.workers[r].fetched == Apply(s, a).workers[r].fetched
            && i < s.workers[r].sent
  {
  }

  lemma NewChangePending(s: State, a: Action, e: nat)
    requires Enabled(s, a) && e in Apply(s, a).changes && e !in s.changes
    ensures Pending(Apply(s, a), e)
  {
    var p := s.workers[a.run].rest[0];
    assert Event(s.tables.nextEvent, p.matchId) in Apply(s, a).tables.events;
  }

  lemma JustPublished(s: State, r: nat)
    requires Enabled(s, Publish(r))
    ensures Reached(PublishStep(s, r), s.workers[r].fetched[s.workers[r].sent].id)
  {
    var e := s.workers[r].fetched[s.workers[r].sent];
    assert Message(e.id, e.matchId) in PublishStep(s, r).queue;
  }

  lemma FreshKept(s: State, a: Action)
    requires WellFormed(s) && Fresh(s) && Enabled(s, a)
    ensures Fresh(Apply(s, a))
  {
    ReadInTimeKept(s, a);
    VersionsCapKept(s, a);
    NewestAnnouncedKept(s, a);
  }

  lemma SeenGrows(s: State, a: Action, m: int)
    requires VersionsCap(s) && Enabled(s, a)
    ensures At(s.seen, m) <= At(Apply(s, a).seen, m)
  {
  }

  lemma ChangesStay(s: State, a: Action, e: nat)
    requires OutboxSound(s) && Enabled(s, a) && e in s.changes
    ensures e in Apply(s, a).changes && Apply(s, a).changes[e] == s.changes[e]
  {
  }

  lemma HandledOrigin(s: State, a: Action, e: nat)
    requires Enabled(s, a) && e in Apply(s, a).handled && e !in s.handled
    ensures a.Process? && e == s.unacked[a.consumer].message.eventId
  {
  }

  lemma ReadInTimeKept(s: State, a: Action)
    requires WellFormed(s) && ReadInTime(s) && VersionsCap(s) && Enabled(s, a)
    ensures ReadInTime(Apply(s, a))
  {
    var next := Apply(s, a);
    hide Apply, Enabled, At, VersionsCap;
    forall e | e in next.handled
      ensures e in next.changes && next.changes[e].version <= At(next.seen, next.changes[e].matchId)
    {
      if e in s.handled {
        ChangesStay(s, a, e);
        SeenGrows(s, a, s.changes[e].matchId);
      } else {
        HandledOrigin(s, a, e);
        JustRead(s, a);
      }
    }
  }

  lemma JustRead(s: State, a: Action)
    requires WellFormed(s) && VersionsCap(s) && Enabled(s, a) && a.Process?
    ensures var next, e := Apply(s, a), s.unacked[a.consumer].message.eventId;
            e in next.changes && next.changes[e].version <= At(next.seen, next.changes[e].matchId)
  {
    assert KnownMessage(s, s.unacked[a.consumer].message);
  }

  /** Outside a sync and a read, no version moves. */
  lemma VersionsMoveOnly(s: State, a: Action)
    requires Enabled(s, a) && !a.SyncNext?
    ensures Apply(s, a).changes == s.changes && Apply(s, a).version == s.version
    ensures !a.Process? ==> Apply(s, a).seen == s.seen
  {
  }

  lemma CappedAfterChange(changes: map<nat, Change>, version: map<int, nat>, seen: map<int, nat>, e: nat, m: int)
    requires Capped(changes, version, seen)
    ensures var v := At(version, m) + 1; Capped(changes[e := Change(m, v)], version[m := v], seen)
  {
  }

  lemma SyncMovesVersions(s: State, r: nat)
    requires Enabled(s, SyncNext(r))
    ensures SyncStep(s, r).seen == s.seen
    ensures var p, v := s.workers[r].rest[0], At(s.version, s.workers[r].rest[0].matchId) + 1;
            if Writes(s.tables.matches, p) then
              SyncStep(s, r).version == s.version[p.matchId := v]
              && SyncStep(s, r).changes == s.changes[s.tables.nextEvent := Change(p.matchId, v)]
            else
              SyncStep(s, r).version == s.version && SyncStep(s, r).changes == s.changes
  {
    hide Writes, Admissible, SyncOne, At;
  }

  lemma CappedAfterRead(changes: map<nat, Change>, version: map<int, nat>, seen: map<int, nat>, m: int)
    requires Capped(changes, version, seen)
    ensures Capped(changes, version, seen[m := At(version, m)])
  {
  }

  lemma ReadMovesSeen(s: State, c: nat)
    requires Enabled(s, Process(c))
    ensures var m := s.unacked[c].message.matchId; ProcessStep(s, c).seen == s.seen[m := At(s.version, m)]
  {
  }

  lemma VersionsCapKept(s: State, a: Action)
    requires VersionsCap(s) && Enabled(s, a)
    ensures VersionsCap(Apply(s, a))
  {
    hide Capped, At, Writes, SyncStep, ProcessStep;
    match a
    case SyncNext(r) =>
      SyncMovesVersions(s, r);
      CappedAfterChange(s.changes, s.version, s.seen, s.tables.nextEvent, s.workers[r].rest[0].matchId);
    case Process(c) =>
      VersionsMoveOnly(s, a);
      ReadMovesSeen(s, c);
      CappedAfterRead(s.changes, s.version, s.seen, s.unacked[c].message.matchId);
    case _ =>
      VersionsMoveOnly(s, a);
      hide Apply, Enabled;
  }

  lemma NewestAnnouncedKept(s: State, a: Action)
    requires WellFormed(s) && NewestAnnounced(s) && Enabled(s, a)
    ensures NewestAnnounced(Apply(s, a))
  {
    var next := Apply(s, a);
    hide HasChange;
    forall m | m in next.version && 0 < next.version[m] ensures HasChange(next, Change(m, next.version[m])) {
      if m in s.version && next.version[m] == s.version[m] {
        ChangesGrow(s, a, Change(m, s.version[m]));
      } else {
        NewChange(s, a, m);
      }
    }
  }

  lemma ChangesGrow(s: State, a: Action, c: Change)
    requires WellFormed(s) && Enabled(s, a) && HasChange(s, c)
    ensures HasChange(Apply(s, a), c)
  {
    var e :| e in s.changes && s.changes[e] == c;
    ChangesStay(s, a, e);
  }

  lemma NewChange(s: State, a: Action, m: int)
    requires Enabled(s, a) && m in Apply(s, a).version
    requires m !in s.version || Apply(s, a).version[m] != s.version[m]
    ensures HasChange(Apply(s, a), Change(m, Apply(s, a).version[m]))
  {
    assert Apply(s, a).changes[s.tables.nextEvent] == Change(m, Apply(s, a).version[m]);
  }

  lemma PublishedOnceKept(s: State, a: Action)
    requires WellFormed(s) && PublishedOnce(s) && Enabled(s, a)
    ensures PublishedOnce(Apply(s, a))
  {
    if a.Publish? {
      OnceAfterPublish(s, a.run);
    } else {
      OnceElsewhere(s, a);
    }
  }

  lemma JobsLeaveWorkers(s: State, a: Action)
    requires Enabled(s, a) && (a.Process? || a.Store? || a.Settle?)
    ensures Apply(s, a).workers == s.workers
  {
  }

  lemma DrainUntouched(s: State, a: Action, r: nat)
    requires PublishedOnce(s) && Enabled(s, a) && !a.Publish? && r < s.nextRun && r in Apply(s, a).workers
    ensures r in s.workers
    ensures s.workers[r].Draining? ==> Apply(s, a).workers[r] == s.workers[r]
  {
    hide ProcessStep, StoreStep, SettleStep;
    match a
    case StartRun(_) => assert r in s.workers && Apply(s, a).workers[r] == s.workers[r];
    case SyncNext(q) => assert r != q ==> Apply(s, a).workers[r] == s.workers[r];
    case Process(c) => JobsLeaveWorkers(s, a);
    case Store(c) => JobsLeaveWorkers(s, a);
    case Settle(c) => JobsLeaveWorkers(s, a);
    case _ =>
  }

  lemma OnceElsewhere(s: State, a: Action)
    requires PublishedOnce(s) && Enabled(s, a) && !a.Publish?
    ensures PublishedOnce(Apply(s, a))
  {
    var next := Apply(s, a);
    assert next.publishes == s.publishes && s.nextRun <= next.nextRun;
    forall i | 0 <= i < |next.publishes| && next.publishes[i].0 in next.workers ensures SentBefore(next, i) {
      DrainUntouched(s, a, next.publishes[i].0);
      assert SentBefore(s, i);
    }
    forall r | r in next.workers ensures r < next.nextRun {
      if !(a.StartRun? && r == s.nextRun) { assert r in s.workers; }
    }
  }

  lemma OnceAfterPublish(s: State, r: nat)
    requires WellFormed(s) && PublishedOnce(s) && Enabled(s, Publish(r))
    ensures PublishedOnce(PublishStep(s, r))
  {
    var next := PublishStep(s, r);
    var w := s.workers[r];
    var e := w.fetched[w.sent].id;
    forall i | 0 <= i < |s.publishes| ensures s.publishes[i] != (r, e) {
      if s.publishes[i].0 == r {
        assert SentBefore(s, i);
        var k :| 0 <= k < w.sent && w.fetched[k].id == s.publishes[i].1;
      }
    }
    forall i | 0 <= i < |next.publishes| && next.publishes[i].0 in next.workers
      ensures SentBefore(next, i)
    {
      if i < |s.publishes| {
        assert SentBefore(s, i);
        var v := s.workers[s.publishes[i].0];
        var k :| 0 <= k < v.sent && v.fetched[k].id == s.publishes[i].1;
        assert next.workers[next.publishes[i].0].fetched[k].id == next.publishes[i].1;
      } else {
        assert next.workers[r].fetched[w.sent].id == e;
      }
    }
  }

  /*************************** Over every run ***************************/

  lemma {:induction false} InvariantOverRuns(states: seq<State>, actions: seq<Action>, i: nat)
    requires IsRun(states, actions) && i < |states|
    ensures Inv(states[i])
  {
    hide WellFormed, NothingLost, Fresh, PublishedOnce, Apply, Enabled, Initial;
    if i == 0 {
      InitialInv(states[0]);
    } else {
      InvariantOverRuns(states, actions, i - 1);
      assert Enabled(states[i - 1], actions[i - 1]) && states[i] == Apply(states[i - 1], actions[i - 1]);
      WellFormedKept(states[i - 1], actions[i - 1]);
      NothingLostKept(states[i - 1], actions[i - 1]);
      FreshKept(states[i - 1], actions[i - 1]);
      PublishedOnceKept(states[i - 1], actions[i - 1]);
    }
  }

  lemma InitialInv(s: State)
    requires Initial(s)
    ensures Inv(s)
  {
  }

  /**
   No committed change is lost, whoever dies when: its event is in the outbox, or its message is
   queued, held unacked, or was handed to process_job, which then read the change or a newer one.
   */
  lemma NoChangeLost(states: seq<State>, actions: seq<Action>, i: nat, e: nat)
    requires IsRun(states, actions) && i < |states| && e in states[i].changes
    ensures Pending(states[i], e) || Queued(states[i], e) || Held(states[i], e)
         || (e in states[i].handled && states[i].changes[e].version <= At(states[i].seen, states[i].changes[e].matchId))
  {
    InvariantOverRuns(states, actions, i);
  }

  /** Once outbox, queue and consumers are empty, every match was last read at its latest committed change. */
  lemma QuietMeansCaughtUp(states: seq<State>, actions: seq<Action>, i: nat, matchId: int)
    requires IsRun(states, actions) && i < |states|
    requires states[i].tables.events == [] && states[i].queue == multiset{} && states[i].unacked == map[]
    ensures At(states[i].seen, matchId) == At(states[i].version, matchId)
  {
    InvariantOverRuns(states, actions, i);
    var s := states[i];
    if matchId in s.version && 0 < s.version[matchId] {
      assert HasChange(s, Change(matchId, s.version[matchId]));
      var e :| e in s.changes && s.changes[e] == Change(matchId, s.version[matchId]);
      NoChangeLost(states, actions, i, e);
    }
  }

  /** The delete after a drain spares every event committed since its fetch. */
  lemma DeleteSparesLaterEvents(states: seq<State>, actions: seq<Action>, i: nat, r: nat, e: Event)
    requires IsRun(states, actions) && i < |actions| && actions[i] == Delete(r)
    requires e in states[i].tables.events && e !in states[i].workers[r].fetched
    ensures e in states[i + 1].tables.events
  {
    InvariantOverRuns(states, actions, i);
    var s := states[i];
    WithoutMembers(s.tables.events, EventIds(s.workers[r].fetched));
  }

  /** A run publishes an event at most once. */
  lemma NoDuplicateWithinADrain(states: seq<State>, actions: seq<Action>, i: nat, p: nat, q: nat)
    requires IsRun(states, actions) && i < |states| && p < q < |states[i].publishes|
    ensures states[i].publishes[p] != states[i].publishes[q]
  {
    InvariantOverRuns(states, actions, i);
  }
}
