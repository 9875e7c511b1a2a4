/** One run of the worker: sync, fetch, publish, delete, with the failures that can stop it. */
module Worker {
  import opened ChangeGate

  /** What gets through when only so many publishes succeed. */
  function Surviving(ids: seq<int>, healthy: nat): seq<int> {
    if |ids| <= healthy then ids else ids[..healthy]
  }

  /** The durable queue, as seen by the producer. */
  class Broker {
    var queue: seq<int>

    /**
     `run_producer`: publishes one message per id, in order. The connection survives `healthy`
     publishes; the next one raises out of the loop.
     */
    method RunProducer(ids: seq<int>, healthy: nat) returns (ok: bool)
      modifies this
      ensures ok <==> |ids| <= healthy
      ensures queue == old(queue) + Surviving(ids, healthy)
    {
      for i := 0 to |ids|
        invariant i <= healthy && queue == old(queue) + ids[..i]
      {
        if i == healthy {
          return false;
        }
        queue := queue + [ids[i]];
      }
      assert ids[..|ids|] == ids;
      ok := true;
    }
  }

  function MatchIds(events: seq<Event>): (ids: seq<int>)
    ensures |ids| == |events| && forall i | 0 <= i < |ids| :: ids[i] == events[i].matchId
  {
    seq(|events|, i requires 0 <= i < |events| => events[i].matchId)
  }

  function EventIds(events: seq<Event>): set<nat> {
    set e | e in events :: e.id
  }

  /**
   What goes wrong during a run: how many matches are spared, how many publishes succeed, whether the
   delete raises.
   */
  datatype Faults = Faults(healthyMatches: nat, healthyPublishes: nat, deleteRaises: bool)

  lemma {:induction false} DeleteEmpties(events: seq<Event>, ids: set<nat>)
    requires forall e | e in events :: e.id in ids
    ensures Without(events, ids) == []
  {
    if events != [] { DeleteEmpties(events[..|events| - 1], ids); }
  }

  predicate FaultlessDrain(owed: seq<Event>, faults: Faults) {
    |owed| <= faults.healthyPublishes && !faults.deleteRaises
  }

  /** What a run leaves behind, given what it found. */
  ghost predicate RunOutcome(before: Tables, queue: seq<int>, batch: seq<Payload>, faults: Faults,
                             ok: bool, after: Tables, queue': seq<int>) {
    var n := Accepted(batch, faults.healthyMatches);
    var owed := SyncAll(before, batch[..n]);
    && after == owed.(events := if ok then [] else owed.events)
    && queue' == queue + (if n == |batch| then Surviving(MatchIds(owed.events), faults.healthyPublishes) else [])
    && (ok <==> n == |batch| && (owed.events == [] || FaultlessDrain(owed.events, faults)))
  }

  /**
   `main` with nothing else writing. Events are only deleted once all of them were published, so
   whatever fails, each one owed is still in the outbox or its match is in the queue. A run without
   faults succeeds, and a run that succeeds leaves the outbox empty and every owed match queued in order.
   */
  method DailyRun(db: Database, broker: Broker, batch: seq<Payload>, faults: Faults) returns (ok: bool)
    modifies db, broker
    ensures RunOutcome(old(db.Value()), old(broker.queue), batch, faults, ok, db.Value(), broker.queue)
    ensures forall e | e in SyncAll(old(db.Value()), batch[..Accepted(batch, faults.healthyMatches)]).events ::
              e in db.events || e.matchId in broker.queue
    ensures var owed := SyncAll(old(db.Value()), batch[..Accepted(batch, faults.healthyMatches)]).events;
            && (ok ==> db.events == [] && broker.queue == old(broker.queue) + MatchIds(owed))
            && (!ok ==> db.events == owed)
    ensures && (forall p | p in batch :: Admissible(p)) && |batch| <= faults.healthyMatches && !faults.deleteRaises
            && |SyncAll(old(db.Value()), batch).events| <= faults.healthyPublishes
            ==> ok
  {
    assert batch[..|batch|] == batch;
    var outcome := db.SyncMatches(batch, faults.healthyMatches);
    if outcome.Raised? {
      return false;
    }
    var events := db.FetchEvents();
    if events != [] {
      var published := broker.RunProducer(MatchIds(events), faults.healthyPublishes);
      if !published || faults.deleteRaises {
        return false;
      }
      DeleteEmpties(events, EventIds(events));
      AllQueued(events, old(broker.queue));
      db.DeleteEvents(EventIds(events));
    }
    ok := true;
  }

  lemma AllQueued(events: seq<Event>, queue: seq<int>)
    ensures forall e | e in events :: e.matchId in queue + MatchIds(events)
  {
    forall e | e in events ensures e.matchId in queue + MatchIds(events) {
      var i :| 0 <= i < |events| && events[i] == e;
      assert (queue + MatchIds(events))[|queue| + i] == e.matchId;
    }
  }
}
