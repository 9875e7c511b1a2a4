/** A job without interleaving is one job's steps of the serving protocol. */
module JobRefinement {
  import opened Options
  import opened Predictions
  import opened Handler
  import Serving

  /** The protocol's state holds these rows, this prose and these cached texts. */
  ghost predicate Shows(s: Serving.State, c: Contents) {
    && s.predictions == c.predictions
    && (forall m :: Serving.Current(s.previews, m) == if m in c.commentary then Some(c.commentary[m]) else None)
    && s.cache.Keys == c.cache.Keys
    && (forall m | m in c.cache :: s.cache[m].text == c.cache[m])
  }

  lemma CurrentAppend(previews: seq<Serving.Preview>, p: Serving.Preview, m: int)
    ensures Serving.Current(previews + [p], m) == if p.matchId == m then Some(p.text) else Serving.Current(previews, m)
  {
    assert (previews + [p])[..|previews|] == previews;
  }

  lemma Rewritten<T>(m: map<nat, T>, k: nat, x: T, y: T)
    ensures m[k := x][k := y] == m[k := y]
    ensures k !in m ==> m[k := x] - {k} == m
  {
  }

  lemma OneStart(s: Serving.State, j: nat, key: PredictionKey, row: PredictionRow, text: Option<string>, delay: nat)
    requires j !in s.jobs
    ensures var a := Serving.StartJob(j, key, row, text);
            Serving.Enabled(s, a, delay)
                && Serving.Apply(s, a, delay) == s.(jobs := s.jobs[j := Serving.Computed(key, row, text)])
  {
  }

  lemma OneNumbers(s: Serving.State, j: nat, key: PredictionKey, row: PredictionRow, text: Option<string>, delay: nat)
    requires j in s.jobs && s.jobs[j] == Serving.Computed(key, row, text) && ChecksHold(row) && FitsColumns(row)
    ensures var a := Serving.StorePrediction(j);
            Serving.Enabled(s, a, delay)
                && Serving.Apply(s, a, delay) == s.(jobs := s.jobs[j := Serving.StoredNumbers(key, row, text)])
  {
  }

  lemma OneProse(s: Serving.State, j: nat, key: PredictionKey, row: PredictionRow, text: string, delay: nat)
    requires j in s.jobs && s.jobs[j] == Serving.StoredNumbers(key, row, Some(text))
    ensures var a := Serving.StoreCommentary(j);
            Serving.Enabled(s, a, delay)
                && Serving.Apply(s, a, delay) == s.(jobs := s.jobs[j := Serving.StoredBoth(key, row, text)])
  {
  }

  lemma OneCommit(s: Serving.State, j: nat, key: PredictionKey, row: PredictionRow, text: string, delay: nat)
    requires j in s.jobs
    ensures s.jobs[j] == Serving.StoredNumbers(key, row, None) ==>
              Serving.Enabled(s, Serving.Commit(j), delay)
              && Serving.Apply(s, Serving.Commit(j), delay)
                 == s.(predictions := s.predictions[key := row], jobs := s.jobs - {j})
    ensures s.jobs[j] == Serving.StoredBoth(key, row, text) ==>
              Serving.Enabled(s, Serving.Commit(j), delay)
              && Serving.Apply(s, Serving.Commit(j), delay)
                 == s.(predictions := s.predictions[key := row],
                       previews := s.previews + [Serving.Preview(key.matchId, text, s.now)],
                       jobs := s.jobs[j := Serving.Warming(key.matchId, text, s.now)])
  {
  }

  lemma OneEnd(s: Serving.State, j: nat, m: int, text: string, delay: nat)
    requires j in s.jobs
    ensures Serving.Enabled(s, Serving.Abandon(j), delay)
    ensures Serving.Apply(s, Serving.Abandon(j), delay) == s.(jobs := s.jobs - {j})
    ensures s.jobs[j] == Serving.Warming(m, text, s.now) ==>
              Serving.Enabled(s, Serving.Warm(j), delay)
              && Serving.Apply(s, Serving.Warm(j), delay)
                 == s.(cache := s.cache[m := Serving.Entry(text, s.now + Serving.TTL)], jobs := s.jobs - {j})
  {
  }

  /** What the steps of one uninterrupted job make of a state. */
  function AfterJob(s: Serving.State, key: PredictionKey, row: PredictionRow, draft: Draft,
                    faults: Faults): Serving.State {
    if !Commits(row, draft, faults) then s
    else if draft.text.None? then s.(predictions := s.predictions[key := row])
    else
      var m, text := key.matchId, draft.text.value;
      s.(predictions := s.predictions[key := row],
         previews := s.previews + [Serving.Preview(m, text, s.now)],
         cache := if faults.warm.Warmed? then s.cache[m := Serving.Entry(text, s.now + Serving.TTL)] else s.cache)
  }

  /** The job's steps, up to its commit, on numbers that may be stored. */
  lemma StartAndStore(s: Serving.State, j: nat, key: PredictionKey, row: PredictionRow, text: Option<string>,
                      delay: nat)
    returns (actions: seq<Serving.Action>, t: Serving.State)
    requires j !in s.jobs && ChecksHold(row) && FitsColumns(row)
    ensures Serving.Leads(s, actions, t, delay)
    ensures t == s.(jobs := s.jobs[j := Serving.StoredNumbers(key, row, text)])
  {
    hide Serving.Apply, Serving.Enabled, Serving.Leads, ChecksHold, FitsColumns;
    var start, store := Serving.StartJob(j, key, row, text), Serving.StorePrediction(j);
    OneStart(s, j, key, row, text, delay);
    var u := Serving.Apply(s, start, delay);
    NoSteps(s, delay);
    Serving.LeadsFurther(s, [], s, start, delay);
    OneNumbers(u, j, key, row, text, delay);
    Serving.LeadsFurther(s, [] + [start], u, store, delay);
    actions, t := [] + [start] + [store], Serving.Apply(u, store, delay);
    Rewritten(s.jobs, j, Serving.Computed(key, row, text), Serving.StoredNumbers(key, row, text));
  }

  lemma NoSteps(s: Serving.State, delay: nat)
    ensures Serving.Leads(s, [], s, delay)
  {
  }

  /** Numbers and prose in one commit, then the warm that may fail. */
  lemma ProseCommitWarm(s: Serving.State, t: Serving.State, before: seq<Serving.Action>, j: nat, key: PredictionKey,
                        row: PredictionRow, text: string, warmed: bool, delay: nat)
    returns (actions: seq<Serving.Action>, last: Serving.State)
    requires j !in s.jobs && Serving.Leads(s, before, t, delay)
    requires t == s.(jobs := s.jobs[j := Serving.StoredNumbers(key, row, Some(text))])
    ensures Serving.Leads(s, actions, last, delay)
    ensures last == s.(predictions := s.predictions[key := row],
                       previews := s.previews + [Serving.Preview(key.matchId, text, s.now)],
                       cache := if warmed then s.cache[key.matchId := Serving.Entry(text, s.now + Serving.TTL)]
                                else s.cache)
  {
    hide Serving.Apply, Serving.Enabled, Serving.Leads;
    OneProse(t, j, key, row, text, delay);
    var u := Serving.Apply(t, Serving.StoreCommentary(j), delay);
    Serving.LeadsFurther(s, before, t, Serving.StoreCommentary(j), delay);
    OneCommit(u, j, key, row, text, delay);
    var v := Serving.Apply(u, Serving.Commit(j), delay);
    Serving.LeadsFurther(s, before + [Serving.StoreCommentary(j)], u, Serving.Commit(j), delay);
    OneEnd(v, j, key.matchId, text, delay);
    var end := if warmed then Serving.Warm(j) else Serving.Abandon(j);
    Serving.LeadsFurther(s, before + [Serving.StoreCommentary(j)] + [Serving.Commit(j)], v, end, delay);
    actions, last := before + [Serving.StoreCommentary(j)] + [Serving.Commit(j)] + [end], Serving.Apply(v, end, delay);
    Rewritten(s.jobs, j, Serving.StoredNumbers(key, row, Some(text)), Serving.StoredBoth(key, row, text));
    Rewritten(s.jobs, j, Serving.StoredBoth(key, row, text), Serving.Warming(key.matchId, text, s.now));
    Rewritten(s.jobs, j, Serving.Warming(key.matchId, text, s.now), Serving.Warming(key.matchId, text, s.now));
  }

  /** One job from start to end, whatever raises in it, is a stretch of the protocol that leaves no trace of the job. */
  lemma JobPath(s: Serving.State, j: nat, key: PredictionKey, row: PredictionRow, draft: Draft, faults: Faults,
                delay: nat)
    returns (actions: seq<Serving.Action>)
    requires j !in s.jobs
    ensures Serving.Leads(s, actions, AfterJob(s, key, row, draft, faults), delay)
  {
    hide Serving.Apply, Serving.Enabled, Serving.Leads, ChecksHold, FitsColumns;
    if !Commits(row, draft, faults) {
      var text := if draft.Returned? then draft.text else None;
      var start := Serving.StartJob(j, key, row, text);
      NoSteps(s, delay);
      OneStart(s, j, key, row, text, delay);
      var u := Serving.Apply(s, start, delay);
      Serving.LeadsFurther(s, [], s, start, delay);
      OneEnd(u, j, 0, "", delay);
      Serving.LeadsFurther(s, [] + [start], u, Serving.Abandon(j), delay);
      actions := [] + [start] + [Serving.Abandon(j)];
      Rewritten(s.jobs, j, Serving.Computed(key, row, text), Serving.Computed(key, row, text));
    } else {
      var stored, t := StartAndStore(s, j, key, row, draft.text, delay);
      if draft.text.Some? {
        var last: Serving.State;
        actions, last := ProseCommitWarm(s, t, stored, j, key, row, draft.text.value, faults.warm.Warmed?, delay);
      } else {
        OneCommit(t, j, key, row, "", delay);
        Serving.LeadsFurther(s, stored, t, Serving.Commit(j), delay);
        actions := stored + [Serving.Commit(j)];
        Rewritten(s.jobs, j, Serving.StoredNumbers(key, row, None), Serving.StoredNumbers(key, row, None));
      }
    }
  }

  /**
   What `process_job` leaves in Postgres and Redis is what one job's steps of the serving protocol
   leave there: start, store the numbers, store the prose, commit, and warm or give up.
   */
  lemma ProcessJobIsAJob(s: Serving.State, before: Contents, j: nat, key: PredictionKey, row: PredictionRow,
                         draft: Draft, faults: Faults, delay: nat)
    returns (actions: seq<Serving.Action>, t: Serving.State)
    requires Shows(s, before) && j !in s.jobs
    ensures Serving.Leads(s, actions, t, delay)
    ensures Shows(t, JobResult(before, key, row, draft, faults))
    ensures t.jobs == s.jobs && t.requests == s.requests && t.responses == s.responses && t.now == s.now
  {
    hide Serving.Leads;
    actions := JobPath(s, j, key, row, draft, faults, delay);
    t := AfterJob(s, key, row, draft, faults);
    if Commits(row, draft, faults) {
      if draft.text.Some? {
        ProseShows(s, before, key, row, draft.text.value, faults.warm.Warmed?);
      }
    }
  }

  /** New prose and numbers, and perhaps a new cache entry, on both sides. */
  lemma ProseShows(s: Serving.State, before: Contents, key: PredictionKey, row: PredictionRow, text: string,
                   warmed: bool)
    requires Shows(s, before)
    ensures var m := key.matchId;
            Shows(s.(predictions := s.predictions[key := row],
                     previews := s.previews + [Serving.Preview(m, text, s.now)],
                     cache := if warmed then s.cache[m := Serving.Entry(text, s.now + Serving.TTL)] else s.cache),
                  Contents(before.predictions[key := row], before.commentary[m := text],
                           if warmed then before.cache[m := text] else before.cache))
  {
    hide Serving.Current;
    var p := Serving.Preview(key.matchId, text, s.now);
    forall m
      ensures Serving.Current(s.previews + [p], m)
           == if p.matchId == m then Some(p.text) else Serving.Current(s.previews, m)
    {
      CurrentAppend(s.previews, p, m);
    }
  }
}
