/**
 The serving protocol as a state machine: brain jobs writing numbers and prose in one transaction
 and then warming the cache, API requests reading through it, and everything that can interleave.
 Each awaited effect is one step.
 */
module Serving {
  import opened Options
  import opened Predictions

  const TTL: nat := 86400

  /** One committed preview; the match's current text is its latest. */
  datatype Preview = Preview(matchId: int, text: string, at: nat)

  datatype Entry = Entry(text: string, expires: nat)

  /** `process_job` from the moment its numbers and its optional preview are computed. */
  datatype Job =
    | Computed(key: PredictionKey, numbers: PredictionRow, preview: Option<string>)
    | StoredNumbers(key: PredictionKey, numbers: PredictionRow, preview: Option<string>)
    | StoredBoth(key: PredictionKey, numbers: PredictionRow, text: string)
    | Warming(matchId: int, text: string, at: nat)

  /** `asyncprediction`: waiting for Redis, for Postgres, for the backfill, or to answer 404. */
  datatype Request =
    | Asked(matchId: int, after: nat)
    | Missed(matchId: int, after: nat)
    | Found(matchId: int, after: nat, text: string, at: nat)
    | Absent(matchId: int, after: nat)

  datatype Reply = Served(text: string) | NotFound | Failed

  /** An answer, when its text was read, and how many answers had gone out before it was asked for. */
  datatype Response = Response(matchId: int, reply: Reply, readAt: nat, after: nat)

  datatype State = State(
    now: nat,
    predictions: map<PredictionKey, PredictionRow>,
    previews: seq<Preview>,
    cache: map<int, Entry>,
    jobs: map<nat, Job>,
    requests: map<nat, Request>,
    responses: seq<Response>)

  datatype Action =
    | Tick
    | StartJob(job: nat, key: PredictionKey, numbers: PredictionRow, preview: Option<string>)
    | StorePrediction(job: nat)
    | StoreCommentary(job: nat)
    | Commit(job: nat)
    | Abandon(job: nat)
    | Warm(job: nat)
    | Evict(matchId: int)
    | Ask(request: nat, matchId: int)
    | GetHit(request: nat)
    | GetMiss(request: nat)
    | ReadPostgres(request: nat)
    | SetCache(request: nat)
    | AnswerAbsent(request: nat)
    | ReadDirect(request: nat)
    | Fail(request: nat)

  /** `get_prediction`: the commentary row's text, if there is one. */
  function Current(previews: seq<Preview>, matchId: int): Option<string> {
    if previews == [] then None
    else if previews[|previews| - 1].matchId == matchId then Some(previews[|previews| - 1].text)
    else Current(previews[..|previews| - 1], matchId)
  }

  predicate Cached(s: State, matchId: int) {
    matchId in s.cache && s.now < s.cache[matchId].expires
  }

  /** `delay` bounds the time from reading or committing a text to the Redis write that follows. */
  predicate Enabled(s: State, a: Action, delay: nat) {
    match a
    case Tick => true
    case StartJob(j, _, _, _) => j !in s.jobs
    case StorePrediction(j) => j in s.jobs && s.jobs[j].Computed? && ChecksHold(s.jobs[j].numbers)
        && FitsColumns(s.jobs[j].numbers)
    case StoreCommentary(j) => j in s.jobs && s.jobs[j].StoredNumbers? && s.jobs[j].preview.Some?
    case Commit(j) => j in s.jobs && (s.jobs[j].StoredBoth? || (s.jobs[j].StoredNumbers? && s.jobs[j].preview.None?))
    case Abandon(j) => j in s.jobs
    case Warm(j) => j in s.jobs && s.jobs[j].Warming? && s.now <= s.jobs[j].at + delay
    case Evict(m) => m in s.cache
    case Ask(q, _) => q !in s.requests
    case GetHit(q) => q in s.requests && s.requests[q].Asked? && Cached(s, s.requests[q].matchId)
    case GetMiss(q) => q in s.requests && s.requests[q].Asked? && !Cached(s, s.requests[q].matchId)
    case ReadPostgres(q) => q in s.requests && s.requests[q].Missed?
    case SetCache(q) => q in s.requests && s.requests[q].Found? && s.now <= s.requests[q].at + delay
    case AnswerAbsent(q) => q in s.requests && s.requests[q].Absent?
    case ReadDirect(q) => q in s.requests && s.requests[q].Asked?
    case Fail(q) => q in s.requests
  }

  function Answer(s: State, q: nat, reply: Reply, readAt: nat): State
    requires q in s.requests
  {
    s.(requests := s.requests - {q},
       responses := s.responses + [Response(s.requests[q].matchId, reply, readAt, s.requests[q].after)])
  }

  /** The transaction commits: the staged rows appear together, and only they change. */
  function CommitStep(s: State, j: nat): State
    requires j in s.jobs && (s.jobs[j].StoredBoth? || (s.jobs[j].StoredNumbers? && s.jobs[j].preview.None?))
  {
    var job := s.jobs[j];
    var next := s.(predictions := s.predictions[job.key := job.numbers]);
    if job.StoredBoth? then
      next.(previews := s.previews + [Preview(job.key.matchId, job.text, s.now)],
            jobs := s.jobs[j := Warming(job.key.matchId, job.text, s.now)])
    else
      next.(jobs := s.jobs - {j})
  }

  function ReadStep(s: State, q: nat): State
    requires q in s.requests && s.requests[q].Missed?
  {
    var r := s.requests[q];
    match Current(s.previews, r.matchId)
    case Some(text) => s.(requests := s.requests[q := Found(r.matchId, r.after, text, s.now)])
    case None => s.(requests := s.requests[q := Absent(r.matchId, r.after)])
  }

  function Apply(s: State, a: Action, delay: nat): State
    requires Enabled(s, a, delay)
  {
    match a
    case Tick => s.(now := s.now + 1)
    case StartJob(j, key, numbers, preview) => s.(jobs := s.jobs[j := Computed(key, numbers, preview)])
    case StorePrediction(j) =>
        s.(jobs := s.jobs[j := StoredNumbers(s.jobs[j].key, s.jobs[j].numbers, s.jobs[j].preview)])
    case StoreCommentary(j) =>
        s.(jobs := s.jobs[j := StoredBoth(s.jobs[j].key, s.jobs[j].numbers, s.jobs[j].preview.value)])
    case Commit(j) => CommitStep(s, j)
    case Abandon(j) => s.(jobs := s.jobs - {j})
    case Warm(j) => s.(cache := s.cache[s.jobs[j].matchId := Entry(s.jobs[j].text, s.now + TTL)], jobs := s.jobs - {j})
    case Evict(m) => s.(cache := s.cache - {m})
    case Ask(q, m) => s.(requests := s.requests[q := Asked(m, |s.responses|)])
    case GetHit(q) => Answer(s, q, Served(s.cache[s.requests[q].matchId].text), s.now)
    case GetMiss(q) => s.(requests := s.requests[q := Missed(s.requests[q].matchId, s.requests[q].after)])
    case ReadPostgres(q) => ReadStep(s, q)
    case SetCache(q) =>
      var r := s.requests[q];
      Answer(s, q, Served(r.text), r.at).(cache := s.cache[r.matchId := Entry(r.text, s.now + TTL)])
    case AnswerAbsent(q) => Answer(s, q, NotFound, s.now)
    case ReadDirect(q) =>
      (match Current(s.previews, s.requests[q].matchId)
       case Some(text) => Answer(s, q, Served(text), s.now)
       case None => Answer(s, q, NotFound, s.now))
    case Fail(q) => Answer(s, q, Failed, s.now)
  }

  ghost predicate Initial(s: State) {
    s.predictions == map[] && s.previews == [] && s.cache == map[] && s.jobs == map[] && s.requests == map[]
        && s.responses == []
  }

  /** A run: consecutive states joined by enabled actions. */
  ghost predicate IsRun(states: seq<State>, actions: seq<Action>, delay: nat) {
    && |states| == |actions| + 1
    && Initial(states[0])
    && (forall i | 0 <= i < |actions| ::
        Enabled(states[i], actions[i], delay) && states[i + 1] == Apply(states[i], actions[i], delay))
  }

  /** A stretch of a run: from s, the actions lead to t. */
  ghost predicate Leads(s: State, actions: seq<Action>, t: State, delay: nat) {
    if actions == [] then s == t
    else
      var n := |actions| - 1;
      exists u :: Leads(s, actions[..n], u, delay) && Enabled(u, actions[n], delay) && t == Apply(u, actions[n], delay)
  }

  lemma LeadsFurther(s: State, actions: seq<Action>, u: State, a: Action, delay: nat)
    requires Leads(s, actions, u, delay) && Enabled(u, a, delay)
    ensures Leads(s, actions + [a], Apply(u, a, delay), delay)
  {
    hide Apply, Enabled;
    assert (actions + [a])[..|actions|] == actions;
  }

  /*************************** Having been current ***************************/

  /** At some moment of time t, this text was the match's committed commentary. */
  ghost predicate WasCurrent(previews: seq<Preview>, matchId: int, text: string, t: nat) {
    exists i :: 0 <= i < |previews| && CurrentAt(previews, i, matchId, text, t)
  }

  ghost predicate CurrentAt(previews: seq<Preview>, i: nat, matchId: int, text: string, t: nat)
    requires i < |previews|
  {
    && previews[i].matchId == matchId && previews[i].text == text && previews[i].at <= t
    && (forall j | i < j < |previews| && previews[j].matchId == matchId :: t <= previews[j].at)
  }

  /** Text that may be served at `t`: committed once, and current less than `age` before. */
  ghost predicate CurrentWithin(previews: seq<Preview>, matchId: int, text: string, t: nat, age: nat) {
    exists since: nat :: since <= t && t < since + age && WasCurrent(previews, matchId, text, since)
  }

  lemma StillWasCurrent(previews: seq<Preview>, p: Preview, matchId: int, text: string, t: nat)
    requires WasCurrent(previews, matchId, text, t) && t <= p.at
    ensures WasCurrent(previews + [p], matchId, text, t)
  {
    var i :| 0 <= i < |previews| && CurrentAt(previews, i, matchId, text, t);
    assert CurrentAt(previews + [p], i, matchId, text, t);
  }

  lemma {:induction false} CurrentIsCurrent(previews: seq<Preview>, matchId: int, now: nat)
    requires forall i | 0 <= i < |previews| :: previews[i].at <= now
    ensures Current(previews, matchId).Some? ==> WasCurrent(previews, matchId, Current(previews, matchId).value, now)
    ensures Current(previews, matchId).None? <==> forall i | 0 <= i < |previews| :: previews[i].matchId != matchId
  {
    if previews != [] {
      var n := |previews| - 1;
      if previews[n].matchId == matchId {
        assert CurrentAt(previews, n, matchId, previews[n].text, now);
      } else {
        CurrentIsCurrent(previews[..n], matchId, now);
        if Current(previews, matchId).Some? {
          var i :| 0 <= i < n && CurrentAt(previews[..n], i, matchId, Current(previews, matchId).value, now);
          assert CurrentAt(previews, i, matchId, Current(previews, matchId).value, now);
        }
        assert forall i | 0 <= i < n :: previews[..n][i] == previews[i];
      }
    }
  }

  /*************************** The invariant ***************************/

  ghost predicate ClockSound(s: State) {
    forall i | 0 <= i < |s.previews| :: s.previews[i].at <= s.now
  }

  /** Every cached text was current shortly before it was written, and its life is bounded from then. */
  ghost predicate EntrySound(s: State, matchId: int, entry: Entry, delay: nat) {
    exists since: nat :: since <= s.now && entry.expires <= since + delay + TTL
        && WasCurrent(s.previews, matchId, entry.text, since)
  }

  ghost predicate CacheSound(s: State, delay: nat) {
    forall m | m in s.cache :: EntrySound(s, m, s.cache[m], delay)
  }

  ghost predicate InFlightSound(s: State) {
    && (forall j | j in s.jobs && s.jobs[j].Warming? ::
        s.jobs[j].at <= s.now && WasCurrent(s.previews, s.jobs[j].matchId, s.jobs[j].text, s.jobs[j].at))
    && (forall q | q in s.requests && s.requests[q].Found? ::
          s.requests[q].at <= s.now && WasCurrent(s.previews, s.requests[q].matchId, s.requests[q].text,
                                                  s.requests[q].at))
  }

  ghost predicate ResponseSound(s: State, r: Response, delay: nat) {
    r.reply.Served? ==> r.readAt <= s.now && CurrentWithin(s.previews, r.matchId, r.reply.text, r.readAt, TTL + delay)
  }

  ghost predicate ResponsesSound(s: State, delay: nat) {
    forall i | 0 <= i < |s.responses| :: ResponseSound(s, s.responses[i], delay)
  }

  ghost predicate ServedBefore(responses: seq<Response>, matchId: int, n: nat)
    requires n <= |responses|
  {
    exists k :: 0 <= k < n && responses[k].matchId == matchId && responses[k].reply.Served?
  }

  ghost predicate HasPreview(s: State, matchId: int) {
    exists i :: 0 <= i < |s.previews| && s.previews[i].matchId == matchId
  }

  /** A 404 is only on its way, or out, for a request asked before the match was ever served. */
  ghost predicate AbsenceSound(s: State) {
    && (forall q | q in s.requests :: s.requests[q].after <= |s.responses|)
    && (forall q | q in s.requests && s.requests[q].Absent? ::
        !ServedBefore(s.responses, s.requests[q].matchId, s.requests[q].after))
    && (forall i | 0 <= i < |s.responses| :: s.responses[i].after <= i)
    && (forall i | 0 <= i < |s.responses| && s.responses[i].reply.NotFound? ::
        !ServedBefore(s.responses, s.responses[i].matchId, s.responses[i].after))
  }

  ghost predicate HasNumbers(s: State, matchId: int) {
    exists key :: key in s.predictions && key.matchId == matchId
  }

  /** Prose implies numbers. */
  ghost predicate ProseHasNumbers(s: State) {
    forall i | 0 <= i < |s.previews| :: HasNumbers(s, s.previews[i].matchId)
  }

  ghost predicate Inv(s: State, delay: nat) {
    ClockSound(s) && CacheSound(s, delay) && InFlightSound(s) && ResponsesSound(s, delay) && AbsenceSound(s)
        && ProseHasNumbers(s)
  }

  /*************************** Each step keeps it ***************************/

  /** What every step preserves of the past: time and the preview log only grow, new previews carry the current time. */
  lemma PastKept(s: State, a: Action, delay: nat, matchId: int, text: string, t: nat)
    requires Enabled(s, a, delay) && t <= s.now && WasCurrent(s.previews, matchId, text, t)
    ensures t <= Apply(s, a, delay).now && WasCurrent(Apply(s, a, delay).previews, matchId, text, t)
  {
    if a.Commit? && s.jobs[a.job].StoredBoth? {
      StillWasCurrent(s.previews, Preview(s.jobs[a.job].key.matchId, s.jobs[a.job].text, s.now), matchId, text, t);
    }
  }

  lemma ClockSoundKept(s: State, a: Action, delay: nat)
    requires ClockSound(s) && Enabled(s, a, delay)
    ensures ClockSound(Apply(s, a, delay))
  {
  }

  lemma EntryKept(s: State, a: Action, delay: nat, m: int, entry: Entry)
    requires Enabled(s, a, delay) && EntrySound(s, m, entry, delay)
    ensures EntrySound(Apply(s, a, delay), m, entry, delay)
  {
    var since: nat :| since <= s.now && entry.expires <= since + delay + TTL
        && WasCurrent(s.previews, m, entry.text, since);
    PastKept(s, a, delay, m, entry.text, since);
  }

  lemma CacheSoundKept(s: State, a: Action, delay: nat)
    requires CacheSound(s, delay) && InFlightSound(s) && Enabled(s, a, delay)
    ensures CacheSound(Apply(s, a, delay), delay)
  {
    var next := Apply(s, a, delay);
    forall m | m in next.cache ensures EntrySound(next, m, next.cache[m], delay) {
      if a.Warm? && m == s.jobs[a.job].matchId {
        var j := s.jobs[a.job];
        assert j.at <= s.now && s.now + TTL <= j.at + delay + TTL && WasCurrent(s.previews, m, j.text, j.at);
      } else if a.SetCache? && m == s.requests[a.request].matchId {
        var r := s.requests[a.request];
        assert r.at <= s.now && s.now + TTL <= r.at + delay + TTL && WasCurrent(s.previews, m, r.text, r.at);
      } else {
        OnlyWritesRenew(s, a, delay, m);
        EntryKept(s, a, delay, m, s.cache[m]);
      }
    }
  }

  /** Only a warm or a backfill changes an entry, text or expiry: a hit never extends its life. */
  lemma OnlyWritesRenew(s: State, a: Action, delay: nat, m: int)
    requires Enabled(s, a, delay) && m in Apply(s, a, delay).cache
    requires !(a.Warm? && m == s.jobs[a.job].matchId) && !(a.SetCache? && m == s.requests[a.request].matchId)
    ensures m in s.cache && Apply(s, a, delay).cache[m] == s.cache[m]
  {
  }

  lemma InFlightSoundKept(s: State, a: Action, delay: nat)
    requires ClockSound(s) && InFlightSound(s) && Enabled(s, a, delay)
    ensures InFlightSound(Apply(s, a, delay))
  {
    var next := Apply(s, a, delay);
    hide WasCurrent;
    forall j | j in next.jobs && next.jobs[j].Warming?
      ensures next.jobs[j].at <= next.now
              && WasCurrent(next.previews, next.jobs[j].matchId, next.jobs[j].text, next.jobs[j].at)
    {
      if a == Commit(j) {
        JustCommitted(s, j);
      } else {
        assert j in s.jobs && s.jobs[j] == next.jobs[j];
        PastKept(s, a, delay, s.jobs[j].matchId, s.jobs[j].text, s.jobs[j].at);
      }
    }
    forall q | q in next.requests && next.requests[q].Found?
      ensures next.requests[q].at <= next.now
              && WasCurrent(next.previews, next.requests[q].matchId, next.requests[q].text, next.requests[q].at)
    {
      if a == ReadPostgres(q) {
        CurrentIsCurrent(s.previews, s.requests[q].matchId, s.now);
      } else {
        assert q in s.requests && s.requests[q] == next.requests[q];
        PastKept(s, a, delay, s.requests[q].matchId, s.requests[q].text, s.requests[q].at);
      }
    }
  }

  lemma JustCommitted(s: State, j: nat)
    requires j in s.jobs && s.jobs[j].StoredBoth?
    ensures WasCurrent(CommitStep(s, j).previews, s.jobs[j].key.matchId, s.jobs[j].text, s.now)
  {
    assert CurrentAt(CommitStep(s, j).previews, |s.previews|, s.jobs[j].key.matchId, s.jobs[j].text, s.now);
  }

  lemma ResponseKept(s: State, a: Action, delay: nat, r: Response)
    requires Enabled(s, a, delay) && ResponseSound(s, r, delay)
    ensures ResponseSound(Apply(s, a, delay), r, delay)
  {
    if r.reply.Served? {
      var since: nat :| since <= r.readAt && r.readAt < since + TTL + delay
          && WasCurrent(s.previews, r.matchId, r.reply.text, since);
      PastKept(s, a, delay, r.matchId, r.reply.text, since);
      assert Apply(s, a, delay).now >= s.now;
    }
  }

  /** The one answer a step may send is sound. */
  lemma NewResponseSound(s: State, a: Action, delay: nat)
    requires ClockSound(s) && CacheSound(s, delay) && InFlightSound(s) && Enabled(s, a, delay)
    requires |Apply(s, a, delay).responses| == |s.responses| + 1
    ensures ResponseSound(Apply(s, a, delay), Apply(s, a, delay).responses[|s.responses|], delay)
  {
    match a
    case GetHit(q) =>
      var m := s.requests[q].matchId;
      assert EntrySound(s, m, s.cache[m], delay);
      var since: nat :| since <= s.now && s.cache[m].expires <= since + delay + TTL
          && WasCurrent(s.previews, m, s.cache[m].text, since);
      assert since <= s.now && s.now < since + (TTL + delay);
    case SetCache(q) =>
      var r := s.requests[q];
      assert r.at <= r.at && r.at < r.at + (TTL + delay) && WasCurrent(s.previews, r.matchId, r.text, r.at);
    case ReadDirect(q) =>
      CurrentIsCurrent(s.previews, s.requests[q].matchId, s.now);
      if Current(s.previews, s.requests[q].matchId).Some? {
        assert s.now <= s.now && s.now < s.now + (TTL + delay)
            && WasCurrent(s.previews, s.requests[q].matchId, Current(s.previews, s.requests[q].matchId).value, s.now);
      }
    case _ =>
  }

  lemma ResponsesGrow(s: State, a: Action, delay: nat)
    requires Enabled(s, a, delay)
    ensures s.responses <= Apply(s, a, delay).responses && |Apply(s, a, delay).responses| <= |s.responses| + 1
  {
  }

  lemma ResponsesSoundKept(s: State, a: Action, delay: nat)
    requires ClockSound(s) && CacheSound(s, delay) && InFlightSound(s) && ResponsesSound(s, delay)
             && Enabled(s, a, delay)
    ensures ResponsesSound(Apply(s, a, delay), delay)
  {
    hide ResponseSound;
    var next := Apply(s, a, delay);
    ResponsesGrow(s, a, delay);
    forall i | 0 <= i < |next.responses| ensures ResponseSound(next, next.responses[i], delay) {
      if i < |s.responses| {
        ResponseKept(s, a, delay, s.responses[i]);
      } else {
        NewResponseSound(s, a, delay);
      }
    }
  }

  /** Whatever was served had been committed. */
  lemma ServedHasPreview(s: State, delay: nat, matchId: int, n: nat)
    requires ResponsesSound(s, delay) && n <= |s.responses| && ServedBefore(s.responses, matchId, n)
    ensures HasPreview(s, matchId)
  {
    var k :| 0 <= k < n && s.responses[k].matchId == matchId && s.responses[k].reply.Served?;
    assert ResponseSound(s, s.responses[k], delay);
    var since: nat :| since <= s.responses[k].readAt && s.responses[k].readAt < since + (TTL + delay)
                 && WasCurrent(s.previews, matchId, s.responses[k].reply.text, since);
    var i :| 0 <= i < |s.previews| && CurrentAt(s.previews, i, matchId, s.responses[k].reply.text, since);
    assert s.previews[i].matchId == matchId;
  }

  /** Where a waiting request of the next state comes from. */
  lemma RequestOrigin(s: State, a: Action, delay: nat, q: nat)
    requires Enabled(s, a, delay) && q in Apply(s, a, delay).requests
    ensures var r := Apply(s, a, delay).requests[q];
            || (a == ReadPostgres(q) && q in s.requests && r.matchId == s.requests[q].matchId
                && r.after == s.requests[q].after
                && (r.Absent? ==> Current(s.previews, r.matchId).None?))
            || (a.Ask? && r == Asked(a.matchId, |s.responses|))
            || (q in s.requests && r == s.requests[q])
            || (q in s.requests && r.Missed? && r.after == s.requests[q].after)
  {
  }

  /** The one answer a step may send carries on its request's history. */
  lemma AnswerOrigin(s: State, a: Action, delay: nat)
    requires Enabled(s, a, delay) && |Apply(s, a, delay).responses| == |s.responses| + 1
    ensures var r := Apply(s, a, delay).responses[|s.responses|];
            exists q :: q in s.requests && r.matchId == s.requests[q].matchId && r.after == s.requests[q].after
                        && (r.reply.NotFound? ==> s.requests[q].Absent? || Current(s.previews, r.matchId).None?)
  {
    assert a.request in s.requests;
  }

  lemma ServedBeforeKept(before: seq<Response>, after: seq<Response>, matchId: int, n: nat)
    requires before <= after && n <= |before|
    ensures ServedBefore(after, matchId, n) <==> ServedBefore(before, matchId, n)
  {
  }

  lemma AbsenceSoundKept(s: State, a: Action, delay: nat)
    requires ClockSound(s) && ResponsesSound(s, delay) && AbsenceSound(s) && Enabled(s, a, delay)
    ensures AbsenceSound(Apply(s, a, delay))
  {
    var next := Apply(s, a, delay);
    ResponsesGrow(s, a, delay);
    hide ServedBefore, Apply, Enabled, ClockSound, ResponsesSound, Current;
    forall q | q in next.requests
      ensures next.requests[q].after <= |next.responses|
      ensures next.requests[q].Absent?
              ==> !ServedBefore(next.responses, next.requests[q].matchId, next.requests[q].after)
    {
      RequestOrigin(s, a, delay, q);
      var r := next.requests[q];
      if r.Absent? {
        NotYetServed(s, delay, r.matchId, r.after);
        ServedBeforeKept(s.responses, next.responses, r.matchId, r.after);
      }
    }
    forall i | 0 <= i < |next.responses|
      ensures next.responses[i].after <= i
      ensures next.responses[i].reply.NotFound?
              ==> !ServedBefore(next.responses, next.responses[i].matchId, next.responses[i].after)
    {
      var r := next.responses[i];
      if i == |s.responses| {
        AnswerOrigin(s, a, delay);
        NotYetServed(s, delay, r.matchId, r.after);
      }
      ServedBeforeKept(s.responses, next.responses, r.matchId, r.after);
    }
  }

  lemma NotYetServed(s: State, delay: nat, matchId: int, n: nat)
    requires ClockSound(s) && ResponsesSound(s, delay) && n <= |s.responses|
    ensures Current(s.previews, matchId).None? ==> !ServedBefore(s.responses, matchId, n)
  {
    CurrentIsCurrent(s.previews, matchId, s.now);
    if ServedBefore(s.responses, matchId, n) { ServedHasPreview(s, delay, matchId, n); }
  }

  lemma ProseHasNumbersKept(s: State, a: Action, delay: nat)
    requires ProseHasNumbers(s) && Enabled(s, a, delay)
    ensures ProseHasNumbers(Apply(s, a, delay))
  {
    var next := Apply(s, a, delay);
    forall i | 0 <= i < |next.previews| ensures HasNumbers(next, next.previews[i].matchId) {
      if i < |s.previews| {
        NumbersStay(s, a, delay, s.previews[i].matchId);
      } else {
        assert s.jobs[a.job].key in next.predictions;
      }
    }
  }

  lemma NumbersStay(s: State, a: Action, delay: nat, matchId: int)
    requires Enabled(s, a, delay) && HasNumbers(s, matchId)
    ensures HasNumbers(Apply(s, a, delay), matchId)
  {
    var key :| key in s.predictions && key.matchId == matchId;
    assert key in Apply(s, a, delay).predictions;
  }

  lemma StepKeepsInv(s: State, a: Action, delay: nat)
    requires Inv(s, delay) && Enabled(s, a, delay)
    ensures Inv(Apply(s, a, delay), delay)
  {
    hide Apply, Enabled, ClockSound, CacheSound, InFlightSound, ResponsesSound, AbsenceSound, ProseHasNumbers;
    ClockSoundKept(s, a, delay);
    CacheSoundKept(s, a, delay);
    InFlightSoundKept(s, a, delay);
    ResponsesSoundKept(s, a, delay);
    AbsenceSoundKept(s, a, delay);
    ProseHasNumbersKept(s, a, delay);
  }

  /*************************** Over every run ***************************/

  lemma InitialInv(s: State, delay: nat)
    requires Initial(s)
    ensures Inv(s, delay)
  {
  }

  lemma {:induction false} InvariantOverRuns(states: seq<State>, actions: seq<Action>, delay: nat, i: nat)
    requires IsRun(states, actions, delay) && i < |states|
    ensures Inv(states[i], delay)
  {
    hide Inv, Apply, Enabled, Initial;
    if i == 0 {
      InitialInv(states[0], delay);
    } else {
      InvariantOverRuns(states, actions, delay, i - 1);
      assert Enabled(states[i - 1], actions[i - 1], delay) && states[i] == Apply(states[i - 1], actions[i - 1], delay);
      StepKeepsInv(states[i - 1], actions[i - 1], delay);
    }
  }

  /**
   Bounded staleness: every text ever served was once the match's committed commentary, and still was
   less than TTL + delay before it was read, under any interleaving of misses, commits, warms,
   failed warms, evictions and expiries.
   */
  lemma ServedWasCurrent(states: seq<State>, actions: seq<Action>, delay: nat, i: nat, k: nat)
    requires IsRun(states, actions, delay) && i < |states| && k < |states[i].responses|
             && states[i].responses[k].reply.Served?
    ensures var r := states[i].responses[k];
            CurrentWithin(states[i].previews, r.matchId, r.reply.text, r.readAt, 86400 + delay)
  {
    InvariantOverRuns(states, actions, delay, i);
    assert ResponseSound(states[i], states[i].responses[k], delay);
  }

  /** Every match whose prose was served has numbers stored. */
  lemma ServedHasNumbers(states: seq<State>, actions: seq<Action>, delay: nat, i: nat, k: nat)
    requires IsRun(states, actions, delay) && i < |states| && k < |states[i].responses|
             && states[i].responses[k].reply.Served?
    ensures HasNumbers(states[i], states[i].responses[k].matchId)
  {
    InvariantOverRuns(states, actions, delay, i);
    assert ServedBefore(states[i].responses, states[i].responses[k].matchId, k + 1);
    ServedHasPreview(states[i], delay, states[i].responses[k].matchId, k + 1);
  }

  /** A match with prose has numbers, in every reachable state: redelivery, rollback and version bumps included. */
  lemma ProseImpliesNumbers(states: seq<State>, actions: seq<Action>, delay: nat, i: nat, matchId: int)
    requires IsRun(states, actions, delay) && i < |states| && HasPreview(states[i], matchId)
    ensures HasNumbers(states[i], matchId)
  {
    InvariantOverRuns(states, actions, delay, i);
    var k :| 0 <= k < |states[i].previews| && states[i].previews[k].matchId == matchId;
    assert HasNumbers(states[i], states[i].previews[k].matchId);
  }

  /** A request asked after its match was served is never answered 404. */
  lemma ServedThenNever404(states: seq<State>, actions: seq<Action>, delay: nat, i: nat, k: nat, l: nat)
    requires IsRun(states, actions, delay) && i < |states|
    requires k < l < |states[i].responses| && states[i].responses[k].matchId == states[i].responses[l].matchId
    requires states[i].responses[k].reply.Served? && k < states[i].responses[l].after
    ensures !states[i].responses[l].reply.NotFound?
  {
    InvariantOverRuns(states, actions, delay, i);
  }

  lemma {:induction false} PredictionsGrow(states: seq<State>, actions: seq<Action>, delay: nat, i: nat, j: nat)
    requires IsRun(states, actions, delay) && i <= j < |states|
    ensures states[i].predictions.Keys <= states[j].predictions.Keys
  {
    if i < j {
      hide Initial;
      PredictionsGrow(states, actions, delay, i, j - 1);
      assert Enabled(states[j - 1], actions[j - 1], delay) && states[j] == Apply(states[j - 1], actions[j - 1], delay);
    }
  }

  /** The action commits a job for this match and version. */
  ghost predicate CommitsTo(s: State, a: Action, key: PredictionKey) {
    a.Commit? && a.job in s.jobs && (s.jobs[a.job].StoredNumbers? || s.jobs[a.job].StoredBoth?)
        && s.jobs[a.job].key == key
  }

  /**
   Over any stretch of a run, a prediction row keeps its value unless a job under that very match and
   version commits.
   */
  lemma {:induction false} VersionsStayApart(states: seq<State>, actions: seq<Action>, delay: nat, i: nat, j: nat,
                                             key: PredictionKey)
    requires IsRun(states, actions, delay) && i <= j < |states| && key in states[i].predictions
    requires forall k | i <= k < j :: !CommitsTo(states[k], actions[k], key)
    ensures key in states[j].predictions && states[j].predictions[key] == states[i].predictions[key]
  {
    if i < j {
      VersionsStayApart(states, actions, delay, i, j - 1, key);
      assert Enabled(states[j - 1], actions[j - 1], delay) && states[j] == Apply(states[j - 1], actions[j - 1], delay);
      assert !CommitsTo(states[j - 1], actions[j - 1], key);
    }
  }

  /** The action sets the match's cache entry: a warm, or the backfill after a miss. */
  ghost predicate SetsEntry(s: State, a: Action, matchId: int) {
    || (a.Warm? && a.job in s.jobs && s.jobs[a.job].Warming? && s.jobs[a.job].matchId == matchId)
    || (a.SetCache? && a.request in s.requests && s.requests[a.request].Found?
        && s.requests[a.request].matchId == matchId)
  }

  /**
   Hits never extend a life: whatever is cached was set by one earlier warm or backfill, expires TTL
   after that moment, and has not changed since, however often it was read.
   */
  lemma {:induction false} ExpiryIsFromOneSet(states: seq<State>, actions: seq<Action>, delay: nat, i: nat,
                                              matchId: int) returns (k: nat)
    requires IsRun(states, actions, delay) && i < |states| && matchId in states[i].cache
    ensures k < i && SetsEntry(states[k], actions[k], matchId)
            && states[i].cache[matchId].expires == states[k].now + 86400
    ensures forall l | k < l <= i :: matchId in states[l].cache && states[l].cache[matchId] == states[i].cache[matchId]
  {
    assert Initial(states[0]);
    var s, a := states[i - 1], actions[i - 1];
    assert Enabled(s, a, delay) && states[i] == Apply(s, a, delay);
    if SetsEntry(s, a, matchId) {
      k := i - 1;
    } else {
      OnlyWritesRenew(s, a, delay, matchId);
      k := ExpiryIsFromOneSet(states, actions, delay, i - 1, matchId);
    }
  }

  /** Extends a run by one action. */
  lemma Extend(states: seq<State>, actions: seq<Action>, delay: nat, a: Action, next: State)
    requires IsRun(states, actions, delay) && Enabled(states[|actions|], a, delay)
             && next == Apply(states[|actions|], a, delay)
    ensures IsRun(states + [next], actions + [a], delay)
  {
    hide Apply, Enabled, Initial;
    var longer, acts := states + [next], actions + [a];
    forall i | 0 <= i < |acts|
      ensures Enabled(longer[i], acts[i], delay) && longer[i + 1] == Apply(longer[i], acts[i], delay)
    {
      if i < |actions| { assert longer[i] == states[i] && longer[i + 1] == states[i + 1]; }
    }
  }

  const KEY: PredictionKey := PredictionKey(1, "0.1.0")
  const ROW: PredictionRow := PredictionRow(0.5, 0.25, 0.25, 0.5, 0.5, 1.5, 1.0, [], 1500.0, 1500.0)

  /** Request 0 looks in Redis and then in Postgres before anything is stored. */
  lemma LookTooEarly() returns (states: seq<State>, actions: seq<Action>)
    ensures IsRun(states, actions, 0)
    ensures states[|actions|] == State(0, map[], [], map[], map[], map[0 := Absent(1, 0)], [])
  {
    var s0 := State(0, map[], [], map[], map[], map[], []);
    var s1 := s0.(requests := map[0 := Asked(1, 0)]);
    var s2 := s0.(requests := map[0 := Missed(1, 0)]);
    var s3 := s0.(requests := map[0 := Absent(1, 0)]);
    states, actions := [s0], [];
    Extend(states, actions, 0, Ask(0, 1), s1);
    states, actions := states + [s1], actions + [Ask(0, 1)];
    Extend(states, actions, 0, GetMiss(0), s2);
    states, actions := states + [s2], actions + [GetMiss(0)];
    Extend(states, actions, 0, ReadPostgres(0), s3);
    states, actions := states + [s3], actions + [ReadPostgres(0)];
  }

  /** Meanwhile a job stores the match and warms the cache. */
  lemma ThenAJobRuns() returns (states: seq<State>, actions: seq<Action>)
    ensures IsRun(states, actions, 0)
    ensures states[|actions|] == State(0, map[KEY := ROW], [Preview(1, "prose", 0)], map[1 := Entry("prose", TTL)],
                                       map[], map[0 := Absent(1, 0)], [])
  {
    states, actions := LookTooEarly();
    var s3 := states[|actions|];
    var s4 := s3.(jobs := map[0 := Computed(KEY, ROW, Some("prose"))]);
    var s5 := s3.(jobs := map[0 := StoredNumbers(KEY, ROW, Some("prose"))]);
    var s6 := s3.(jobs := map[0 := StoredBoth(KEY, ROW, "prose")]);
    var s7 := s3.(jobs := map[0 := Warming(1, "prose", 0)], predictions := map[KEY := ROW],
                  previews := [Preview(1, "prose", 0)]);
    var s8 := s7.(jobs := map[], cache := map[1 := Entry("prose", TTL)]);
    var start := StartJob(0, KEY, ROW, Some("prose"));
    Extend(states, actions, 0, start, s4);
    states, actions := states + [s4], actions + [start];
    Extend(states, actions, 0, StorePrediction(0), s5);
    states, actions := states + [s5], actions + [StorePrediction(0)];
    Extend(states, actions, 0, StoreCommentary(0), s6);
    states, actions := states + [s6], actions + [StoreCommentary(0)];
    Extend(states, actions, 0, Commit(0), s7);
    states, actions := states + [s7], actions + [Commit(0)];
    Extend(states, actions, 0, Warm(0), s8);
    states, actions := states + [s8], actions + [Warm(0)];
  }

  /**
   The condition on when the request was asked cannot be dropped: a request that found nothing in
   Postgres can be overtaken, and its 404 goes out after the match was served.
   */
  lemma A404CanOvertake() returns (states: seq<State>, actions: seq<Action>)
    ensures IsRun(states, actions, 0)
    ensures var responses := states[|actions|].responses;
            && |responses| == 2 && responses[0].matchId == responses[1].matchId
            && responses[0].reply.Served? && responses[1].reply.NotFound?
  {
    states, actions := ThenAJobRuns();
    var s8 := states[|actions|];
    var s9 := s8.(requests := map[0 := Absent(1, 0), 1 := Asked(1, 0)]);
    var s10 := s8.(responses := [Response(1, Served("prose"), 0, 0)]);
    var s11 := s10.(requests := map[], responses := s10.responses + [Response(1, NotFound, 0, 0)]);
    Extend(states, actions, 0, Ask(1, 1), s9);
    states, actions := states + [s9], actions + [Ask(1, 1)];
    Extend(states, actions, 0, GetHit(1), s10);
    states, actions := states + [s10], actions + [GetHit(1)];
    Extend(states, actions, 0, AnswerAbsent(0), s11);
    states, actions := states + [s11], actions + [AnswerAbsent(0)];
  }
}
