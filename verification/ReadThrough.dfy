/** `asyncprediction`: what one request is answered and what it leaves in the cache. */
module ReadThrough {
  import opened Options
  import Serving

  /** Which of the awaited effects raise, if they are reached. */
  datatype Faults = Faults(get: bool, query: bool, set_: bool)

  const NO_FAULTS: Faults := Faults(false, false, false)

  /** The cache holds a text for the match that has not expired. */
  predicate Live(cache: map<int, Serving.Entry>, matchId: int, now: nat) {
    matchId in cache && now < cache[matchId].expires
  }

  class Api {
    var commentary: map<int, string>
    var cache: map<int, Serving.Entry>

    /**
     One request at one moment. Without a failure the reply is the live cached text, else the stored
     one, and 404 if and only if there is neither; only a miss that finds a text writes the cache, for
     a day. Every failure is raised and leaves the cache alone.
     */
    method AsyncPrediction(matchId: int, now: nat, redis: bool, faults: Faults) returns (reply: Serving.Reply)
      modifies `cache
      ensures faults == NO_FAULTS && redis && Live(old(cache), matchId, now) ==>
                reply == Serving.Served(old(cache)[matchId].text) && cache == old(cache)
      ensures faults == NO_FAULTS && !(redis && Live(old(cache), matchId, now)) && matchId in commentary ==>
                reply == Serving.Served(commentary[matchId])
      ensures faults == NO_FAULTS ==>
                (reply == Serving.NotFound <==> matchId !in commentary && !(redis && Live(old(cache), matchId, now)))
      ensures faults == NO_FAULTS ==> reply != Serving.Failed
      ensures cache != old(cache) ==>
                redis && !Live(old(cache), matchId, now) && matchId in commentary
                    && reply == Serving.Served(commentary[matchId])
      ensures faults == NO_FAULTS && redis && !Live(old(cache), matchId, now) && matchId in commentary ==>
                cache == old(cache)[matchId := Serving.Entry(commentary[matchId], now + 86400)]
      ensures reply == Serving.Failed <==>
                || (redis && faults.get)
                || ((!redis || !Live(old(cache), matchId, now)) && faults.query)
                || (redis && !Live(old(cache), matchId, now) && matchId in commentary && faults.set_)
      ensures Answered(old(cache), commentary, matchId, now, redis, faults, reply, cache)
    {
      var text: Option<string> := None;
      if !redis {
        if faults.query { return Serving.Failed; }
        if matchId in commentary { text := Some(commentary[matchId]); }
      } else {
        if faults.get { return Serving.Failed; }
        if matchId in cache && now < cache[matchId].expires { text := Some(cache[matchId].text); }
        if text.None? {
          if faults.query { return Serving.Failed; }
          if matchId in commentary { text := Some(commentary[matchId]); }
          if text.Some? {
            if faults.set_ { return Serving.Failed; }
            cache := cache[matchId := Serving.Entry(text.value, now + Serving.TTL)];
          }
        }
      }
      if text.None? { return Serving.NotFound; }
      reply := Serving.Served(text.value);
    }
  }

  /** The same outcome as one relation, case by case in the order the effects are awaited. */
  ghost predicate Answered(cache: map<int, Serving.Entry>, commentary: map<int, string>, matchId: int, now: nat,
                           redis: bool, faults: Faults, reply: Serving.Reply, after: map<int, Serving.Entry>) {
    if redis && faults.get then reply == Serving.Failed && after == cache
    else if redis && Live(cache, matchId, now) then reply == Serving.Served(cache[matchId].text) && after == cache
    else if faults.query then reply == Serving.Failed && after == cache
    else if matchId !in commentary then reply == Serving.NotFound && after == cache
    else if !redis then reply == Serving.Served(commentary[matchId]) && after == cache
    else if faults.set_ then reply == Serving.Failed && after == cache
    else
      var filled := Serving.Entry(commentary[matchId], now + 86400);
      reply == Serving.Served(filled.text) && after == cache[matchId := filled]
  }

  /*************************** The steps of a request ***************************/

  /** The protocol's state holds these texts and these entries. */
  ghost predicate Shows(s: Serving.State, cache: map<int, Serving.Entry>, commentary: map<int, string>) {
    && s.cache == cache
    && (forall m :: Serving.Current(s.previews, m) == if m in commentary then Some(commentary[m]) else None)
  }

  /** What an answered request leaves of a state: one more response, perhaps a new entry, and nothing of the request. */
  function Left(s: Serving.State, matchId: int, reply: Serving.Reply, entry: Option<Serving.Entry>): Serving.State {
    s.(responses := s.responses + [Serving.Response(matchId, reply, s.now, |s.responses|)],
       cache := if entry.Some? then s.cache[matchId := entry.value] else s.cache)
  }

  lemma Rewritten<T>(m: map<nat, T>, k: nat, x: T, y: T)
    requires k !in m
    ensures m[k := x][k := y] == m[k := y] && m[k := x] - {k} == m
  {
  }

  lemma OneAsk(s: Serving.State, q: nat, m: int, delay: nat)
    requires q !in s.requests
    ensures Serving.Enabled(s, Serving.Ask(q, m), delay)
    ensures Serving.Apply(s, Serving.Ask(q, m), delay)
         == s.(requests := s.requests[q := Serving.Asked(m, |s.responses|)])
  {
  }

  /** The waiting request of an otherwise given state. */
  function Waiting(s: Serving.State, q: nat, r: Serving.Request): Serving.State {
    s.(requests := s.requests[q := r])
  }

  lemma OneFail(s: Serving.State, q: nat, r: Serving.Request, delay: nat)
    requires q !in s.requests && r.after == |s.responses|
    ensures var u := Waiting(s, q, r);
            && Serving.Enabled(u, Serving.Fail(q), delay)
            && Serving.Apply(u, Serving.Fail(q), delay) == Left(s, r.matchId, Serving.Failed, None)
  {
    Rewritten(s.requests, q, r, r);
  }

  lemma OneHit(s: Serving.State, q: nat, m: int, delay: nat)
    requires q !in s.requests && m in s.cache && s.now < s.cache[m].expires
    ensures var u := Waiting(s, q, Serving.Asked(m, |s.responses|));
            && Serving.Enabled(u, Serving.GetHit(q), delay)
            && Serving.Apply(u, Serving.GetHit(q), delay) == Left(s, m, Serving.Served(s.cache[m].text), None)
  {
    Rewritten(s.requests, q, Serving.Asked(m, |s.responses|), Serving.Asked(m, |s.responses|));
  }

  lemma OneDirect(s: Serving.State, q: nat, m: int, delay: nat)
    requires q !in s.requests
    ensures var u := Waiting(s, q, Serving.Asked(m, |s.responses|));
            && Serving.Enabled(u, Serving.ReadDirect(q), delay)
            && Serving.Apply(u, Serving.ReadDirect(q), delay)
               == Left(s, m, match Serving.Current(s.previews, m) case Some(text) => Serving.Served(text) case None =>
                       Serving.NotFound, None)
  {
    hide Serving.Current;
    Rewritten(s.requests, q, Serving.Asked(m, |s.responses|), Serving.Asked(m, |s.responses|));
  }

  lemma OneMiss(s: Serving.State, q: nat, m: int, delay: nat)
    requires q !in s.requests && !(m in s.cache && s.now < s.cache[m].expires)
    ensures var u := Waiting(s, q, Serving.Asked(m, |s.responses|));
            && Serving.Enabled(u, Serving.GetMiss(q), delay)
            && Serving.Apply(u, Serving.GetMiss(q), delay) == Waiting(s, q, Serving.Missed(m, |s.responses|))
  {
    Rewritten(s.requests, q, Serving.Asked(m, |s.responses|), Serving.Missed(m, |s.responses|));
  }

  lemma OneRead(s: Serving.State, q: nat, m: int, delay: nat)
    requires q !in s.requests
    ensures var u, n := Waiting(s, q, Serving.Missed(m, |s.responses|)), |s.responses|;
            && Serving.Enabled(u, Serving.ReadPostgres(q), delay)
            && Serving.Apply(u, Serving.ReadPostgres(q), delay)
               == Waiting(s, q, match Serving.Current(s.previews, m)
                                case Some(text) => Serving.Found(m, n, text, s.now)
                                case None => Serving.Absent(m, n))
  {
    hide Serving.Current;
    var n := |s.responses|;
    match Serving.Current(s.previews, m)
    case Some(text) => Rewritten(s.requests, q, Serving.Missed(m, n), Serving.Found(m, n, text, s.now));
    case None => Rewritten(s.requests, q, Serving.Missed(m, n), Serving.Absent(m, n));
  }

  lemma OneAbsent(s: Serving.State, q: nat, m: int, delay: nat)
    requires q !in s.requests
    ensures var u := Waiting(s, q, Serving.Absent(m, |s.responses|));
            && Serving.Enabled(u, Serving.AnswerAbsent(q), delay)
            && Serving.Apply(u, Serving.AnswerAbsent(q), delay) == Left(s, m, Serving.NotFound, None)
  {
    Rewritten(s.requests, q, Serving.Absent(m, |s.responses|), Serving.Absent(m, |s.responses|));
  }

  lemma OneBackfill(s: Serving.State, q: nat, m: int, text: string, delay: nat)
    requires q !in s.requests
    ensures var u := Waiting(s, q, Serving.Found(m, |s.responses|, text, s.now));
            && Serving.Enabled(u, Serving.SetCache(q), delay)
            && Serving.Apply(u, Serving.SetCache(q), delay)
               == Left(s, m, Serving.Served(text), Some(Serving.Entry(text, s.now + 86400)))
  {
    var r := Serving.Found(m, |s.responses|, text, s.now);
    Rewritten(s.requests, q, r, r);
  }

  /** One step after another. */
  lemma Next(s: Serving.State, before: seq<Serving.Action>, u: Serving.State, a: Serving.Action, delay: nat)
    returns (actions: seq<Serving.Action>)
    requires Serving.Leads(s, before, u, delay) && Serving.Enabled(u, a, delay)
    ensures actions == before + [a] && Serving.Leads(s, actions, Serving.Apply(u, a, delay), delay)
  {
    Serving.LeadsFurther(s, before, u, a, delay);
    actions := before + [a];
  }

  /** The steps of an uninterrupted request, whatever it finds and whatever raises. */
  lemma RequestPath(s: Serving.State, q: nat, m: int, redis: bool, faults: Faults, delay: nat)
    returns (actions: seq<Serving.Action>, reply: Serving.Reply, entry: Option<Serving.Entry>)
    requires q !in s.requests
    ensures Serving.Leads(s, actions, Left(s, m, reply, entry), delay)
    ensures var live := m in s.cache && s.now < s.cache[m].expires;
            var stored := Serving.Current(s.previews, m);
            if redis && faults.get then reply == Serving.Failed && entry == None
            else if redis && live then reply == Serving.Served(s.cache[m].text) && entry == None
            else if faults.query then reply == Serving.Failed && entry == None
            else if stored.None? then reply == Serving.NotFound && entry == None
            else if !redis then reply == Serving.Served(stored.value) && entry == None
            else if faults.set_ then reply == Serving.Failed && entry == None
            else reply == Serving.Served(stored.value) && entry == Some(Serving.Entry(stored.value, s.now + 86400))
  {
    hide Serving.Apply, Serving.Enabled, Serving.Leads, Serving.Current, Left;
    entry := None;
    NoSteps(s, delay);
    OneAsk(s, q, m, delay);
    var n := |s.responses|;
    var asked, missed := Serving.Asked(m, n), Serving.Missed(m, n);
    var first := Next(s, [], s, Serving.Ask(q, m), delay);
    var live := m in s.cache && s.now < s.cache[m].expires;
    if (redis && faults.get) || (!redis && faults.query) {
      OneFail(s, q, asked, delay);
      actions := Next(s, first, Waiting(s, q, asked), Serving.Fail(q), delay);
      reply := Serving.Failed;
    } else if !redis {
      OneDirect(s, q, m, delay);
      actions := Next(s, first, Waiting(s, q, asked), Serving.ReadDirect(q), delay);
      reply := match Serving.Current(s.previews, m) case Some(text) => Serving.Served(text) case None =>
          Serving.NotFound;
    } else if live {
      OneHit(s, q, m, delay);
      actions := Next(s, first, Waiting(s, q, asked), Serving.GetHit(q), delay);
      reply := Serving.Served(s.cache[m].text);
    } else {
      OneMiss(s, q, m, delay);
      var second := Next(s, first, Waiting(s, q, asked), Serving.GetMiss(q), delay);
      if faults.query {
        OneFail(s, q, missed, delay);
        actions := Next(s, second, Waiting(s, q, missed), Serving.Fail(q), delay);
        reply := Serving.Failed;
      } else {
        actions, reply, entry := AfterMiss(s, q, m, faults, delay, second);
      }
    }
  }

  lemma NoSteps(s: Serving.State, delay: nat)
    ensures Serving.Leads(s, [], s, delay)
  {
  }

  lemma AfterMiss(s: Serving.State, q: nat, m: int, faults: Faults, delay: nat, before: seq<Serving.Action>)
    returns (actions: seq<Serving.Action>, reply: Serving.Reply, entry: Option<Serving.Entry>)
    requires q !in s.requests && Serving.Leads(s, before, Waiting(s, q, Serving.Missed(m, |s.responses|)), delay)
    ensures Serving.Leads(s, actions, Left(s, m, reply, entry), delay)
    ensures var stored := Serving.Current(s.previews, m);
            if stored.None? then reply == Serving.NotFound && entry == None
            else if faults.set_ then reply == Serving.Failed && entry == None
            else reply == Serving.Served(stored.value) && entry == Some(Serving.Entry(stored.value, s.now + 86400))
  {
    hide Serving.Apply, Serving.Enabled, Serving.Leads, Serving.Current, Left;
    var n := |s.responses|;
    OneRead(s, q, m, delay);
    var third := Next(s, before, Waiting(s, q, Serving.Missed(m, n)), Serving.ReadPostgres(q), delay);
    entry := None;
    match Serving.Current(s.previews, m)
    case None =>
      OneAbsent(s, q, m, delay);
      actions := Next(s, third, Waiting(s, q, Serving.Absent(m, n)), Serving.AnswerAbsent(q), delay);
      reply := Serving.NotFound;
    case Some(text) =>
      var found := Serving.Found(m, n, text, s.now);
      if faults.set_ {
        OneFail(s, q, found, delay);
        actions := Next(s, third, Waiting(s, q, found), Serving.Fail(q), delay);
        reply := Serving.Failed;
      } else {
        OneBackfill(s, q, m, text, delay);
        actions := Next(s, third, Waiting(s, q, found), Serving.SetCache(q), delay);
        reply, entry := Serving.Served(text), Some(Serving.Entry(text, s.now + 86400));
      }
  }

  /**
   One uninterrupted request of the protocol answers exactly what `asyncprediction` answers, and leaves
   exactly its cache: the last response is that reply, read and asked for now, and nothing else moved.
   */
  lemma RequestIsARun(s: Serving.State, q: nat, matchId: int, redis: bool, faults: Faults, delay: nat,
                      cache: map<int, Serving.Entry>, commentary: map<int, string>, reply: Serving.Reply,
                      after: map<int, Serving.Entry>)
    returns (actions: seq<Serving.Action>, t: Serving.State)
    requires q !in s.requests && Shows(s, cache, commentary)
    requires Answered(cache, commentary, matchId, s.now, redis, faults, reply, after)
    ensures Serving.Leads(s, actions, t, delay)
    ensures t.responses == s.responses + [Serving.Response(matchId, reply, s.now, |s.responses|)]
    ensures Shows(t, after, commentary)
    ensures t == s.(responses := t.responses, cache := t.cache)
  {
    var answer, entry;
    actions, answer, entry := RequestPath(s, q, matchId, redis, faults, delay);
    t := Left(s, matchId, answer, entry);
    hide Serving.Leads, Serving.Current;
  }
}
