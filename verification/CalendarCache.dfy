/** The stale-while-revalidate calendar cache: readers, background fetches and the two maps they
    share under one mutex, interleaved at the points where the mutex is free. */
module CalendarCache {
  import opened Clock
  import opened Options

  type Url = string
  type Feed = seq<string>

  const TTL := 5 * MINUTE

  datatype Entry = Entry(feed: Feed, fetched: Time)

  predicate Fresh(e: Option<Entry>, now: Time) {
    e.Some? && now - e.value.fetched <= TTL
  }

  function Lookup(cache: map<Url, Entry>, url: Url): Option<Entry> {
    if url in cache then Some(cache[url]) else None
  }

  /** The cache once a fetch has come back; a failed one brings nothing. */
  function Stored(cache: map<Url, Entry>, url: Url, outcome: Option<Feed>, now: Time): map<Url, Entry> {
    if outcome.Some? then cache[url := Entry(outcome.value, now)] else cache
  }

  /** The right to fetch a feed, which one caller at a time can hold. */
  datatype Claim = Claim(inflight: set<Url>, started: bool)

  function Claiming(inflight: set<Url>, url: Url): Claim {
    Claim(inflight + {url}, url !in inflight)
  }

  /** The two maps, and the critical sections that touch them. */
  class Calendar {
    var cache: map<Url, Entry>
    var inflight: set<Url>

    constructor ()
      ensures cache == map[] && inflight == {}
    {
      cache, inflight := map[], {};
    }

    /** A copy young enough is the answer; what was seen decides what happens otherwise. */
    method Look(url: Url, now: Time) returns (answer: Option<Feed>, seen: Option<Entry>)
      ensures seen == Lookup(cache, url)
      ensures answer.Some? <==> url in cache && now <= cache[url].fetched + 5 * MINUTE
      ensures answer.Some? ==> answer.value == cache[url].feed
    {
      seen := None;
      if url in cache {
        seen := Some(cache[url]);
      }
      answer := if seen.Some? && now - seen.value.fetched <= TTL then Some(seen.value.feed) else None;
    }

    /** Claims the right to fetch a feed; false when a fetch is already under way. */
    method BeginRefresh(url: Url) returns (started: bool)
      modifies this`inflight
      ensures Claim(inflight, started) == Claiming(old(inflight), url)
    {
      if url in inflight {
        assert inflight + {url} == inflight;
        return false;
      }
      inflight := inflight + {url};
      return true;
    }

    method Land(url: Url, outcome: Option<Feed>, now: Time)
      modifies this
      ensures inflight == old(inflight) - {url}
      ensures cache == Stored(old(cache), url, outcome, now)
    {
      inflight := inflight - {url};
      match outcome {
        case None =>
        case Some(feed) => cache := cache[url := Entry(feed, now)];
      }
    }
  }

  // ----- tasks, interleaved ------------------------------------------------------------------

  datatype Task =
    | Looking(url: Url, warm: bool)                           // about to read the cache
    | Refreshing(url: Url, warm: bool, seen: Option<Entry>)   // saw nothing fresh
    | Waiting(url: Url, fetch: nat)                           // a cold reader, on its own fetch
    | Rereading(url: Url)
    | Answered(feed: Feed)
    | Fetching(url: Url)                                      // a background fetch
    | Landed

  datatype Fetched = Fetched(url: Url, feed: Feed, at: Time)

  datatype State = State(cache: map<Url, Entry>, inflight: set<Url>, tasks: map<nat, Task>, landed: seq<Fetched>)

  const START := State(map[], {}, map[], [])

  datatype Action =
    | Call(t: nat, url: Url, warm: bool)
    | Look(t: nat)
    | Refresh(t: nat, fetch: nat)             // `fetch` numbers the goroutine it may start
    | Land(t: nat, outcome: Option<Feed>)     // None: the fetch failed
    | Wake(t: nat)                            // its fetch is done
    | TimeOut(t: nat)
    | Reread(t: nat)

  datatype Event = Event(action: Action, now: Time)

  function Put(s: State, t: nat, task: Task): State {
    s.(tasks := s.tasks[t := task])
  }

  function Step(s: State, e: Event): State {
    match e.action
    case Call(t, url, warm) =>
      if t in s.tasks || url == "" then s else Put(s, t, Looking(url, warm))
    case Look(t) =>
      if t in s.tasks && s.tasks[t].Looking? then
        var url, warm := s.tasks[t].url, s.tasks[t].warm;
        var seen := Lookup(s.cache, url);
        if Fresh(seen, e.now) then Put(s, t, Answered(seen.value.feed)) else Put(s, t, Refreshing(url, warm, seen))
      else s
    case Refresh(t, fetch) =>
      if t in s.tasks && s.tasks[t].Refreshing? && fetch !in s.tasks then
        var url, warm, seen := s.tasks[t].url, s.tasks[t].warm, s.tasks[t].seen;
        var claim := Claiming(s.inflight, url);
        var s' := if claim.started then Put(s.(inflight := claim.inflight), fetch, Fetching(url)) else s;
        Put(s', t, if warm then Answered([])
                   else if seen.Some? then Answered(seen.value.feed)
                   else if claim.started then Waiting(url, fetch)
                   else Rereading(url))       // the channel handed back is already closed
      else s
    case Land(t, outcome) =>
      if t in s.tasks && s.tasks[t].Fetching? then
        var url := s.tasks[t].url;
        var s' := Put(s.(inflight := s.inflight - {url}, cache := Stored(s.cache, url, outcome, e.now)), t, Landed);
        if outcome.None? then s' else s'.(landed := s.landed + [Fetched(url, outcome.value, e.now)])
      else s
    case Wake(t) =>
      if t in s.tasks && s.tasks[t].Waiting? && !(s.tasks[t].fetch in s.tasks && s.tasks[s.tasks[t].fetch].Fetching?)
      then Put(s, t, Rereading(s.tasks[t].url)) else s
    case TimeOut(t) =>
      if t in s.tasks && s.tasks[t].Waiting? then Put(s, t, Answered([])) else s
    case Reread(t) =>
      if t in s.tasks && s.tasks[t].Rereading? then
        Put(s, t, Answered(Lookup(s.cache, s.tasks[t].url).GetOr(Entry([], 0)).feed))
      else s
  }

  function Run(run: seq<Event>): State {
    if run == [] then START else Step(Run(run[..|run| - 1]), run[|run| - 1])
  }

  predicate Ordered(run: seq<Event>) {
    forall i, j :: 0 <= i < j < |run| ==> run[i].now <= run[j].now
  }

  /** What the last successful fetch of a feed brought back, read off the log. */
  function LastLanded(landed: seq<Fetched>, url: Url): Option<Entry> {
    if landed == [] then None
    else
      var f := landed[|landed| - 1];
      if f.url == url then Some(Entry(f.feed, f.at)) else LastLanded(landed[..|landed| - 1], url)
  }

  // ----- the invariant -----------------------------------------------------------------------

  predicate SingleFlight(s: State) {
    && (forall t :: t in s.tasks && s.tasks[t].Fetching? ==> s.tasks[t].url in s.inflight)
    && (forall t, u :: t in s.tasks && u in s.tasks && s.tasks[t].Fetching? && s.tasks[t] == s.tasks[u] ==> t == u)
  }

  ghost predicate InflightIsFetched(s: State) {
    forall url :: url in s.inflight ==> exists t :: t in s.tasks && s.tasks[t] == Fetching(url)
  }

  predicate LandedBy(landed: seq<Fetched>, now: Time) {
    && (forall i :: 0 <= i < |landed| ==> landed[i].at <= now)
    && (forall i, j :: 0 <= i < j < |landed| ==> landed[i].at <= landed[j].at)
  }

  ghost predicate CacheIsLastFetch(s: State) {
    forall url: Url :: Lookup(s.cache, url) == LastLanded(s.landed, url)
  }

  ghost predicate Inv(s: State, now: Time) {
    SingleFlight(s) && InflightIsFetched(s) && CacheIsLastFetch(s) && LandedBy(s.landed, now)
  }

  lemma StepKeepsSingle(s: State, e: Event)
    requires SingleFlight(s) && InflightIsFetched(s)
    ensures SingleFlight(Step(s, e))
  {
    match e.action
    case Call(_, _, _) =>
    case Look(_) =>
    case Refresh(t, fetch) => RefreshKeepsSingle(s, e, t, fetch);
    case Land(_, _) =>
    case Wake(_) =>
    case TimeOut(_) =>
    case Reread(_) =>
  }

  lemma RefreshKeepsSingle(s: State, e: Event, t: nat, fetch: nat)
    requires SingleFlight(s) && e.action == Refresh(t, fetch)
    ensures SingleFlight(Step(s, e))
  {
    var s' := Step(s, e);
    forall u | u in s'.tasks && s'.tasks[u].Fetching? ensures s'.tasks[u].url in s'.inflight {
      assert u == fetch || s'.tasks[u] == s.tasks[u];
    }
    forall u, v | u in s'.tasks && v in s'.tasks && s'.tasks[u].Fetching? && s'.tasks[u] == s'.tasks[v] ensures u == v {
      assert u == fetch || s'.tasks[u] == s.tasks[u];
      assert v == fetch || s'.tasks[v] == s.tasks[v];
    }
  }

  lemma StepKeepsFetched(s: State, e: Event)
    requires SingleFlight(s) && InflightIsFetched(s)
    ensures InflightIsFetched(Step(s, e))
  {
    var s' := Step(s, e);
    forall url | url in s'.inflight ensures exists t :: t in s'.tasks && s'.tasks[t] == Fetching(url) {
      if url in s.inflight {
        var t :| t in s.tasks && s.tasks[t] == Fetching(url);
        KeepsFetching(s, e, t);
      } else {
        assert s'.tasks[e.action.fetch] == Fetching(url);
      }
    }
  }

  /** Only landing ends a fetch. */
  lemma KeepsFetching(s: State, e: Event, t: nat)
    requires t in s.tasks && s.tasks[t].Fetching?
    requires s.tasks[t].url in Step(s, e).inflight
    ensures t in Step(s, e).tasks && Step(s, e).tasks[t] == s.tasks[t]
  {
  }

  lemma StepKeepsCache(s: State, e: Event)
    requires CacheIsLastFetch(s)
    ensures CacheIsLastFetch(Step(s, e))
  {
    var s' := Step(s, e);
    forall url: Url ensures Lookup(s'.cache, url) == LastLanded(s'.landed, url) {
      assert Lookup(s.cache, url) == LastLanded(s.landed, url);
      if s'.landed != s.landed {
        assert s'.landed[..|s'.landed| - 1] == s.landed;
      }
    }
  }

  lemma {:induction false} RunKeepsInv(run: seq<Event>, now: Time)
    requires Ordered(run) && (run != [] ==> run[|run| - 1].now <= now)
    ensures Inv(Run(run), now)
  {
    if run != [] {
      var front, e := run[..|run| - 1], run[|run| - 1];
      RunKeepsInv(front, e.now);
      StepKeepsSingle(Run(front), e);
      StepKeepsFetched(Run(front), e);
      StepKeepsCache(Run(front), e);
    }
  }

  /** In every interleaving at most one fetch per feed is under way. */
  lemma OneFetchPerFeed(run: seq<Event>, t: nat, u: nat)
    requires Ordered(run) && t in Run(run).tasks && u in Run(run).tasks
    requires Run(run).tasks[t].Fetching? && Run(run).tasks[u].Fetching?
    requires Run(run).tasks[t].url == Run(run).tasks[u].url
    ensures t == u
  {
    RunKeepsInv(run, if run == [] then 0 else run[|run| - 1].now);
  }

  /** What is cached for a feed is what its last successful fetch brought back, if any. */
  lemma {:induction false} CachedIsLastFetched(run: seq<Event>, url: Url)
    requires Ordered(run)
    ensures Lookup(Run(run).cache, url) == LastLanded(Run(run).landed, url)
  {
    RunKeepsInv(run, if run == [] then 0 else run[|run| - 1].now);
  }

  lemma {:induction false} LastLandedIsLanded(landed: seq<Fetched>, url: Url)
    requires LastLanded(landed, url).Some?
    ensures exists i :: 0 <= i < |landed| && landed[i].at == LastLanded(landed, url).value.fetched
  {
    var n := |landed| - 1;
    if landed[n].url != url {
      LastLandedIsLanded(landed[..n], url);
    }
  }

  /** One more step never loses an entry, never moves its stamp backwards, and changes it only
      when a fetch of that very feed succeeds; a failed fetch keeps the old copy. */
  lemma EntriesOnlyGetNewer(run: seq<Event>, e: Event, url: Url)
    requires Ordered(run + [e]) && url in Run(run).cache
    ensures url in Step(Run(run), e).cache
    ensures Run(run).cache[url].fetched <= Step(Run(run), e).cache[url].fetched
    ensures Step(Run(run), e).cache[url] != Run(run).cache[url] ==>
              e.action.Land? && e.action.outcome.Some? && Run(run).tasks[e.action.t] == Fetching(url)
  {
    var s := Run(run);
    forall i, j | 0 <= i < j < |run| ensures run[i].now <= run[j].now {
      assert (run + [e])[i] == run[i] && (run + [e])[j] == run[j];
    }
    if run != [] {
      assert (run + [e])[|run| - 1] == run[|run| - 1] && (run + [e])[|run|] == e;
    }
    RunKeepsInv(run, e.now);
    assert Lookup(s.cache, url) == LastLanded(s.landed, url);
    LastLandedIsLanded(s.landed, url);
  }

  lemma {:induction false} CachedStays(run: seq<Event>, more: seq<Event>, url: Url)
    requires url in Run(run).cache
    ensures url in Run(run + more).cache
  {
    if more == [] {
      assert run + more == run;
    } else {
      assert (run + more)[..|run + more| - 1] == run + more[..|more| - 1];
      CachedStays(run, more[..|more| - 1], url);
    }
  }

  /** A reader of a cached feed who is not waiting for it. */
  predicate NotKept(s: State, url: Url, t: nat) {
    t in s.tasks ==>
      && (s.tasks[t].Waiting? || s.tasks[t].Rereading? ==> s.tasks[t].url != url)
      && (s.tasks[t].Refreshing? && s.tasks[t].url == url ==> s.tasks[t].seen.Some?)
  }

  lemma StepKeepsNobody(s: State, e: Event, url: Url, t: nat)
    requires url in s.cache && NotKept(s, url, t)
    ensures NotKept(Step(s, e), url, t)
  {
  }

  /** Once a feed has ever been cached, no later reader of it waits for anything. */
  lemma {:induction false} CachedFeedsNeverKeepAnyoneWaiting(run: seq<Event>, more: seq<Event>, url: Url, t: nat)
    requires url in Run(run).cache
    requires t !in Run(run).tasks || Run(run).tasks[t].Looking?
    ensures NotKept(Run(run + more), url, t)
  {
    if more == [] {
      assert run + more == run;
    } else {
      var front := more[..|more| - 1];
      assert (run + more)[..|run + more| - 1] == run + front;
      CachedFeedsNeverKeepAnyoneWaiting(run, front, url, t);
      CachedStays(run, front, url);
      StepKeepsNobody(Run(run + front), more[|more| - 1], url, t);
    }
  }

  // ----- cold readers ----------------------------------------------------------------------------

  /** A reader that saw nothing cached and is about to ask for a refresh. */
  predicate Cold(s: State, t: nat) {
    t in s.tasks && s.tasks[t].Refreshing? && !s.tasks[t].warm && s.tasks[t].seen.None?
  }

  ghost predicate BeingFetched(s: State, url: Url) {
    exists u :: u in s.tasks && s.tasks[u] == Fetching(url)
  }

  /** Over every run, a cold reader waits for a fetch exactly when nobody is fetching the feed: it
      then starts the fetch it waits for.  With a fetch under way it goes straight on to read the
      cache again, because the channel it is handed is closed already. */
  lemma ColdReaderWaitsExactlyWhen(run: seq<Event>, t: nat, fetch: nat, now: Time)
    requires Ordered(run) && Cold(Run(run), t) && fetch !in Run(run).tasks
    ensures var s := Run(run);
      var url := s.tasks[t].url;
      var s' := Step(s, Event(Refresh(t, fetch), now));
      && s'.tasks[t] == (if BeingFetched(s, url) then Rereading(url) else Waiting(url, fetch))
      && (fetch in s'.tasks <==> !BeingFetched(s, url))
  {
    RunKeepsInv(run, if run == [] then 0 else run[|run| - 1].now);
  }

  /** And it answers with the feed exactly when a fetch of it has landed by the time it reads the
      cache again, and otherwise with nothing. */
  lemma ColdReaderAnswersWhatHasLanded(run: seq<Event>, t: nat, now: Time)
    requires Ordered(run) && t in Run(run).tasks && Run(run).tasks[t].Rereading?
    ensures var s := Run(run);
      var last := LastLanded(s.landed, s.tasks[t].url);
      Step(s, Event(Reread(t), now)).tasks[t] == Answered(if last.Some? then last.value.feed else [])
  {
    RunKeepsInv(run, if run == [] then 0 else run[|run| - 1].now);
    assert Lookup(Run(run).cache, Run(run).tasks[t].url) == LastLanded(Run(run).landed, Run(run).tasks[t].url);
  }

  lemma RunSnoc(run: seq<Event>, e: Event)
    ensures Run(run + [e]) == Step(Run(run), e)
  {
    assert (run + [e])[..|run|] == run;
  }

  /** A reader of an uncached feed, up to asking for a refresh. */
  function Asking(t: nat, url: Url, fetch: nat, now: Time): seq<Event> {
    [Event(Call(t, url, false), now)] + [Event(Look(t), now)] + [Event(Refresh(t, fetch), now)]
  }

  /** Reader `t` has asked for a refresh of an uncached feed, and nothing else has happened. */
  predicate HasAsked(s: State, s': State, t: nat, url: Url, fetch: nat) {
    && s'.cache == s.cache && s'.landed == s.landed
    && s'.inflight == s.inflight + {url}
    && t in s'.tasks && s'.tasks[t] == (if url in s.inflight then Rereading(url) else Waiting(url, fetch))
    && (url !in s.inflight ==> fetch in s'.tasks && s'.tasks[fetch] == Fetching(url))
    && (forall u :: u in s.tasks ==> u in s'.tasks && s'.tasks[u] == s.tasks[u])
    && (forall u :: u in s'.tasks ==> u in s.tasks || u == t || u == fetch)
  }

  lemma AskingSteps(s: State, t: nat, url: Url, fetch: nat, now: Time)
    requires t !in s.tasks && fetch !in s.tasks && fetch != t && url != "" && url !in s.cache
    ensures HasAsked(s, Step(Step(Step(s, Event(Call(t, url, false), now)), Event(Look(t), now)), Event(Refresh(t, fetch), now)),
                     t, url, fetch)
  {
    assert url in s.inflight ==> s.inflight + {url} == s.inflight;
  }

  lemma AskingRuns(run: seq<Event>, t: nat, url: Url, fetch: nat, now: Time)
    requires t !in Run(run).tasks && fetch !in Run(run).tasks && fetch != t && url != "" && url !in Run(run).cache
    ensures HasAsked(Run(run), Run(run + Asking(t, url, fetch, now)), t, url, fetch)
  {
    var a, b, c := Event(Call(t, url, false), now), Event(Look(t), now), Event(Refresh(t, fetch), now);
    RunSnoc(run, a);
    RunSnoc(run + [a], b);
    RunSnoc(run + [a] + [b], c);
    assert run + Asking(t, url, fetch, now) == run + [a] + [b] + [c];
    AskingSteps(Run(run), t, url, fetch, now);
  }

  lemma TwoAsk(url: Url, now: Time)
    requires url != ""
    ensures var s := Run(Asking(0, url, 1, now) + Asking(2, url, 3, now));
      && url !in s.cache
      && 0 in s.tasks && s.tasks[0] == Waiting(url, 1)
      && 1 in s.tasks && s.tasks[1] == Fetching(url)
      && 2 in s.tasks && s.tasks[2] == Rereading(url)
  {
    assert [] + Asking(0, url, 1, now) == Asking(0, url, 1, now);
    AskingRuns([], 0, url, 1, now);
    AskingRuns(Asking(0, url, 1, now), 2, url, 3, now);
  }

  /** It happens on the very first reads of any feed: one reader starts the fetch and waits, and the
      next, joining it, has answered with nothing before the fetch is back. */
  lemma SecondColdReaderAnswersEmpty(url: Url, now: Time)
    requires url != ""
    ensures var run := Asking(0, url, 1, now) + Asking(2, url, 3, now) + [Event(Reread(2), now)];
      var s := Run(run);
      && 0 in s.tasks && s.tasks[0] == Waiting(url, 1)
      && 1 in s.tasks && s.tasks[1] == Fetching(url)
      && 2 in s.tasks && s.tasks[2] == Answered([])
  {
    TwoAsk(url, now);
    RunSnoc(Asking(0, url, 1, now) + Asking(2, url, 3, now), Event(Reread(2), now));
  }

  // ----- readers of a copy -----------------------------------------------------------------------

  lemma OthersLeaveItRefreshing(s: State, e: Event, t: nat)
    requires t in s.tasks && s.tasks[t].Refreshing? && !(e.action.Refresh? && e.action.t == t)
    ensures t in Step(s, e).tasks && Step(s, e).tasks[t] == s.tasks[t]
  {
  }

  lemma {:induction false} StaysRefreshing(run: seq<Event>, more: seq<Event>, t: nat)
    requires t in Run(run).tasks && Run(run).tasks[t].Refreshing?
    requires forall i :: 0 <= i < |more| ==> !(more[i].action.Refresh? && more[i].action.t == t)
    ensures t in Run(run + more).tasks && Run(run + more).tasks[t] == Run(run).tasks[t]
  {
    if more == [] {
      assert run + more == run;
    } else {
      var front, e := more[..|more| - 1], more[|more| - 1];
      StaysRefreshing(run, front, t);
      assert run + more == (run + front) + [e];
      RunSnoc(run + front, e);
      OthersLeaveItRefreshing(Run(run + front), e, t);
    }
  }

  /** A reader of a feed that is cached answers with the copy it saw: at once while it is at most five
      minutes old, and otherwise as soon as it has asked for a refresh, whatever the others do in the
      meantime and whether or not the refresh ever comes back.  Whoever only warms the cache answers
      nothing. */
  lemma CachedReaderAnswersWhatItSaw(run: seq<Event>, t: nat, now: Time, more: seq<Event>, fetch: nat, later: Time)
    requires t in Run(run).tasks && Run(run).tasks[t].Looking? && Run(run).tasks[t].url in Run(run).cache
    requires forall i :: 0 <= i < |more| ==> !(more[i].action.Refresh? && more[i].action.t == t)
    requires fetch !in Run(run + [Event(Look(t), now)] + more).tasks
    ensures var copy := Run(run).cache[Run(run).tasks[t].url];
      var looked := Run(run + [Event(Look(t), now)]);
      var asked := Run(run + [Event(Look(t), now)] + more + [Event(Refresh(t, fetch), later)]);
      if now <= copy.fetched + 5 * MINUTE then t in looked.tasks && looked.tasks[t] == Answered(copy.feed)
      else t in asked.tasks && asked.tasks[t] == Answered(if Run(run).tasks[t].warm then [] else copy.feed)
  {
    var looked := run + [Event(Look(t), now)];
    RunSnoc(run, Event(Look(t), now));
    if now > Run(run).cache[Run(run).tasks[t].url].fetched + 5 * MINUTE {
      StaysRefreshing(looked, more, t);
      RunSnoc(looked + more, Event(Refresh(t, fetch), later));
    }
  }
}
