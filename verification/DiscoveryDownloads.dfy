/** cluCallBack: any number of callback threads of the UPnP library fetch description documents and
    queue tasks, with a shared set of the URLs being downloaded. */
module DiscoveryDownloads {
  import opened Options

  type Thread = nat

  /** What an alive message or a search result carries. */
  datatype Message = Message(deviceType: string, serviceType: string, url: string, deviceId: string, expires: int)

  datatype Task =
    | Alive(url: string, description: string, deviceId: string, expires: int)
    | Byebye(deviceId: string)

  /** o_downloading, used under its mutex. */
  class DownloadSet {
    var urls: set<string>

    constructor ()
      ensures urls == {}
    {
      urls := {};
    }

    method Insert(url: string) returns (inserted: bool)
      modifies this
      ensures inserted <==> url !in old(urls)
      ensures urls == Inserted(old(urls), url)
    {
      inserted := url !in urls;
      urls := urls + {url};
    }

    method Erase(url: string)
      modifies this
      ensures urls == Erased(old(urls), url)
    {
      urls := urls - {url};
    }
  }

  /** A task accepted by the queue, and the thread that put it. */
  datatype Queued = Queued(thread: Thread, task: Task)

  function Inserted(urls: set<string>, url: string): set<string> { urls + {url} }
  function Erased(urls: set<string>, url: string): set<string> { urls - {url} }

  /** Where a callback thread is: out of the callback, with its URL in the set (the download running
      or just over), or about to queue a task. */
  datatype Pc =
    | Out
    | Downloading(m: Message)
    | Returned(m: Message, result: Option<string>)
    | Queueing(task: Task)

  datatype State = State(
    downloading: set<string>,
    threads: map<Thread, Pc>,
    // history
    claimed: seq<string>,                    // URLs inserted
    outcomes: seq<(string, Option<string>)>, // URLs released, with the result of their download
    queued: seq<Queued>)                     // tasks accepted by the queue

  function At(s: State, t: Thread): Pc {
    if t in s.threads then s.threads[t] else Out
  }

  function Moved(s: State, t: Thread, pc: Pc): State {
    s.(threads := s.threads[t := pc])
  }

  datatype Event =
    | AliveMessage(t: Thread, m: Message)
    | ByebyeMessage(t: Thread, deviceId: string)
    | DownloadEnds(t: Thread, result: Option<string>)
    | Release(t: Thread)
    | Queue(t: Thread, accepted: bool)

  predicate Enabled(s: State, e: Event) {
    match e
    case AliveMessage(t, _) => At(s, t).Out?
    case ByebyeMessage(t, _) => At(s, t).Out?
    case DownloadEnds(t, _) => At(s, t).Downloading?
    case Release(t) => At(s, t).Returned?
    case Queue(t, _) => At(s, t).Queueing?
  }

  function Next(s: State, e: Event): State
    requires Enabled(s, e)
  {
    match e
    case AliveMessage(t, m) =>
      if m.deviceType != [] || m.serviceType != [] || m.url in s.downloading then s
      else
        Moved(s.(downloading := Inserted(s.downloading, m.url), claimed := s.claimed + [m.url]), t, Downloading(m))
    case ByebyeMessage(t, id) => Moved(s, t, Queueing(Byebye(id)))
    case DownloadEnds(t, result) => Moved(s, t, Returned(At(s, t).m, result))
    case Release(t) =>
      var m, result := At(s, t).m, At(s, t).result;
      Moved(s.(downloading := Erased(s.downloading, m.url), outcomes := s.outcomes + [(m.url, result)]), t,
            if result.None? then Out else Queueing(Alive(m.url, result.value, m.deviceId, m.expires)))
    case Queue(t, accepted) =>
      Moved(if accepted then s.(queued := s.queued + [Queued(t, At(s, t).task)]) else s, t, Out)
  }

  predicate Run(s: State, events: seq<Event>, t: State)
    decreases |events|
  {
    if events == [] then s == t
    else Enabled(s, events[0]) && Run(Next(s, events[0]), events[1..], t)
  }

  const START := State({}, map[], [], [], [])

  // ---------------------------------------------------------------- one download per URL

  /** The URL a thread holds, from its insertion to its release. */
  predicate Holds(s: State, t: Thread, url: string) {
    t in s.threads && (s.threads[t].Downloading? || s.threads[t].Returned?) && s.threads[t].m.url == url
  }

  /** The set is exactly the URLs held, each by one thread. */
  ghost predicate Exact(s: State) {
    && (forall url | url in s.downloading :: exists t :: Holds(s, t, url))
    && (forall t, url | Holds(s, t, url) :: url in s.downloading)
    && (forall t, u, url | Holds(s, t, url) && Holds(s, u, url) :: t == u)
  }

  /** The results that documents wait to be queued for, and those queued, all come from downloads
      that ended well, for the message's own URL. */
  ghost predicate FromDownloads(s: State) {
    && (forall t | t in s.threads && s.threads[t].Queueing? && s.threads[t].task.Alive? ::
          (s.threads[t].task.url, Some(s.threads[t].task.description)) in s.outcomes)
    && (forall q | q in s.queued && q.task.Alive? :: (q.task.url, Some(q.task.description)) in s.outcomes)
  }

  lemma ExactStep(s: State, e: Event)
    requires Exact(s) && Enabled(s, e)
    ensures Exact(Next(s, e))
  {
    var s' := Next(s, e);
    forall url | url in s'.downloading
      ensures exists t :: Holds(s', t, url)
    {
      if url in s.downloading {
        var t :| Holds(s, t, url);
        assert Holds(s', t, url);
      } else {
        assert Holds(s', e.t, url);
      }
    }
    forall t, url | Holds(s', t, url)
      ensures url in s'.downloading
    {
      if t != e.t {
        assert Holds(s, t, url);
        if e.Release? {
          assert Holds(s, e.t, At(s, e.t).m.url);
        }
      } else if Holds(s, t, url) {
      } else {
        assert e.AliveMessage?;
      }
    }
    forall t, u, url | Holds(s', t, url) && Holds(s', u, url)
      ensures t == u
    {
      if t != e.t && u != e.t {
        assert Holds(s, t, url) && Holds(s, u, url);
      } else if t != u {
        var other := if t == e.t then u else t;
        assert Holds(s, other, url);
        assert e.DownloadEnds? ==> Holds(s, e.t, url);
      }
    }
  }

  lemma FromDownloadsStep(s: State, e: Event)
    requires FromDownloads(s) && Enabled(s, e)
    ensures FromDownloads(Next(s, e))
  {
  }

  function Released(outcomes: seq<(string, Option<string>)>): seq<string> {
    seq(|outcomes|, i requires 0 <= i < |outcomes| => outcomes[i].0)
  }

  /** The URLs ever inserted are those released since and those in the set. */
  ghost predicate Balanced(s: State) {
    multiset(s.claimed) == multiset(Released(s.outcomes)) + multiset(s.downloading)
  }

  lemma ReleaseBalanced(claimed: seq<string>, outcomes: seq<(string, Option<string>)>, urls: set<string>, url: string,
                        result: Option<string>)
    requires multiset(claimed) == multiset(Released(outcomes)) + multiset(urls) && url in urls
    ensures multiset(claimed) == multiset(Released(outcomes + [(url, result)])) + multiset(Erased(urls, url))
  {
    assert Released(outcomes + [(url, result)]) == Released(outcomes) + [url];
    assert urls == Erased(urls, url) + {url};
  }

  lemma BalancedStep(s: State, e: Event)
    requires Exact(s) && Balanced(s) && Enabled(s, e)
    ensures Balanced(Next(s, e))
  {
    if e.Release? {
      var m, result := At(s, e.t).m, At(s, e.t).result;
      assert Holds(s, e.t, m.url);
      hide Released, Erased;
      ReleaseBalanced(s.claimed, s.outcomes, s.downloading, m.url, result);
    } else {
      hide Released, Exact;
    }
  }

  ghost predicate Sound(s: State) {
    Exact(s) && FromDownloads(s) && Balanced(s)
  }

  lemma {:induction false} RunSound(s: State, events: seq<Event>, t: State)
    requires Sound(s) && Run(s, events, t)
    ensures Sound(t)
    decreases |events|
  {
    hide Exact, FromDownloads, Balanced, Next, Enabled;
    if events != [] {
      ExactStep(s, events[0]);
      FromDownloadsStep(s, events[0]);
      BalancedStep(s, events[0]);
      RunSound(Next(s, events[0]), events[1..], t);
    }
  }

  lemma StartSound()
    ensures Sound(START)
  {
    assert Released([]) == [];
  }

  /** Over any run from the start, with any number of threads: the set is exactly the URLs in flight, no two
      threads download the same one, every document queued is the result of a finished download, and the
      insertions are matched one by one by releases but for those in flight. */
  lemma DownloadsAreExclusive(events: seq<Event>, s: State)
    requires Run(START, events, s)
    ensures Exact(s) && FromDownloads(s)
    ensures multiset(s.claimed) == multiset(Released(s.outcomes)) + multiset(s.downloading)
  {
    StartSound();
    RunSound(START, events, s);
  }

  /** Every way out of a download releases exactly the thread's own URL. */
  lemma ReleasesItsOwn(s: State, t: Thread)
    requires Exact(s) && Enabled(s, Release(t))
    ensures var s' := Next(s, Release(t));
            var url := At(s, t).m.url;
            && url in s.downloading && s'.downloading == s.downloading - {url}
            && s'.outcomes == s.outcomes + [(url, At(s, t).result)]
            && (forall u, v | u != t :: Holds(s', u, v) <==> Holds(s, u, v))
            && !exists u :: Holds(s', u, url)
  {
    var url := At(s, t).m.url;
    assert Holds(s, t, url);
    var s' := Next(s, Release(t));
    forall u, v | u != t
      ensures Holds(s', u, v) <==> Holds(s, u, v)
    {
    }
    forall u
      ensures !Holds(s', u, url)
    {
      if u != t {
        assert !Holds(s, u, url);
      }
    }
  }

  /** When no thread is in the callback, nothing is marked as downloading, and every URL ever inserted was
      released. */
  lemma QuietMeansEmpty(events: seq<Event>, s: State)
    requires Run(START, events, s) && forall t | t in s.threads :: s.threads[t].Out?
    ensures s.downloading == {} && multiset(s.claimed) == multiset(Released(s.outcomes))
  {
    DownloadsAreExclusive(events, s);
    assert forall t, url :: !Holds(s, t, url);
  }

  // ---------------------------------------------------------------- what becomes of a message

  /** A message starts a download exactly when it names no device type and no service type and no thread holds its
      URL; else it is dropped. */
  lemma DownloadsIff(s: State, t: Thread, m: Message)
    requires Exact(s) && Enabled(s, AliveMessage(t, m))
    ensures var s' := Next(s, AliveMessage(t, m));
            if m.deviceType == "" && m.serviceType == "" && forall u :: !Holds(s, u, m.url) then
              Holds(s', t, m.url) && At(s', t) == Downloading(m)
            else s' == s
  {
  }

  /** A thread always has a step: a new message, the end of its download whatever it gave, the release, or the put
      of its task whatever the queue says. */
  lemma ThreadCanStep(s: State, t: Thread, m: Message, result: Option<string>, accepted: bool, deviceId: string)
    ensures match At(s, t)
            case Out => Enabled(s, AliveMessage(t, m)) && Enabled(s, ByebyeMessage(t, deviceId)) &&
                        At(Next(s, ByebyeMessage(t, deviceId)), t) == Queueing(Byebye(deviceId))
            case Downloading(_) => Enabled(s, DownloadEnds(t, result))
            case Returned(_, _) => Enabled(s, Release(t))
            case Queueing(_) => Enabled(s, Queue(t, accepted))
  {
  }

  function OwnEvents(events: seq<Event>, t: Thread): seq<Event> {
    if events == [] then []
    else (if events[0].t == t then [events[0]] else []) + OwnEvents(events[1..], t)
  }

  function QueuedBy(queued: seq<Queued>, t: Thread): seq<Task> {
    if queued == [] then []
    else
      var n := |queued| - 1;
      QueuedBy(queued[..n], t) + if queued[n].thread == t then [queued[n].task] else []
  }

  lemma OneStep(s: State, e: Event, t: Thread)
    requires Enabled(s, e)
    ensures var s' := Next(s, e);
            var put := e.t == t && e.Queue? && e.accepted;
            && QueuedBy(s'.queued, t) == QueuedBy(s.queued, t) + (if put then [At(s, t).task] else [])
            && (e.t != t ==> At(s', t) == At(s, t))
  {
    var s' := Next(s, e);
    if s'.queued != s.queued {
      assert s'.queued[..|s.queued|] == s.queued;
    }
    assert QueuedBy(s.queued, t) + [] == QueuedBy(s.queued, t);
  }

  /** A thread that takes no step stays where it is. */
  lemma {:induction false} Waits(s: State, events: seq<Event>, u: State, t: Thread)
    requires Run(s, events, u) && OwnEvents(events, t) == []
    ensures At(u, t) == At(s, t) && QueuedBy(u.queued, t) == QueuedBy(s.queued, t)
    decreases |events|
  {
    if events != [] {
      OneStep(s, events[0], t);
      Waits(Next(s, events[0]), events[1..], u, t);
    }
  }

  /** The first own step of a thread, with what the others do before it. */
  lemma {:induction false} FirstStep(s: State, events: seq<Event>, u: State, t: Thread)
    returns (v: State, rest: seq<Event>)
    requires Run(s, events, u) && OwnEvents(events, t) != []
    ensures var e := OwnEvents(events, t)[0];
            && e.t == t && Enabled(v, e) && At(v, t) == At(s, t) && QueuedBy(v.queued, t) == QueuedBy(s.queued, t)
            && Run(Next(v, e), rest, u) && OwnEvents(events, t) == [e] + OwnEvents(rest, t)
    decreases |events|
  {
    if events[0].t == t {
      v, rest := s, events[1..];
    } else {
      OneStep(s, events[0], t);
      v, rest := FirstStep(Next(s, events[0]), events[1..], u, t);
    }
  }

  /** The steps of a thread that handles a message, up to its release of the URL... */
  function Fetching(t: Thread, m: Message, result: Option<string>): seq<Event> {
    [AliveMessage(t, m)] + ([DownloadEnds(t, result)] + ([Release(t)] + []))
  }

  lemma Splits(e: Event, rest: seq<Event>, e': Event, rest': seq<Event>)
    requires [e] + rest == [e'] + rest'
    ensures e == e' && rest == rest'
  {
    assert ([e] + rest)[1..] == rest && ([e'] + rest')[1..] == rest' && ([e] + rest)[0] == e;
  }

  lemma NextOwn(s: State, events: seq<Event>, u: State, t: Thread, e: Event, more: seq<Event>)
    returns (v: State, rest: seq<Event>)
    requires Run(s, events, u) && OwnEvents(events, t) == [e] + more
    ensures e.t == t && Enabled(v, e) && Run(Next(v, e), rest, u) && OwnEvents(rest, t) == more
    ensures At(v, t) == At(s, t) && QueuedBy(v.queued, t) == QueuedBy(s.queued, t)
  {
    v, rest := FirstStep(s, events, u, t);
    Splits(OwnEvents(events, t)[0], OwnEvents(rest, t), e, more);
  }

  /** Whatever other threads do meanwhile: the end of a download leads to the release, and then the thread is out of
      the callback when the download failed, or about to queue a task with the message's own URL, device id and
      lifetime and the document downloaded. */
  lemma DownloadIsHandled(s: State, events: seq<Event>, u: State, t: Thread, m: Message, result: Option<string>)
    requires Run(s, events, u) && At(s, t).Out?
    ensures OwnEvents(events, t) == [AliveMessage(t, m)] + ([DownloadEnds(t, result)] + []) ==>
              At(u, t) == Returned(m, result) && Enabled(u, Release(t))
    ensures OwnEvents(events, t) == Fetching(t, m, result) ==>
              && m.deviceType == "" && m.serviceType == "" && QueuedBy(u.queued, t) == QueuedBy(s.queued, t)
              && At(u, t) == match result
                             case None => Out
                             case Some(description) => Queueing(Alive(m.url, description, m.deviceId, m.expires))
  {
    hide Run, OwnEvents, QueuedBy;
    var alive, ends, release := AliveMessage(t, m), DownloadEnds(t, result), Release(t);
    var own := OwnEvents(events, t);
    if own == [alive] + ([ends] + []) || own == Fetching(t, m, result) {
      var released := if own == Fetching(t, m, result) then [release] + [] else [];
      var v1, events1 := NextOwn(s, events, u, t, alive, [ends] + released);
      OneStep(v1, alive, t);
      var v2, events2 := NextOwn(Next(v1, alive), events1, u, t, ends, released);
      OneStep(v2, ends, t);
      if released == [] {
        Waits(Next(v2, ends), events2, u, t);
      } else {
        var v3, events3 := NextOwn(Next(v2, ends), events2, u, t, release, []);
        OneStep(v3, release, t);
        Waits(Next(v3, release), events3, u, t);
      }
    }
  }

  /** ...and from there on, it can put the task and is then out of the callback; the task is on the queue exactly
      when the queue accepted it. The same for a goodbye, from its very message. */
  lemma TaskIsQueued(s: State, events: seq<Event>, u: State, t: Thread, task: Task, accepted: bool)
    requires At(s, t) == Queueing(task) || (At(s, t).Out? && task.Byebye?)
    requires Run(s, events, u)
    requires OwnEvents(events, t) ==
             (if At(s, t).Out? then [ByebyeMessage(t, task.deviceId)] else []) + ([Queue(t, accepted)] + [])
    ensures At(u, t).Out? && QueuedBy(u.queued, t) == QueuedBy(s.queued, t) + if accepted then [task] else []
  {
    hide Run, OwnEvents, QueuedBy;
    var v, rest := s, events;
    if At(s, t).Out? {
      var bye := ByebyeMessage(t, task.deviceId);
      v, rest := NextOwn(s, events, u, t, bye, [Queue(t, accepted)] + []);
      OneStep(v, bye, t);
      v := Next(v, bye);
    } else {
      assert [] + ([Queue(t, accepted)] + []) == [Queue(t, accepted)] + [];
    }
    var v', rest' := NextOwn(v, rest, u, t, Queue(t, accepted), []);
    OneStep(v', Queue(t, accepted), t);
    Waits(Next(v', Queue(t, accepted)), rest', u, t);
  }
}
