/** Single steps of the WorkQueue protocol, for building particular runs. Each says what a step does
    to the fields and to the threads; the history is left open. */
module WorkQueueRuns {
  import opened Options
  import opened WorkQueueMonitor
  import opened WorkQueueSystem

  /** The kinds of client calls that a run may hold besides plain puts. */
  datatype Calls = Calls(idle: bool, flush: bool, terminate: bool)

  const ALL_CALLS := Calls(true, true, true)

  predicate Allowed<T>(calls: Calls, e: Event<T>) {
    && (e.IdleCall? ==> calls.idle)
    && (e.PutCall? && e.flush ==> calls.flush)
    && (e.TerminateCall? ==> calls.terminate)
  }

  ghost predicate AllAllowed<T>(calls: Calls, events: seq<Event<T>>) {
    forall e | e in events :: Allowed(calls, e)
  }

  ghost predicate ReachableWith<T(!new)>(high: nat, low: nat, calls: Calls, s: State<T>)
    requires low >= 1
  {
    exists clients: set<Id>, events: seq<Event<T>> ::
      |clients| < UINT_RANGE && AllAllowed(calls, events) && Run(Init(high, low, clients), events, s)
  }

  lemma ReachableWithIsReachable<T(!new)>(high: nat, low: nat, calls: Calls, s: State<T>)
    requires low >= 1 && ReachableWith(high, low, calls, s)
    ensures Reachable(high, low, s)
  {
  }

  lemma Step<T(!new)>(high: nat, low: nat, calls: Calls, s: State<T>, e: Event<T>)
    requires low >= 1 && s.f.low >= 1 && ReachableWith(high, low, calls, s) && Enabled(s, e) && Allowed(calls, e)
    ensures ReachableWith(high, low, calls, Next(s, e))
  {
    hide Next, Enabled, Run;
    var clients: set<Id>, events: seq<Event<T>> :|
      |clients| < UINT_RANGE && AllAllowed(calls, events) && Run(Init(high, low, clients), events, s);
    RunOneMore(Init(high, low, clients), events, s, e);
    assert AllAllowed(calls, events + [e]);
  }

  // ---------------------------------------------------------------- clients

  lemma PutPushes<T>(s: State<T>, c: Id, task: T)
    requires s.f.low >= 1 && ClientIdle(s, c) && s.f.Ok() && s.f.open && !s.f.Full() && s.f.workersWaiting == 0
    ensures var e := PutCall(c, task, false, None);
            Enabled(s, e) && Next(s, e).clients == s.clients && Next(s, e).workers == s.workers &&
            Next(s, e).f == s.f.(queue := s.f.queue + [task])
  {
    assert s.clients[c := Out] == s.clients;
  }

  lemma PutSleeps<T>(s: State<T>, c: Id, task: T, flush: bool)
    requires s.f.low >= 1 && ClientIdle(s, c) && s.f.Ok() && s.f.open && s.f.Full()
    ensures var e := PutCall(c, task, flush, None);
            Enabled(s, e) && Next(s, e).clients == s.clients[c := Waiting(Put(task, flush), true)] &&
            Next(s, e).workers == s.workers && Next(s, e).f == s.f.(clientsWaiting := Increment(s.f.clientsWaiting))
  {
  }

  lemma IdleSleeps<T>(s: State<T>, c: Id)
    requires s.f.low >= 1 && ClientIdle(s, c) && s.f.Busy()
    ensures var e := IdleCall(c);
            Enabled(s, e) && Next(s, e).clients == s.clients[c := Waiting(Idle, true)] &&
            Next(s, e).workers == s.workers && Next(s, e).f == s.f.(clientsWaiting := Increment(s.f.clientsWaiting))
  {
  }

  /** A client resumes, with the section of its call. */
  lemma Resumes<T>(s: State<T>, c: Id)
    requires s.f.low >= 1 && ClientWoken(s, c)
    requires ClientSectionOf(s.f, s.clients[c].op, true).wcond == Nobody
    ensures var e := ClientResume(c, None);
            var r := ClientSectionOf(s.f, s.clients[c].op, true);
            Enabled(s, e) && Next(s, e).f == r.fields &&
            Next(s, e).clients == s.clients[c := if r.exit.Sleeps? then Waiting(s.clients[c].op, true) else Out] &&
            Next(s, e).workers == if s.clients[c].op.Terminate? && r.exit == Returns(true) then map[] else s.workers
  {
  }

  /** The start of setTerminateAndWait while the only worker is about to call take. */
  lemma Terminates<T>(s: State<T>, c: Id, w: Id)
    requires s.f.low >= 1 && ClientIdle(s, c) && s.f.threads == 1 && s.f.exited == 0 && s.workers == map[w := Ready]
    ensures var e := TerminateCall(c);
            Enabled(s, e) && Next(s, e).clients == s.clients[c := Waiting(Terminate, true)] &&
            Next(s, e).workers == s.workers &&
            Next(s, e).f == s.f.(okFlag := false, clientsWaiting := Increment(s.f.clientsWaiting))
  {
    assert WorkersAsleep(s.workers) == {};
  }

  // ---------------------------------------------------------------- workers

  lemma Starts<T>(s: State<T>, w: Id)
    requires s.f.low >= 1 && s.workers == map[]
    ensures var e := StartWorkers({w});
            Enabled(s, e) && Next(s, e).clients == s.clients && Next(s, e).workers == map[w := Ready] &&
            Next(s, e).f == s.f.(threads := s.f.threads + 1)
  {
  }

  lemma Takes<T>(s: State<T>, w: Id, pick: Option<Id>)
    requires s.f.low >= 1 && w in s.workers && s.workers[w].Ready? && s.f.Ok() && |s.f.queue| >= s.f.low
    requires if s.f.clientsWaiting > 0 then pick.Some? && pick.value in ClientsAsleep(s.clients) else pick.None?
    ensures var e := TakeCall(w, false, pick);
            Enabled(s, e) &&
            Next(s, e).clients == (if pick.None? then s.clients
                                   else s.clients[pick.value := WakeClient(s.clients[pick.value])]) &&
            Next(s, e).workers == s.workers[w := Working(|s.removed|)] &&
            Next(s, e).f == s.f.(queue := s.f.queue[1..])
  {
  }

  lemma TakeRefused<T>(s: State<T>, w: Id)
    requires s.f.low >= 1 && w in s.workers && s.workers[w].Ready? && !s.f.Ok()
    ensures var e := TakeCall(w, false, None);
            Enabled(s, e) && Next(s, e).clients == s.clients && Next(s, e).workers == s.workers[w := Failed] &&
            Next(s, e).f == s.f
  {
  }

  lemma Finishes<T>(s: State<T>, w: Id)
    requires s.f.low >= 1 && w in s.workers && s.workers[w].Working?
    ensures var e := TaskDone(w);
            Enabled(s, e) && Next(s, e).clients == s.clients && Next(s, e).workers == s.workers[w := Ready] &&
            Next(s, e).f == s.f
  {
  }

  lemma Exits<T>(s: State<T>, w: Id)
    requires s.f.low >= 1 && w in s.workers && s.workers[w].Failed?
    ensures var e := Event<T>.ExitCall(w);
            Enabled(s, e) && Next(s, e).clients == (map c | c in s.clients :: WakeClient(s.clients[c])) &&
            Next(s, e).workers == s.workers[w := Exited] && Next(s, e).f == WorkerExit(s.f)
  {
  }

  /** The only worker goes to sleep on an empty queue, nobody else being inside a wait. */
  lemma SleepsOnEmpty<T>(s: State<T>, w: Id)
    requires s.f.low >= 1 && s.workers == map[w := Ready] && s.f.Ok() && s.f.queue == [] && s.f.workersWaiting == 0
    requires ClientsInWait(s.clients) == {}
    ensures var e := TakeCall(w, false, None);
            Enabled(s, e) && Next(s, e).clients == s.clients && Next(s, e).workers == map[w := Asleep(false)] &&
            Next(s, e).f == s.f.(workersWaiting := 1)
  {
    assert NotifyClients(s.clients, All, None) == s.clients by {
      forall c | c in s.clients ensures WakeClient(s.clients[c]) == s.clients[c] {
        assert c !in ClientsInWait(s.clients);
      }
    }
  }

  /** A put that wakes the only worker. */
  lemma PutWakes<T>(s: State<T>, c: Id, task: T, w: Id)
    requires s.f.low >= 1 && ClientIdle(s, c) && s.f.Ok() && s.f.open && !s.f.Full() && s.f.workersWaiting > 0
    requires s.workers == map[w := Asleep(false)]
    ensures var e := PutCall(c, task, false, Some(w));
            Enabled(s, e) && Next(s, e).clients == s.clients && Next(s, e).workers == map[w := Woken(false)] &&
            Next(s, e).f == s.f.(queue := s.f.queue + [task])
  {
    assert w in WorkersAsleep(s.workers);
    assert s.clients[c := Out] == s.clients;
  }

  /** A woken worker that finds less than the low mark, but something, sleeps again and tells nobody. */
  lemma SleepsBelowLow<T>(s: State<T>, w: Id)
    requires s.workers == map[w := Woken(false)] && s.f.Ok() && 0 < |s.f.queue| < s.f.low && s.f.workersWaiting == 1
    ensures var e := TakeResumes(w, false, None);
            Enabled(s, e) && Next(s, e).clients == s.clients && Next(s, e).workers == map[w := Asleep(false)] &&
            Next(s, e).f == s.f
  {
  }

  // ---------------------------------------------------------------- beginnings

  /** A queue with one worker, about to call take. */
  lemma Started<T(!new)>(high: nat, low: nat, calls: Calls) returns (s: State<T>)
    requires low >= 1
    ensures ReachableWith(high, low, calls, s)
    ensures s.f == Fields(high, low, [], true, true, 1, 0, 0, 0)
    ensures s.clients == map[1 := Out, 2 := Out, 3 := Out] && s.workers == map[0 := Ready]
  {
    var none: seq<Event<T>> := [];
    s := Init<T>(high, low, {1, 2, 3});
    assert AllAllowed(calls, none) && Run(s, none, s);
    assert s.clients == map[1 := Out, 2 := Out, 3 := Out];
    Starts(s, 0);
    Step(high, low, calls, s, StartWorkers({0}));
    s := Next(s, StartWorkers({0}));
  }

  /** The same with n tasks queued. */
  lemma {:induction false} Filled<T(!new)>(high: nat, low: nat, calls: Calls, task: T, n: nat) returns (s: State<T>)
    requires low >= 1 && n <= high
    ensures ReachableWith(high, low, calls, s)
    ensures |s.f.queue| == n && s.f == Fields(high, low, s.f.queue, true, true, 1, 0, 0, 0)
    ensures s.clients == map[1 := Out, 2 := Out, 3 := Out] && s.workers == map[0 := Ready]
  {
    if n == 0 {
      s := Started(high, low, calls);
    } else {
      s := Filled(high, low, calls, task, n - 1);
      PutPushes(s, 1, task);
      Step(high, low, calls, s, PutCall(1, task, false, None));
      s := Next(s, PutCall(1, task, false, None));
    }
  }

  /** During a shutdown the worker finds the queue closed and exits, which wakes the clients. */
  lemma WorkerLeaves<T(!new)>(high: nat, low: nat, calls: Calls, s0: State<T>) returns (s: State<T>)
    requires low >= 1 && s0.f.low >= 1 && ReachableWith(high, low, calls, s0)
    requires s0.workers == map[0 := Ready] && !s0.f.okFlag
    ensures ReachableWith(high, low, calls, s)
    ensures s.f == WorkerExit(s0.f) && s.workers == map[0 := Exited]
    ensures s.clients == map c | c in s0.clients :: WakeClient(s0.clients[c])
  {
    hide Next, Enabled, Run;
    TakeRefused(s0, 0);
    Step(high, low, calls, s0, TakeCall(0, false, None));
    s := Next(s0, TakeCall(0, false, None));
    Exits(s, 0);
    Step(high, low, calls, s, Event.ExitCall(0));
    s := Next(s, Event.ExitCall(0));
  }
}
