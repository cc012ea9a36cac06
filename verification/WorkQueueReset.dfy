/** The reset at the end of setTerminateAndWait zeroes the client counter while clients may
    still be on their way out of a wait. When that is so the counter is wrong afterwards. */
module WorkQueueReset {
  import opened Options
  import opened WorkQueueMonitor
  import opened WorkQueueSystem
  import opened WorkQueueSafety
  import opened WorkQueueLiveness
  import opened WorkQueueShutdown
  import opened WorkQueueRuns

  /** Over whole runs: the client counter is what the waiting clients are less those that the last
      reset found inside a wait, modulo the counter's range; so it is right exactly when there were
      none. */
  lemma CounterOverRuns<T(!new)>(high: nat, low: nat, s: State<T>)
    requires low >= 1 && Reachable(high, low, s)
    ensures s.f.clientsWaiting == (|ClientsInWait(s.clients)| - s.debt) % UINT_RANGE
    ensures s.f.clientsWaiting == |ClientsInWait(s.clients)| <==> s.debt == 0
  {
    ReachableSafe(high, low, s);
    CounterIsRightIff(s);
  }

  /** A run of a shutdown, up to its reset at most, in which no other client calls waitIdle or
      setTerminateAndWait. */
  predicate CalmRun<T(==)>(s: State<T>, events: seq<Event<T>>, t: State<T>)
    requires s.f.low >= 1
    decreases |events|
  {
    if events == [] then s == t
    else
      && s.terminating && !events[0].IdleCall? && !events[0].TerminateCall?
      && Enabled(s, events[0]) && CalmRun(Next(s, events[0]), events[1..], t)
  }

  /** Whatever happens in a shutdown begun by client c, the client counter is right. */
  ghost predicate KeepsCounter<T(!new)>(s: State<T>, c: Id)
    requires s.f.low >= 1 && Enabled(s, TerminateCall(c))
  {
    forall events: seq<Event<T>>, t: State<T> | CalmRun(Next(s, TerminateCall(c)), events, t) ::
      t.f.clientsWaiting == |ClientsInWait(t.clients)|
  }

  // ---------------------------------------------------------------- nobody waits at the call

  ghost predicate OnlyWaiter<T>(s: State<T>, c: Id) {
    s.debt == 0 && ClientsInWait(s.clients) <= {c}
  }

  lemma ClientStepOnlyWaiter<T>(s: State<T>, c: Id, d: Id, op: ClientOp<T>, resuming: bool, pick: Option<Id>)
    requires OnlyWaiter(s, c)
    requires PickOk(WorkersAsleep(s.workers), ClientSectionOf(s.f, op, resuming).wcond, pick)
    requires d == c || !ClientSectionOf(s.f, op, resuming).exit.Sleeps?
    requires Resets(op, ClientSectionOf(s.f, op, resuming)) ==> d == c
    ensures OnlyWaiter(ClientStep(s, d, op, ClientSectionOf(s.f, op, resuming), pick), c)
  {
    var r := ClientSectionOf(s.f, op, resuming);
    var t := ClientStep(s, d, op, r, pick);
    hide ClientSectionOf;
    assert ClientsInWait(t.clients) <= ClientsInWait(s.clients) + {c};
    if Resets(op, r) {
      assert ClientsInWait(s.clients) - {c} == {};
    }
  }

  lemma OtherStepOnlyWaiter<T>(s: State<T>, c: Id, e: Event<T>)
    requires OnlyWaiter(s, c) && s.f.low >= 1 && Enabled(s, e)
    requires !e.PutCall? && !e.IdleCall? && !e.TerminateCall? && !e.ClientResume?
    ensures OnlyWaiter(Next(s, e), c)
  {
    match e
    case TakeCall(w, timed, pick) => NotifyClientsCounts(s.clients, TakeEntry(s.f).ccond, pick);
    case TakeResumes(w, timedOut, pick) => NotifyClientsCounts(s.clients, TakeResume(s.f, timedOut).ccond, pick);
    case ExitCall(w) => NotifyClientsCounts(s.clients, All, None);
    case _ =>
  }

  lemma StepOnlyWaiter<T>(s: State<T>, c: Id, e: Event<T>)
    requires OnlyWaiter(s, c) && s.f.low >= 1 && !s.f.okFlag
    requires Enabled(s, e) && !e.IdleCall? && !e.TerminateCall?
    ensures OnlyWaiter(Next(s, e), c)
  {
    if e.PutCall? {
      ClientStepOnlyWaiter(s, c, e.c, Put(e.task, e.flush), false, e.pick);
    } else if e.ClientResume? {
      assert e.c in ClientsInWait(s.clients);
      ClientStepOnlyWaiter(s, c, e.c, s.clients[e.c].op, true, e.pick);
    } else {
      OtherStepOnlyWaiter(s, c, e);
    }
  }

  lemma {:induction false} CalmRunKeeps<T>(s: State<T>, c: Id, events: seq<Event<T>>, t: State<T>)
    requires Safe(s) && Live(s) && OnlyWaiter(s, c) && CalmRun(s, events, t)
    ensures t.f.clientsWaiting == |ClientsInWait(t.clients)|
    decreases |events|
  {
    if events == [] {
      CounterIsRightIff(s);
    } else {
      StepOnlyWaiter(s, c, events[0]);
      SafeLiveStep(s, events[0]);
      hide Safe, Live, OnlyWaiter, Next, Enabled;
      CalmRunKeeps(Next(s, events[0]), c, events[1..], t);
    }
  }

  // ---------------------------------------------------------------- somebody waits at the call

  /** The shutdown completes, with a client left inside its wait. */
  ghost predicate CanResetOver<T(!new)>(s: State<T>, d: Id)
    requires s.f.low >= 1
  {
    exists events: seq<Event<T>>, t: State<T> ::
      CalmRun(s, events, t) && t.f.clientsWaiting == 0 && d in ClientsInWait(t.clients)
  }

  lemma CalmCons<T(!new)>(s: State<T>, e: Event<T>, d: Id)
    requires s.f.low >= 1 && s.terminating && !e.IdleCall? && !e.TerminateCall? && Enabled(s, e)
    requires CanResetOver(Next(s, e), d)
    ensures CanResetOver(s, d)
  {
    hide Next, Enabled;
    var events: seq<Event<T>>, t: State<T> :|
      CalmRun(Next(s, e), events, t) && t.f.clientsWaiting == 0 && d in ClientsInWait(t.clients);
    assert ([e] + events)[1..] == events;
    assert CalmRun(s, [e] + events, t);
  }

  lemma ResetNow<T(!new)>(s: State<T>, d: Id)
    requires s.f.low >= 1 && s.f.clientsWaiting == 0 && d in ClientsInWait(s.clients)
    ensures CanResetOver(s, d)
  {
    var none: seq<Event<T>> := [];
    assert CalmRun(s, none, s);
  }

  lemma LastResume<T>(s: State<T>, c: Id, d: Id)
    requires Safe(s) && c in s.clients && s.clients[c] == Waiting(Terminate, false)
    requires s.f.exited == s.f.threads && d != c && d in ClientsInWait(s.clients)
    ensures Enabled(s, ClientResume(c, None))
    ensures var t := Next(s, ClientResume(c, None));
            t.f.clientsWaiting == 0 && d in ClientsInWait(t.clients)
  {
  }

  lemma {:induction false} CanLeaveBehind<T(!new)>(s: State<T>, c: Id, d: Id)
    requires Closing(s) && s.terminating && c in s.clients && s.clients[c].Waiting? && s.clients[c].op.Terminate?
    requires d != c && d in ClientsInWait(s.clients)
    ensures CanResetOver(s, d)
    decreases Distance(s.workers)
  {
    if w :| w in s.workers && !s.workers[w].Exited? {
      var e := WorkerCanStep(s, w);
      ClosingStep(s, e);
      ClosingWorker(s, e);
      WorkerEventKeepsCall(s, e, c);
      WorkerEventKeepsCall(s, e, d);
      hide Closing, Next, Enabled, Distance;
      CanLeaveBehind(Next(s, e), c, d);
      CalmCons(s, e, d);
    } else {
      TerminatorIsAwake(s, c);
      assert WorkersExited(s.workers) == s.workers.Keys;
      LastResume(s, c, d);
      hide Closing, Next, Enabled;
      ResetNow(Next(s, ClientResume(c, None)), d);
      CalmCons(s, ClientResume(c, None), d);
    }
  }

  lemma CallLeavesBehind<T(!new)>(s: State<T>, c: Id, d: Id)
    requires Safe(s) && Live(s) && s.f.threads > 0 && Enabled(s, TerminateCall(c)) && d in ClientsInWait(s.clients)
    ensures CanResetOver(Next(s, TerminateCall(c)), d)
  {
    var u := Next(s, TerminateCall(c));
    ShutdownBegins(s, c);
    assert d in ClientsInWait(u.clients);
    if u.f.threads == 0 {
      ResetNow(u, d);
    } else {
      CanLeaveBehind(u, c, d);
    }
  }

  /** Calling setTerminateAndWait with a right client counter: the counter stays right throughout the
      shutdown and after its reset, whatever the scheduler does and whatever is put, if and only if no
      client is inside a wait at the call. */
  lemma ResetKeepsCounter<T(!new)>(high: nat, low: nat, s: State<T>, c: Id)
    requires low >= 1 && Reachable(high, low, s) && s.f.clientsWaiting == |ClientsInWait(s.clients)|
    requires s.f.low >= 1 && s.f.threads > 0 && Enabled(s, TerminateCall(c))
    ensures KeepsCounter(s, c) <==> ClientsInWait(s.clients) == {}
  {
    ReachableLive(high, low, s);
    CounterIsRightIff(s);
    var u := Next(s, TerminateCall(c));
    if ClientsInWait(s.clients) == {} {
      ClientStepOnlyWaiter(s, c, c, Terminate, false, None);
      SafeLiveStep(s, TerminateCall(c));
      hide Safe, Live, OnlyWaiter, Next, Enabled;
      forall events: seq<Event<T>>, t: State<T> | CalmRun(u, events, t)
        ensures t.f.clientsWaiting == |ClientsInWait(t.clients)|
      {
        CalmRunKeeps(u, c, events, t);
      }
    } else {
      var d :| d in ClientsInWait(s.clients);
      CallLeavesBehind(s, c, d);
      hide Safe, Live, Next, Enabled;
      var events: seq<Event<T>>, t: State<T> :|
        CalmRun(u, events, t) && t.f.clientsWaiting == 0 && d in ClientsInWait(t.clients);
    }
  }

  /** The counter does go wrong, for all marks: a reachable state with no client in a wait and a counter
      at the largest value, because a client left waitIdle after the reset. */
  lemma CounterCanUnderflow<T(!new)>(high: nat, low: nat) returns (s: State<T>)
    requires low >= 1
    ensures Reachable(high, low, s) && ClientsInWait(s.clients) == {} && s.f.clientsWaiting == UINT_RANGE - 1
  {
    hide Next, Enabled, Run;
    s := ShutdownOverWaiter(high, low);
    Resumes(s, 3);
    Step(high, low, ALL_CALLS, s, ClientResume(3, None));
    s := Next(s, ClientResume(3, None));
    Resumes(s, 2);
    Step(high, low, ALL_CALLS, s, ClientResume(2, None));
    s := Next(s, ClientResume(2, None));
    ReachableWithIsReachable(high, low, ALL_CALLS, s);
  }

  /** Client 2 sleeps in waitIdle when client 3 terminates; the worker exits and wakes both. */
  lemma ShutdownOverWaiter<T(!new)>(high: nat, low: nat) returns (s: State<T>)
    requires low >= 1
    ensures ReachableWith(high, low, ALL_CALLS, s)
    ensures s.f == Fields(high, low, [], false, true, 1, 1, 2, 0) && s.workers == map[0 := Exited]
    ensures s.clients == map[1 := Out, 2 := Waiting(Idle, false), 3 := Waiting(Terminate, false)]
  {
    hide Next, Enabled, Run;
    s := Started(high, low, ALL_CALLS);
    IdleSleeps(s, 2);
    Step(high, low, ALL_CALLS, s, IdleCall(2));
    s := Next(s, IdleCall(2));
    Terminates(s, 3, 0);
    Step(high, low, ALL_CALLS, s, TerminateCall(3));
    s := Next(s, TerminateCall(3));
    s := WorkerLeaves(high, low, ALL_CALLS, s);
  }
}
