/** Clients blocked by a full queue are let in as tasks are taken. Each take wakes one client, waitIdle
    callers share the condition variable and may be the one woken, a flush makes more room than one,
    and a shutdown can leave the client counter short; so this depends on the calls that are made. */
module WorkQueueThroughput {
  import opened Options
  import opened WorkQueueMonitor
  import opened WorkQueueSystem
  import opened WorkQueueSafety
  import opened WorkQueueLiveness
  import opened WorkQueueRuns

  function PutsAsleep<T>(clients: map<Id, ClientPc<T>>): set<Id> {
    set c | c in ClientsAsleep(clients) && clients[c].op.Put?
  }

  function PutsWoken<T>(clients: map<Id, ClientPc<T>>): set<Id> {
    set c | c in ClientsInWait(clients) && !clients[c].asleep && clients[c].op.Put?
  }

  /** While some client sleeps in put, the free places are all spoken for by clients woken in put. */
  ghost predicate RoomIsSignalled<T>(s: State<T>) {
    s.f.Ok() && PutsAsleep(s.clients) != {} ==> |s.f.queue| + |PutsWoken(s.clients)| >= s.f.high
  }

  /** ... in all runs with these kinds of calls. */
  ghost predicate SignalsRoom<T(!new)>(high: nat, low: nat, calls: Calls)
    requires low >= 1
  {
    forall s: State<T> | ReachableWith(high, low, calls, s) :: RoomIsSignalled(s)
  }

  // ---------------------------------------------------------------- runs of puts

  /** The calls that do no harm: puts, with a flush only when the queue holds one task at most. */
  function Harmless(high: nat): Calls {
    Calls(false, high == 1, false)
  }

  ghost predicate OnlyPutsWait<T>(s: State<T>) {
    && s.debt == 0
    && forall c | c in ClientsInWait(s.clients) :: s.clients[c].op.Put? && (s.clients[c].op.flush ==> s.f.high == 1)
  }

  function ClientsWoken<T>(clients: map<Id, ClientPc<T>>): set<Id> {
    ClientsInWait(clients) - ClientsAsleep(clients)
  }

  ghost predicate AllSignalled<T>(s: State<T>) {
    s.f.Ok() && ClientsAsleep(s.clients) != {} ==> |s.f.queue| + |ClientsWoken(s.clients)| >= s.f.high
  }

  lemma MoveClientWoken<T>(clients: map<Id, ClientPc<T>>, c: Id, pc: ClientPc<T>)
    requires c in clients
    ensures |ClientsWoken(clients[c := pc])| ==
            |ClientsWoken(clients)| + Bit(pc.Waiting? && !pc.asleep) - Bit(clients[c].Waiting? && !clients[c].asleep)
  {
    SizeAfterMove(ClientsWoken(clients), ClientsWoken(clients[c := pc]), c);
  }

  /** notify_one moves one client from asleep to woken, if any sleeps. */
  lemma NotifyOneClient<T>(clients: map<Id, ClientPc<T>>, pick: Option<Id>)
    requires PickOk(ClientsAsleep(clients), One, pick) && ClientsAsleep(clients) != {}
    ensures |ClientsWoken(NotifyClients(clients, One, pick))| == |ClientsWoken(clients)| + 1
  {
    MoveClientWoken(clients, pick.value, WakeClient(clients[pick.value]));
  }

  lemma HarmlessPutSection<T>(f: Fields<T>, task: T, flush: bool, resuming: bool)
    requires flush ==> f.high == 1
    ensures var r := ClientSectionOf(f, Put(task, flush), resuming);
            && r.fields.Ok() == f.Ok() && r.fields.high == f.high
            && (r.exit.Sleeps? ==> r.fields.queue == f.queue && |f.queue| >= f.high)
            && (r.exit == Returns(true) ==> |r.fields.queue| == |f.queue| + 1)
            && (r.exit == Returns(false) ==> r.fields.queue == f.queue && (resuming ==> !f.Ok()))
  {
  }

  lemma PutStepOnlyPuts<T>(s: State<T>, c: Id, op: ClientOp<T>, r: ClientSection<T>, pick: Option<Id>)
    requires OnlyPutsWait(s) && op.Put? && (op.flush ==> s.f.high == 1) && r.fields.high == s.f.high
    requires PickOk(WorkersAsleep(s.workers), r.wcond, pick)
    ensures OnlyPutsWait(ClientStep(s, c, op, r, pick))
  {
    var t := ClientStep(s, c, op, r, pick);
    forall d | d in ClientsInWait(t.clients)
      ensures t.clients[d].op.Put? && (t.clients[d].op.flush ==> t.f.high == 1)
    {
      assert d == c || d in ClientsInWait(s.clients);
    }
  }

  lemma PutStepSignals<T>(s: State<T>, c: Id, task: T, flush: bool, resuming: bool, pick: Option<Id>)
    requires AllSignalled(s) && OnlyPutsWait(s) && c in s.clients && (flush ==> s.f.high == 1)
    requires s.clients[c] == if resuming then Waiting(Put(task, flush), false) else Out
    requires PickOk(WorkersAsleep(s.workers), ClientSectionOf(s.f, Put(task, flush), resuming).wcond, pick)
    ensures var t := ClientStep(s, c, Put(task, flush), ClientSectionOf(s.f, Put(task, flush), resuming), pick);
            AllSignalled(t) && OnlyPutsWait(t)
  {
    var op := Put(task, flush);
    var r := ClientSectionOf(s.f, op, resuming);
    HarmlessPutSection(s.f, task, flush, resuming);
    PutStepOnlyPuts(s, c, op, r, pick);
    hide OnlyPutsWait, ClientSectionOf, ClientsAsleep, ClientsInWait, ClientsWoken, WorkersAsleep, PickOk,
      NotifyWorkers;
    var t := ClientStep(s, c, op, r, pick);
    var pc := if r.exit.Sleeps? then Waiting(op, true) else Out;
    assert t.clients == s.clients[c := pc];
    MoveClientWoken(s.clients, c, pc);
    MoveClientAsleep(s.clients, c, pc);
    assert c !in ClientsAsleep(s.clients) by { NotAsleep(s.clients, c); }
  }

  lemma NotAsleep<T>(clients: map<Id, ClientPc<T>>, c: Id)
    requires c in clients && (clients[c].Waiting? ==> !clients[c].asleep)
    ensures c !in ClientsAsleep(clients)
  {
  }

  lemma NotifyKeepsOnlyPuts<T>(s: State<T>, n: Notify, pick: Option<Id>)
    requires OnlyPutsWait(s) && PickOk(ClientsAsleep(s.clients), n, pick)
    ensures OnlyPutsWait(s.(clients := NotifyClients(s.clients, n, pick)))
  {
    NotifyClientsCounts(s.clients, n, pick);
  }

  lemma TakeNotifies<T>(f: Fields<T>, r: WorkerSection<T>)
    requires f.low >= 1
    requires r == TakeEntry(f) || exists timedOut :: r == TakeResume(f, timedOut)
    ensures r.fields.high == f.high && (r.exit.Got? && f.clientsWaiting > 0 ==> r.ccond == One)
    ensures !r.exit.Got? ==> r.ccond != One
  {
  }

  lemma WorkerStepSignals<T>(s: State<T>, w: Id, timed: bool, r: WorkerSection<T>, pick: Option<Id>)
    requires Counted(s) && AllSignalled(s) && OnlyPutsWait(s) && w in s.workers
    requires PickOk(ClientsAsleep(s.clients), r.ccond, pick)
    requires r == TakeEntry(s.f) || exists timedOut :: r == TakeResume(s.f, timedOut)
    ensures var t := WorkerStep(s, w, timed, r, pick); AllSignalled(t) && OnlyPutsWait(t)
  {
    var t := WorkerStep(s, w, timed, r, pick);
    TakeSectionFields(s.f, r);
    TakeNotifies(s.f, r);
    NotifyKeepsOnlyPuts(s, r.ccond, pick);
    NotifyClientsAsleep(s.clients, r.ccond, pick);
    if r.exit.Got? && ClientsAsleep(s.clients) != {} {
      assert s.f.clientsWaiting > 0 by {
        CounterIsRightIff(s);
        SubsetSize(ClientsAsleep(s.clients), ClientsInWait(s.clients));
      }
      NotifyOneClient(s.clients, pick);
    }
    hide ClientsAsleep, ClientsInWait, ClientsWoken, TakeEntry, TakeResume, WorkerPcAfter, PickOk;
    assert OnlyPutsWait(t);
    assert AllSignalled(t);
  }

  lemma SignalsStep<T>(s: State<T>, e: Event<T>)
    requires Counted(s) && AllReleased(s) && AllSignalled(s) && OnlyPutsWait(s) && Enabled(s, e)
    requires Allowed(Harmless(s.f.high), e)
    ensures AllSignalled(Next(s, e)) && OnlyPutsWait(Next(s, e))
  {
    match e
    case StartWorkers(ids) => StartSignals(s, ids);
    case PutCall(c, task, flush, pick) => PutStepSignals(s, c, task, flush, false, pick);
    case ClientResume(c, pick) =>
      assert c in ClientsInWait(s.clients);
      PutStepSignals(s, c, s.clients[c].op.task, s.clients[c].op.flush, true, pick);
    case ClientWakes(c) =>
      MoveClientWoken(s.clients, c, WakeClient(s.clients[c]));
      MoveClientAsleep(s.clients, c, WakeClient(s.clients[c]));
    case TakeCall(w, timed, pick) => WorkerStepSignals(s, w, timed, TakeEntry(s.f), pick);
    case TakeResumes(w, timedOut, pick) =>
      WorkerStepSignals(s, w, s.workers[w].timed, TakeResume(s.f, timedOut), pick);
    case ExitCall(w) => NotifyClientsCounts(s.clients, All, None);
    case _ =>
  }

  /** Starting workers does not make ok() true while a client sleeps, as a client only sleeps
      in put when there are workers. */
  lemma StartSignals<T>(s: State<T>, ids: set<Id>)
    requires AllSignalled(s) && OnlyPutsWait(s) && s.f.low >= 1 && Enabled(s, StartWorkers(ids))
    requires s.f.threads == 0 ==> ClientsAsleep(s.clients) == {}
    ensures AllSignalled(Next(s, StartWorkers(ids))) && OnlyPutsWait(Next(s, StartWorkers(ids)))
  {
  }

  /** Over every run of such puts: a client that sleeps in put is not alone with free places
      nobody was told about. */
  lemma {:induction false} HarmlessRun<T>(s: State<T>, events: seq<Event<T>>, t: State<T>)
    requires Safe(s) && Live(s) && AllSignalled(s) && OnlyPutsWait(s)
    requires Run(s, events, t) && AllAllowed(Harmless(s.f.high), events)
    ensures AllSignalled(t) && OnlyPutsWait(t)
    decreases |events|
  {
    if events != [] {
      CountedStep(s, events[0]);
      InOrderStep(s, events[0]);
      CustodyStep(s, events[0]);
      LiveStep(s, events[0]);
      SignalsStep(s, events[0]);
      HarmlessRun(Next(s, events[0]), events[1..], t);
    }
  }

  lemma OnlyPutsSignalled<T>(s: State<T>)
    requires AllSignalled(s) && OnlyPutsWait(s)
    ensures RoomIsSignalled(s)
  {
    assert PutsWoken(s.clients) == ClientsWoken(s.clients);
  }

  lemma HarmlessSignals<T(!new)>(high: nat, low: nat, calls: Calls)
    requires low >= 1 && !calls.idle && !calls.terminate && (calls.flush ==> high == 1)
    ensures SignalsRoom<T>(high, low, calls)
  {
    forall s: State<T> | ReachableWith(high, low, calls, s)
      ensures RoomIsSignalled(s)
    {
      var clients: set<Id>, events: seq<Event<T>> :|
        |clients| < UINT_RANGE && AllAllowed(calls, events) && Run(Init(high, low, clients), events, s);
      InitSafe<T>(high, low, clients);
      assert Live(Init<T>(high, low, clients));
      HarmlessRun(Init(high, low, clients), events, s);
      OnlyPutsSignalled(s);
    }
  }

  // ---------------------------------------------------------------- a low mark above the high one

  /** Workers never take anything, so a queue on which a client sleeps stays full. */
  ghost predicate StaysFull<T>(s: State<T>) {
    PutsAsleep(s.clients) != {} ==> |s.f.queue| >= s.f.high
  }

  lemma ClientStepStaysFull<T>(s: State<T>, c: Id, op: ClientOp<T>, resuming: bool, pick: Option<Id>)
    requires StaysFull(s) && s.f.high > 0 && c in s.clients
    requires PickOk(WorkersAsleep(s.workers), ClientSectionOf(s.f, op, resuming).wcond, pick)
    ensures StaysFull(ClientStep(s, c, op, ClientSectionOf(s.f, op, resuming), pick))
  {
    var r := ClientSectionOf(s.f, op, resuming);
    var t := ClientStep(s, c, op, r, pick);
    assert PutsAsleep(t.clients) <= PutsAsleep(s.clients) + {c};
    if c in PutsAsleep(t.clients) {
      ClientSectionSleeps(s.f, op, resuming);
      assert r.fields.queue == s.f.queue;
    }
  }

  lemma TakesNothing<T>(f: Fields<T>, r: WorkerSection<T>)
    requires f.low > f.high >= |f.queue|
    requires r == TakeEntry(f) || exists timedOut :: r == TakeResume(f, timedOut)
    ensures r.fields.queue == f.queue && r.fields.high == f.high
  {
  }

  lemma OtherStepStaysFull<T>(s: State<T>, e: Event<T>)
    requires StaysFull(s) && InOrder(s) && s.f.low > s.f.high > 0 && Enabled(s, e)
    requires !e.PutCall? && !e.IdleCall? && !e.TerminateCall? && !e.ClientResume?
    ensures StaysFull(Next(s, e))
  {
    match e
    case TakeCall(w, timed, pick) =>
      TakesNothing(s.f, TakeEntry(s.f));
      NotifyClientsAsleep(s.clients, TakeEntry(s.f).ccond, pick);
    case TakeResumes(w, timedOut, pick) =>
      TakesNothing(s.f, TakeResume(s.f, timedOut));
      NotifyClientsAsleep(s.clients, TakeResume(s.f, timedOut).ccond, pick);
    case ExitCall(w) => NotifyClientsAsleep(s.clients, All, None);
    case _ =>
  }

  lemma StepStaysFull<T>(s: State<T>, e: Event<T>)
    requires StaysFull(s) && InOrder(s) && s.f.low > s.f.high > 0 && Enabled(s, e)
    ensures StaysFull(Next(s, e))
  {
    hide StaysFull;
    match e
    case PutCall(c, task, flush, pick) => ClientStepStaysFull(s, c, Put(task, flush), false, pick);
    case IdleCall(c) => ClientStepStaysFull(s, c, Idle, false, None);
    case TerminateCall(c) => ClientStepStaysFull(s, c, Terminate, false, None);
    case ClientResume(c, pick) => ClientStepStaysFull(s, c, s.clients[c].op, true, pick);
    case _ => OtherStepStaysFull(s, e);
  }

  lemma {:induction false} RunStaysFull<T>(s: State<T>, events: seq<Event<T>>, t: State<T>)
    requires StaysFull(s) && InOrder(s) && s.f.low > s.f.high > 0 && Run(s, events, t)
    ensures StaysFull(t) && t.f.high == s.f.high
    decreases |events|
  {
    hide StaysFull, InOrder;
    if events != [] {
      StepStaysFull(s, events[0]);
      InOrderStep(s, events[0]);
      RunStaysFull(Next(s, events[0]), events[1..], t);
    }
  }

  /** Without a high mark, or with one below the low mark, any calls do. */
  lemma NeverRoom<T(!new)>(high: nat, low: nat, calls: Calls)
    requires low >= 1 && (high == 0 || low > high)
    ensures SignalsRoom<T>(high, low, calls)
  {
    forall s: State<T> | ReachableWith(high, low, calls, s)
      ensures RoomIsSignalled(s)
    {
      var clients: set<Id>, events: seq<Event<T>> :|
        |clients| < UINT_RANGE && AllAllowed(calls, events) && Run(Init(high, low, clients), events, s);
      RunConfig(Init(high, low, clients), events, s);
      if high > 0 {
        InitSafe<T>(high, low, clients);
        RunStaysFull(Init(high, low, clients), events, s);
      }
    }
  }

  // ---------------------------------------------------------------- the calls that do harm

  /** The queue is full, client 1 sleeps in put and client 2 in a call of its own. */
  lemma TwoAsleep<T(!new)>(high: nat, low: nat, calls: Calls, task: T, second: ClientOp<T>) returns (s: State<T>)
    requires 1 <= low <= high && (second == Idle || (second.Put? && second.flush))
    requires if second.Idle? then calls.idle else calls.flush
    ensures ReachableWith(high, low, calls, s) && |s.f.queue| == high
    ensures s.f == Fields(high, low, s.f.queue, true, true, 1, 0, 2, 0) && s.workers == map[0 := Ready]
    ensures s.clients == map[1 := Waiting(Put(task, false), true), 2 := Waiting(second, true), 3 := Out]
  {
    hide Next, Enabled, Run;
    s := Filled(high, low, calls, task, high);
    PutSleeps(s, 1, task, false);
    Step(high, low, calls, s, PutCall(1, task, false, None));
    s := Next(s, PutCall(1, task, false, None));
    if second == Idle {
      IdleSleeps(s, 2);
      Step(high, low, calls, s, IdleCall(2));
      s := Next(s, IdleCall(2));
    } else {
      PutSleeps(s, 2, second.task, true);
      Step(high, low, calls, s, PutCall(2, second.task, true, None));
      s := Next(s, PutCall(2, second.task, true, None));
    }
  }

  /** The take wakes client 2: a waitIdle caller goes back to sleep, and a flushing put frees more places
      than its own. */
  lemma SecondIsWoken<T(!new)>(high: nat, low: nat, calls: Calls, task: T, second: ClientOp<T>) returns (s: State<T>)
    requires 1 <= low <= high && (second == Idle || (second.Put? && second.flush))
    requires if second.Idle? then calls.idle else calls.flush && high >= 2
    ensures ReachableWith(high, low, calls, s) && !RoomIsSignalled(s)
  {
    hide Next, Enabled, Run;
    s := TwoAsleep(high, low, calls, task, second);
    Takes(s, 0, Some(2));
    Step(high, low, calls, s, TakeCall(0, false, Some(2)));
    s := Next(s, TakeCall(0, false, Some(2)));
    Resumes(s, 2);
    Step(high, low, calls, s, ClientResume(2, None));
    s := Next(s, ClientResume(2, None));
    assert 1 in PutsAsleep(s.clients) && PutsWoken(s.clients) == {};
  }

  /** A shutdown ends while client 2 is on its way out of put, and the queue is started again: client 1
      and client 2 then sleep in put with a counter of one. */
  lemma ShortCounter<T(!new)>(high: nat, low: nat, calls: Calls, task: T) returns (s: State<T>)
    requires 1 <= low <= high && calls.terminate
    ensures ReachableWith(high, low, calls, s) && |s.f.queue| == high
    ensures s.f == Fields(high, low, s.f.queue, true, true, 1, 0, 1, 0) && s.workers == map[4 := Ready]
    ensures s.clients == map[1 := Waiting(Put(task, false), true), 2 := Waiting(Put(task, false), true), 3 := Out]
  {
    hide Next, Enabled, Run;
    s := ShutdownOverPut(high, low, calls, task);
    Starts(s, 4);
    Step(high, low, calls, s, StartWorkers({4}));
    s := Next(s, StartWorkers({4}));
    PutSleeps(s, 1, task, false);
    Step(high, low, calls, s, PutCall(1, task, false, None));
    s := Next(s, PutCall(1, task, false, None));
    Resumes(s, 2);
    Step(high, low, calls, s, ClientResume(2, None));
    s := Next(s, ClientResume(2, None));
  }

  lemma ShutdownOverPut<T(!new)>(high: nat, low: nat, calls: Calls, task: T) returns (s: State<T>)
    requires 1 <= low <= high && calls.terminate
    ensures ReachableWith(high, low, calls, s) && |s.f.queue| == high
    ensures s.f == Fields(high, low, s.f.queue, true, true, 0, 0, 0, 0) && s.workers == map[]
    ensures s.clients == map[1 := Out, 2 := Waiting(Put(task, false), false), 3 := Out]
  {
    hide Next, Enabled, Run;
    s := Filled(high, low, calls, task, high);
    PutSleeps(s, 2, task, false);
    Step(high, low, calls, s, PutCall(2, task, false, None));
    s := Next(s, PutCall(2, task, false, None));
    Terminates(s, 3, 0);
    Step(high, low, calls, s, TerminateCall(3));
    s := Next(s, TerminateCall(3));
    s := WorkerLeaves(high, low, calls, s);
    Resumes(s, 3);
    Step(high, low, calls, s, ClientResume(3, None));
    s := Next(s, ClientResume(3, None));
  }

  /** One client is woken and comes in, and the next take tells nobody. */
  lemma AfterShortCounter<T(!new)>(high: nat, low: nat, calls: Calls, task: T) returns (s: State<T>)
    requires 1 <= low <= high && calls.terminate
    ensures ReachableWith(high, low, calls, s) && !RoomIsSignalled(s)
  {
    hide Next, Enabled, Run;
    s := ShortCounter(high, low, calls, task);
    Takes(s, 4, Some(1));
    Step(high, low, calls, s, TakeCall(4, false, Some(1)));
    s := Next(s, TakeCall(4, false, Some(1)));
    Resumes(s, 1);
    Step(high, low, calls, s, ClientResume(1, None));
    s := Next(s, ClientResume(1, None));
    Finishes(s, 4);
    Step(high, low, calls, s, TaskDone(4));
    s := Next(s, TaskDone(4));
    Takes(s, 4, None);
    Step(high, low, calls, s, TakeCall(4, false, None));
    s := Next(s, TakeCall(4, false, None));
    assert 2 in PutsAsleep(s.clients) && PutsWoken(s.clients) == {};
  }

  /** The free places are always spoken for if and only if there never are any, or no call but put is
      made, with a flush only when the high mark is 1. */
  lemma SignalsRoomIff<T(!new)>(high: nat, low: nat, calls: Calls, task: T)
    requires low >= 1
    ensures SignalsRoom<T>(high, low, calls) <==>
            high == 0 || low > high || (!calls.idle && !calls.terminate && (calls.flush ==> high == 1))
  {
    if high == 0 || low > high {
      NeverRoom<T>(high, low, calls);
    } else if calls.idle {
      var s := SecondIsWoken(high, low, calls, task, Idle);
    } else if calls.terminate {
      var s := AfterShortCounter(high, low, calls, task);
    } else if calls.flush && high != 1 {
      var s := SecondIsWoken(high, low, calls, task, Put(task, true));
    } else {
      HarmlessSignals<T>(high, low, calls);
    }
  }
}
