/** No lost wakeups and no stuck queue. */
module WorkQueueLiveness {
  import opened Options
  import opened WorkQueueMonitor
  import opened WorkQueueSystem
  import opened WorkQueueSafety
  import opened WorkQueueRuns

  function Min(a: int, b: int): int {
    if a <= b then a else b
  }

  function Max(a: int, b: int): int {
    if a <= b then b else a
  }

  /** While ok() holds, enough workers are awake for the tasks above the low mark. */
  ghost predicate NoLostWakeup<T>(s: State<T>) {
    s.f.Ok() ==>
      |s.workers| - |WorkersAsleep(s.workers)| >= Min(|s.workers|, Max(0, |s.f.queue| - s.f.low + 1))
  }

  /** No client sleeps, in any call. */
  ghost predicate NoClientStuck<T>(s: State<T>) {
    ClientsAsleep(s.clients) == {}
  }

  ghost predicate EveryWorkerAsleep<T>(s: State<T>) {
    |WorkersAsleep(s.workers)| == |s.workers|
  }

  /** With a low mark of 1: all workers asleep means that no client waits for them. */
  ghost predicate NobodyStuck<T>(s: State<T>) {
    s.f.low == 1 && s.f.Ok() && EveryWorkerAsleep(s) ==> NoClientStuck(s)
  }

  /** Once every worker has exited no client is left asleep, in any call. */
  ghost predicate AllReleased<T>(s: State<T>) {
    s.f.exited == s.f.threads ==> ClientsAsleep(s.clients) == {}
  }

  /** From the start of setTerminateAndWait to its reset, no worker sleeps. */
  ghost predicate ShuttingDown<T>(s: State<T>) {
    s.terminating ==> !s.f.okFlag && WorkersAsleep(s.workers) == {}
  }

  ghost predicate Live<T>(s: State<T>) {
    NoLostWakeup(s) && NobodyStuck(s) && AllReleased(s) && ShuttingDown(s)
  }

  // ---------------------------------------------------------------- who is asleep

  lemma MoveWorkerAsleep(workers: map<Id, WorkerPc>, w: Id, pc: WorkerPc)
    requires w in workers
    ensures var m := workers[w := pc];
            && |m| == |workers|
            && |WorkersAsleep(m)| == |WorkersAsleep(workers)| + Bit(pc.Asleep?) - Bit(workers[w].Asleep?)
            && (WorkersAsleep(workers) == {} && !pc.Asleep? ==> WorkersAsleep(m) == {})
  {
    var m := workers[w := pc];
    assert m.Keys == workers.Keys;
    assert |m| == |m.Keys| == |workers.Keys|;
    SizeAfterMove(WorkersAsleep(workers), WorkersAsleep(m), w);
  }

  lemma NotifyWorkersAsleep(workers: map<Id, WorkerPc>, n: Notify, pick: Option<Id>)
    requires PickOk(WorkersAsleep(workers), n, pick)
    ensures var m := NotifyWorkers(workers, n, pick);
            && |m| == |workers|
            && (n == All ==> WorkersAsleep(m) == {})
            && |WorkersAsleep(m)| <= |WorkersAsleep(workers)|
            && (n == One ==> |WorkersAsleep(m)| == Max(0, |WorkersAsleep(workers)| - 1))
            && (n == Nobody ==> m == workers)
            && (WorkersAsleep(workers) == {} ==> WorkersAsleep(m) == {})
  {
    var m := NotifyWorkers(workers, n, pick);
    assert m.Keys == workers.Keys;
    assert |m| == |m.Keys| == |workers.Keys|;
    if pick.Some? {
      SizeAfterMove(WorkersAsleep(workers), WorkersAsleep(m), pick.value);
    }
  }

  lemma NotifyClientsAsleep<T>(clients: map<Id, ClientPc<T>>, n: Notify, pick: Option<Id>)
    requires PickOk(ClientsAsleep(clients), n, pick)
    ensures var m := NotifyClients(clients, n, pick);
            && ClientsAsleep(m) <= ClientsAsleep(clients)
            && (n == All ==> ClientsAsleep(m) == {})
            && (forall c | c in ClientsAsleep(m) :: m[c] == clients[c])
  {
  }

  lemma MoveClientAsleep<T>(clients: map<Id, ClientPc<T>>, c: Id, pc: ClientPc<T>)
    requires c in clients
    ensures ClientsAsleep(clients[c := pc]) ==
            if pc.Waiting? && pc.asleep then ClientsAsleep(clients) + {c} else ClientsAsleep(clients) - {c}
  {
  }

  /** The waiter counter is zero only when nobody sleeps, and it is the number of workers
      when all of them do. */
  lemma AsleepAndCounter<T>(s: State<T>)
    requires Counted(s)
    ensures |WorkersAsleep(s.workers)| <= s.f.workersWaiting <= s.f.threads
  {
    SubsetSize(WorkersAsleep(s.workers), WorkersInWait(s.workers));
    PopulationBounds(s);
  }

  // ---------------------------------------------------------------- client sections

  /** A client section that sleeps found the queue full, busy or not terminated. */
  lemma ClientSectionSleeps<T>(f: Fields<T>, op: ClientOp<T>, resuming: bool)
    ensures var r := ClientSectionOf(f, op, resuming);
            && (r.exit.Sleeps? ==>
                  match op
                  case Put(_, _) => f.Ok() && f.Full()
                  case Idle => f.Busy()
                  case Terminate => f.exited < f.threads && r.wcond == All)
            && (!op.Terminate? ==> r.fields.okFlag == f.okFlag)
            && (r.wcond == All ==> op.Terminate?)
  {
  }

  /** What a client section does to the queue, and that it notifies a worker when it adds. */
  lemma ClientSectionQueue<T>(f: Fields<T>, op: ClientOp<T>, resuming: bool)
    ensures var r := ClientSectionOf(f, op, resuming);
            r.fields.queue == f.queue ||
            (op.Put? && r.exit == Returns(true) && f.Ok() && |r.fields.queue| <= |f.queue| + 1 &&
             r.wcond == if f.workersWaiting > 0 then One else Nobody)
  {
  }

  lemma ClientStepNoLostWakeup<T>(s: State<T>, c: Id, op: ClientOp<T>, resuming: bool, pick: Option<Id>)
    requires Counted(s) && NoLostWakeup(s)
    requires PickOk(WorkersAsleep(s.workers), ClientSectionOf(s.f, op, resuming).wcond, pick)
    ensures NoLostWakeup(ClientStep(s, c, op, ClientSectionOf(s.f, op, resuming), pick))
  {
    var r := ClientSectionOf(s.f, op, resuming);
    ClientSectionFields(s.f, op, resuming);
    ClientSectionQueue(s.f, op, resuming);
    if !Resets(op, r) {
      NotifyWorkersAsleep(s.workers, r.wcond, pick);
      AsleepAndCounter(s);
    }
  }

  lemma ClientStepNobodyStuck<T>(s: State<T>, c: Id, op: ClientOp<T>, resuming: bool, pick: Option<Id>)
    requires Counted(s) && NoLostWakeup(s) && NobodyStuck(s) && c in s.clients
    requires PickOk(WorkersAsleep(s.workers), ClientSectionOf(s.f, op, resuming).wcond, pick)
    ensures NobodyStuck(ClientStep(s, c, op, ClientSectionOf(s.f, op, resuming), pick))
  {
    var r := ClientSectionOf(s.f, op, resuming);
    var t := ClientStep(s, c, op, r, pick);
    ClientSectionFields(s.f, op, resuming);
    ClientSectionSleeps(s.f, op, resuming);
    if !Resets(op, r) {
      NotifyWorkersAsleep(s.workers, r.wcond, pick);
      AsleepAndCounter(s);
      MoveClientAsleep(s.clients, c, if r.exit.Sleeps? then Waiting(op, true) else Out);
    }
  }

  lemma ClientStepReleased<T>(s: State<T>, c: Id, op: ClientOp<T>, resuming: bool, pick: Option<Id>)
    requires Counted(s) && AllReleased(s) && ShuttingDown(s) && c in s.clients
    requires PickOk(WorkersAsleep(s.workers), ClientSectionOf(s.f, op, resuming).wcond, pick)
    ensures AllReleased(ClientStep(s, c, op, ClientSectionOf(s.f, op, resuming), pick))
    ensures ShuttingDown(ClientStep(s, c, op, ClientSectionOf(s.f, op, resuming), pick))
  {
    var r := ClientSectionOf(s.f, op, resuming);
    var t := ClientStep(s, c, op, r, pick);
    ClientSectionFields(s.f, op, resuming);
    ClientSectionSleeps(s.f, op, resuming);
    MoveClientAsleep(s.clients, c, if r.exit.Sleeps? then Waiting(op, true) else Out);
    PopulationBounds(s);
    if !Resets(op, r) {
      NotifyWorkersAsleep(s.workers, r.wcond, pick);
    }
  }

  lemma ClientStepLive<T>(s: State<T>, c: Id, op: ClientOp<T>, resuming: bool, pick: Option<Id>)
    requires Counted(s) && Live(s) && c in s.clients
    requires PickOk(WorkersAsleep(s.workers), ClientSectionOf(s.f, op, resuming).wcond, pick)
    ensures Live(ClientStep(s, c, op, ClientSectionOf(s.f, op, resuming), pick))
  {
    ClientStepNoLostWakeup(s, c, op, resuming, pick);
    ClientStepNobodyStuck(s, c, op, resuming, pick);
    ClientStepReleased(s, c, op, resuming, pick);
  }

  // ---------------------------------------------------------------- worker sections

  /** What a take section can do to the fields the invariants speak of. */
  lemma TakeSectionFields<T>(f: Fields<T>, r: WorkerSection<T>)
    requires f.low >= 1
    requires r == TakeEntry(f) || exists timedOut :: r == TakeResume(f, timedOut)
    ensures r.fields.Ok() == f.Ok() && r.fields.okFlag == f.okFlag
    ensures r.fields.low == f.low && r.fields.threads == f.threads && r.fields.exited == f.exited
    ensures r.fields.queue == f.queue || (r.exit.Got? && |r.fields.queue| == |f.queue| - 1)
    ensures r.exit.TakeSleeps? ==>
              f.Ok() && |f.queue| < f.low && r.fields.queue == f.queue && (f.queue == [] ==> r.ccond == All)
  {
  }

  lemma WorkerStepLive<T>(s: State<T>, w: Id, timed: bool, r: WorkerSection<T>, pick: Option<Id>)
    requires Counted(s) && Live(s) && w in s.workers
    requires PickOk(ClientsAsleep(s.clients), r.ccond, pick)
    requires (s.workers[w].Ready? && r == TakeEntry(s.f)) ||
             (s.workers[w].Woken? && exists timedOut :: r == TakeResume(s.f, timedOut))
    ensures Live(WorkerStep(s, w, timed, r, pick))
  {
    assert |WorkersAsleep(s.workers)| < |s.workers| by {
      SubsetSize(WorkersAsleep(s.workers) + {w}, s.workers.Keys);
    }
    TakeSectionFields(s.f, r);
    MoveWorkerAsleep(s.workers, w, WorkerPcAfter(r.exit, timed, |s.removed|));
    NotifyClientsAsleep(s.clients, r.ccond, pick);
    hide TakeEntry, TakeResume, WorkersAsleep, ClientsAsleep, PickOk, NotifyClients;
    var t := WorkerStep(s, w, timed, r, pick);
    assert NoLostWakeup(t) && ShuttingDown(t) && AllReleased(t);
    assert NobodyStuck(t);
  }

  lemma OtherLive<T>(s: State<T>, e: Event<T>)
    requires Counted(s) && Live(s) && Enabled(s, e)
    requires e.CloseShop? || e.ClientWakes? || e.WorkerWakes? || e.TaskDone?
    ensures Live(Next(s, e))
  {
    match e
    case ClientWakes(c) => MoveClientAsleep(s.clients, c, WakeClient(s.clients[c]));
    case WorkerWakes(w) =>
      MoveWorkerAsleep(s.workers, w, WakeWorker(s.workers[w]));
      SubsetSize(WorkersAsleep(s.workers), s.workers.Keys);
    case TaskDone(w) =>
      MoveWorkerAsleep(s.workers, w, Ready);
    case _ =>
  }

  lemma ExitLive<T>(s: State<T>, w: Id)
    requires Counted(s) && Live(s) && w in s.workers && (s.workers[w].Failed? || s.workers[w].Working?)
    ensures Live(ExitStep(s, w))
  {
    MoveWorkerAsleep(s.workers, w, Exited);
    NotifyClientsAsleep(s.clients, All, None);
  }

  lemma StartLive<T>(s: State<T>, ids: set<Id>)
    requires Counted(s) && Live(s) && Enabled(s, StartWorkers(ids))
    ensures Live(Next(s, StartWorkers(ids)))
  {
    StartPopulation(s.workers, ids);
    AsleepAndCounter(s);
    PopulationBounds(s);
    hide WorkersInWait, WorkersExited, WorkersAsleep, ClientsAsleep;
  }

  lemma LiveStep<T>(s: State<T>, e: Event<T>)
    requires Counted(s) && Live(s) && Enabled(s, e)
    ensures Live(Next(s, e))
  {
    match e
    case StartWorkers(ids) => StartLive(s, ids);
    case PutCall(c, task, flush, pick) => ClientStepLive(s, c, Put(task, flush), false, pick);
    case IdleCall(c) => ClientStepLive(s, c, Idle, false, None);
    case TerminateCall(c) => ClientStepLive(s, c, Terminate, false, None);
    case ClientResume(c, pick) => ClientStepLive(s, c, s.clients[c].op, true, pick);
    case TakeCall(w, timed, pick) => WorkerStepLive(s, w, timed, TakeEntry(s.f), pick);
    case TakeResumes(w, timedOut, pick) =>
      WorkerStepLive(s, w, s.workers[w].timed, TakeResume(s.f, timedOut), pick);
    case ExitCall(w) => ExitLive(s, w);
    case _ => OtherLive(s, e);
  }

  // ---------------------------------------------------------------- over every run

  lemma {:induction false} RunLive<T>(s: State<T>, events: seq<Event<T>>, t: State<T>)
    requires Safe(s) && Live(s) && Run(s, events, t)
    ensures Live(t)
    decreases |events|
  {
    if events != [] {
      CountedStep(s, events[0]);
      InOrderStep(s, events[0]);
      CustodyStep(s, events[0]);
      LiveStep(s, events[0]);
      RunLive(Next(s, events[0]), events[1..], t);
    }
  }

  lemma ReachableLive<T(!new)>(high: nat, low: nat, s: State<T>)
    requires low >= 1 && Reachable(high, low, s)
    ensures Safe(s) && Live(s) && s.f.low == low && s.f.high == high
  {
    var clients: set<Id>, events: seq<Event<T>> :|
      |clients| < UINT_RANGE && Run(Init(high, low, clients), events, s);
    InitSafe<T>(high, low, clients);
    RunSafe(Init(high, low, clients), events, s);
    RunLive(Init(high, low, clients), events, s);
    RunConfig(Init(high, low, clients), events, s);
  }

  lemma {:induction false} RunConfig<T>(s: State<T>, events: seq<Event<T>>, t: State<T>)
    requires s.f.low >= 1 && Run(s, events, t)
    ensures t.f.low == s.f.low && t.f.high == s.f.high
    decreases |events|
  {
    if events != [] {
      RunConfig(Next(s, events[0]), events[1..], t);
    }
  }

  /** Put notifies only when the counter of waiting workers is positive, and that counter
      includes workers already notified. Still no wakeup is lost: in every reachable state
      with ok(), the workers that are not asleep number at least the tasks above the low
      mark, or all of them are awake. */
  lemma WakeupsAreNotLost<T(!new)>(high: nat, low: nat, s: State<T>)
    requires low >= 1 && Reachable(high, low, s) && s.f.Ok()
    ensures |s.workers| - |WorkersAsleep(s.workers)| >= Min(|s.workers|, Max(0, |s.f.queue| - low + 1))
  {
    ReachableLive(high, low, s);
  }

  /** While ok() holds, all workers asleep means an empty queue and no client asleep. */
  ghost predicate StuckFree<T(!new)>(high: nat, low: nat)
    requires low >= 1
  {
    forall s: State<T> | Reachable(high, low, s) && s.f.Ok() && EveryWorkerAsleep(s) ::
      s.f.queue == [] && NoClientStuck(s)
  }

  lemma StuckFreeAtOne<T(!new)>(high: nat)
    ensures StuckFree<T>(high, 1)
  {
    forall s: State<T> | Reachable(high, 1, s) && s.f.Ok() && EveryWorkerAsleep(s)
      ensures s.f.queue == [] && NoClientStuck(s)
    {
      ReachableLive(high, 1, s);
    }
  }

  /** With a low mark above 1: a worker that goes back to sleep on a queue below the mark
      but not empty tells no client, so waitIdle sleeps for good. */
  lemma StuckAboveOne<T(!new)>(high: nat, low: nat, task: T)
    requires low >= 2
    ensures !StuckFree<T>(high, low)
  {
    hide Next, Enabled, Run;
    var s := Started(high, low, ALL_CALLS);
    SleepsOnEmpty(s, 0);
    Step(high, low, ALL_CALLS, s, TakeCall(0, false, None));
    s := Next(s, TakeCall(0, false, None));
    PutWakes(s, 1, task, 0);
    Step(high, low, ALL_CALLS, s, PutCall(1, task, false, Some(0)));
    s := Next(s, PutCall(1, task, false, Some(0)));
    SleepsBelowLow(s, 0);
    Step(high, low, ALL_CALLS, s, TakeResumes(0, false, None));
    s := Next(s, TakeResumes(0, false, None));
    IdleSleeps(s, 2);
    Step(high, low, ALL_CALLS, s, IdleCall(2));
    s := Next(s, IdleCall(2));
    ReachableWithIsReachable(high, low, ALL_CALLS, s);
    assert WorkersAsleep(s.workers) == {0};
    assert EveryWorkerAsleep(s) && s.f.queue != [];
  }

  /** The queue never gets stuck exactly when the low mark is 1, whatever the high mark. */
  lemma StuckFreeIffLowIsOne<T(!new)>(high: nat, low: nat, task: T)
    requires low >= 1
    ensures StuckFree<T>(high, low) <==> low == 1
  {
    if low == 1 {
      StuckFreeAtOne<T>(high);
    } else {
      StuckAboveOne(high, low, task);
    }
  }
}
