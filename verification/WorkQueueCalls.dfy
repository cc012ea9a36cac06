/** What each call of the queue does, told by the threads and the tasks of the protocol alone. */
module WorkQueueCalls {
  import opened Options
  import opened WorkQueueMonitor
  import opened WorkQueueSystem
  import opened WorkQueueSafety

  /** The flag is set, there are workers, and none has exited. */
  ghost predicate InService<T>(s: State<T>) {
    s.f.okFlag && s.workers != map[] && forall w | w in s.workers :: !s.workers[w].Exited?
  }

  lemma OkIsInService<T>(s: State<T>)
    requires Counted(s)
    ensures s.f.Ok() <==> InService(s)
  {
    assert |s.workers| == |s.workers.Keys|;
    if s.f.exited == 0 {
      forall w | w in s.workers ensures !s.workers[w].Exited? {
        assert w !in WorkersExited(s.workers);
      }
    } else {
      assert WorkersExited(s.workers) != {};
    }
  }

  // ---------------------------------------------------------------- take

  /** The states before and after differ in what this worker does, and in the waiter counters. */
  ghost predicate OnlyWorker<T>(s: State<T>, t: State<T>, w: Id, pc: WorkerPc) {
    && t.workers == s.workers[w := pc]
    && t.accepted == s.accepted && t.finished == s.finished && t.abandoned == s.abandoned
    && t.f.okFlag == s.f.okFlag && t.f.open == s.f.open && t.f.threads == s.f.threads && t.f.exited == s.f.exited
    && t.f.clientsWaiting == s.f.clientsWaiting && t.terminating == s.terminating && t.debt == s.debt
  }

  /** A take with a timeout always returns when its time is up, with no task, whatever the queue holds and
      whether the queue is still working: nothing but the worker and the count of waiting workers changes. */
  lemma TimedTakeReturns<T(!new)>(high: nat, low: nat, s: State<T>, w: Id)
    requires low >= 1 && s.f.low >= 1 && Reachable(high, low, s) && w in s.workers && s.workers[w] == Asleep(true)
    ensures Enabled(s, WorkerWakes(w))
    ensures var u, timeout := Next(s, WorkerWakes(w)), Event<T>.TakeResumes(w, true, None);
            && Enabled(u, timeout)
            && var t := Next(u, timeout);
               && OnlyWorker(s, t, w, Ready) && t.clients == s.clients && t.removed == s.removed
               && t.f.queue == s.f.queue && t.f.workersWaiting == s.f.workersWaiting - 1
  {
    ReachableSafe(high, low, s);
    WaiterCounted(s, w);
    WakesUp(s, w);
    TimesOut(Next(s, WorkerWakes(w)), w);
    hide Counted, Next, Enabled, WorkersInWait;
    assert s.workers[w := Woken(true)][w := Ready] == s.workers[w := Ready];
  }

  lemma WakesUp<T>(s: State<T>, w: Id)
    requires s.f.low >= 1 && w in s.workers && s.workers[w] == Asleep(true)
    ensures Enabled(s, WorkerWakes(w)) && Next(s, WorkerWakes(w)) == s.(workers := s.workers[w := Woken(true)])
  {
  }

  lemma TimesOut<T>(s: State<T>, w: Id)
    requires s.f.low >= 1 && w in s.workers && s.workers[w] == Woken(true) && 0 < s.f.workersWaiting < UINT_RANGE
    ensures Enabled(s, TakeResumes(w, true, None))
    ensures Next(s, TakeResumes(w, true, None)) ==
            s.(f := s.f.(workersWaiting := s.f.workersWaiting - 1), workers := s.workers[w := Ready])
  {
    hide ClientsAsleep;
  }

  lemma WaiterCounted<T>(s: State<T>, w: Id)
    requires Counted(s) && w in s.workers && InWait(s.workers[w])
    ensures 0 < s.f.workersWaiting < UINT_RANGE
  {
    assert w in WorkersInWait(s.workers);
    PopulationBounds(s);
  }

  /** A take, from its call or from the end of a wait that did not time out. */
  ghost predicate Takes<T>(s: State<T>, e: Event<T>) {
    s.f.low >= 1 && Enabled(s, e) && (e.TakeCall? || (e.TakeResumes? && !e.timedOut))
  }

  /** A take fails exactly when the queue is not working; it sleeps exactly below the low mark, and then tells
      all clients if the queue is empty. */
  lemma TakeFailsOrSleeps<T(!new)>(high: nat, low: nat, s: State<T>, e: Event<T>)
    requires low >= 1 && Reachable(high, low, s) && Takes(s, e)
    ensures var t := Next(s, e);
            && (t.workers[e.w].Failed? <==> !InService(s))
            && (t.workers[e.w].Asleep? <==> InService(s) && |s.f.queue| < s.f.low)
            && (t.workers[e.w].Failed? || t.workers[e.w].Asleep? ==>
                  OnlyWorker(s, t, e.w, t.workers[e.w]) && t.f.queue == s.f.queue && t.removed == s.removed)
            && (t.workers[e.w].Failed? ==> t.clients == s.clients)
            && (t.workers[e.w].Asleep? ==>
                  if s.f.queue == [] then ClientsAsleep(t.clients) == {} else t.clients == s.clients)
  {
    ReachableSafe(high, low, s);
    OkIsInService(s);
    TakeStep(s, e);
    IdleTakeSection(s, e);
    EveryoneTold(s.clients);
    hide InService, Counted, ClientsAsleep, NotifyClients, PickOk, TakeEntry, TakeResume, Next, Enabled;
  }

  /** The section of a take. */
  function SectionOf<T>(s: State<T>, e: Event<T>): WorkerSection<T>
    requires Takes(s, e)
  {
    if e.TakeCall? then TakeEntry(s.f) else TakeResume(s.f, false)
  }

  lemma TakeStep<T>(s: State<T>, e: Event<T>)
    requires Takes(s, e)
    ensures e.w in s.workers && PickOk(ClientsAsleep(s.clients), SectionOf(s, e).ccond, e.pick)
    ensures exists timed :: Next(s, e) == WorkerStep(s, e.w, timed, SectionOf(s, e), e.pick)
  {
    hide ClientsAsleep, TakeEntry, TakeResume, WorkerStep, PickOk;
    var timed := if e.TakeCall? then e.timed else s.workers[e.w].timed;
    assert Next(s, e) == WorkerStep(s, e.w, timed, SectionOf(s, e), e.pick);
  }

  lemma IdleTakeSection<T>(s: State<T>, e: Event<T>)
    requires Takes(s, e)
    ensures var r := SectionOf(s, e);
            && (r.exit.TakeFails? <==> !s.f.Ok())
            && (r.exit.TakeSleeps? <==> s.f.Ok() && |s.f.queue| < s.f.low)
            && !r.exit.NoTask?
            && (!r.exit.Got? ==> r.fields == s.f.(workersWaiting := r.fields.workersWaiting))
            && (r.exit.TakeFails? ==> r.ccond == Nobody)
            && (r.exit.TakeSleeps? ==> r.ccond == if s.f.queue == [] then All else Nobody)
  {
    hide ClientsAsleep, PickOk;
  }

  lemma EveryoneTold<T>(clients: map<Id, ClientPc<T>>)
    ensures ClientsAsleep(NotifyClients(clients, All, None)) == {}
  {
  }

  /** ... and otherwise it gets the oldest task, and wakes one client if the counter says that one waits. */
  lemma TakeGets<T(!new)>(high: nat, low: nat, s: State<T>, e: Event<T>)
    requires low >= 1 && Reachable(high, low, s) && Takes(s, e) && InService(s) && |s.f.queue| >= s.f.low
    ensures var t := Next(s, e);
            && OnlyWorker(s, t, e.w, Working(|s.removed|))
            && [s.f.queue[0]] + t.f.queue == s.f.queue && t.removed == s.removed + [Taken(s.f.queue[0], e.w)]
            && ClientsAsleep(t.clients) <= ClientsAsleep(s.clients)
            && |ClientsAsleep(t.clients)| ==
               |ClientsAsleep(s.clients)| - Bit(s.f.clientsWaiting > 0 && ClientsAsleep(s.clients) != {})
  {
    ReachableSafe(high, low, s);
    OkIsInService(s);
    TakeStep(s, e);
    TakeSection(s, e);
    WokenClient(s.clients, if s.f.clientsWaiting > 0 then One else Nobody, e.pick);
    hide InService, Counted, ClientsAsleep, NotifyClients, PickOk, TakeEntry, TakeResume, Next, Enabled;
    assert [s.f.queue[0]] + s.f.queue[1..] == s.f.queue;
  }

  lemma TakeSection<T>(s: State<T>, e: Event<T>)
    requires Takes(s, e) && s.f.Ok() && |s.f.queue| >= s.f.low
    ensures var r := SectionOf(s, e);
            && r.exit == Got(s.f.queue[0]) && r.ccond == (if s.f.clientsWaiting > 0 then One else Nobody)
            && r.fields == s.f.(queue := s.f.queue[1..], workersWaiting := r.fields.workersWaiting)
  {
    hide ClientsAsleep, PickOk;
  }

  lemma WokenClient<T>(clients: map<Id, ClientPc<T>>, n: Notify, pick: Option<Id>)
    requires n != All && PickOk(ClientsAsleep(clients), n, pick)
    ensures var before, after := ClientsAsleep(clients), ClientsAsleep(NotifyClients(clients, n, pick));
            after <= before && |after| == |before| - Bit(n == One && before != {})
  {
    var before, after := ClientsAsleep(clients), ClientsAsleep(NotifyClients(clients, n, pick));
    if n == One && before != {} {
      assert after == before - {pick.value};
    }
  }

  // ---------------------------------------------------------------- put

  /** A put, from its call or from the end of a wait. */
  ghost predicate Puts<T>(s: State<T>, e: Event<T>) {
    s.f.low >= 1 && Enabled(s, e) && (e.PutCall? || (e.ClientResume? && s.clients[e.c].op.Put?))
  }

  function PutOf<T>(s: State<T>, e: Event<T>): ClientOp<T>
    requires Puts(s, e)
  {
    if e.PutCall? then Put(e.task, e.flush) else s.clients[e.c].op
  }

  /** The states before and after differ in what this client does, and in the client counter. */
  ghost predicate OnlyClient<T>(s: State<T>, t: State<T>, c: Id, pc: ClientPc<T>) {
    && t.clients == s.clients[c := pc] && t.finished == s.finished && t.abandoned == s.abandoned
    && t.f.okFlag == s.f.okFlag && t.f.open == s.f.open && t.f.threads == s.f.threads && t.f.exited == s.f.exited
    && t.f.workersWaiting == s.f.workersWaiting && t.terminating == s.terminating && t.debt == s.debt
  }

  /** A put is refused exactly when the queue is not working, or closed at the call; it sleeps exactly on a full
      queue. Either way nothing happens to tasks and workers. */
  lemma PutRefusedOrSleeps<T(!new)>(high: nat, low: nat, s: State<T>, e: Event<T>)
    requires low >= 1 && Reachable(high, low, s) && Puts(s, e)
    ensures var t, refused := Next(s, e), !InService(s) || (e.PutCall? && !s.f.open);
            var full := s.f.high > 0 && |s.f.queue| == s.f.high;
            && (t.accepted == s.accepted <==> refused || full)
            && (t.clients[e.c] == Waiting(PutOf(s, e), true) <==> !refused && full)
            && (refused || full ==>
                  && OnlyClient(s, t, e.c, if refused then Out else Waiting(PutOf(s, e), true))
                  && t.f.queue == s.f.queue && t.removed == s.removed && t.workers == s.workers)
  {
    ReachableSafe(high, low, s);
    OkIsInService(s);
    PutStep(s, e);
    IdlePutSection(s, e);
    hide InService, Counted, WorkersAsleep, PickOk, ClientSectionOf, AllFlushed, Next, Enabled;
  }

  lemma PutStep<T>(s: State<T>, e: Event<T>)
    requires Puts(s, e)
    ensures PickOk(WorkersAsleep(s.workers), ClientSectionOf(s.f, PutOf(s, e), e.ClientResume?).wcond, e.pick)
    ensures Next(s, e) == ClientStep(s, e.c, PutOf(s, e), ClientSectionOf(s.f, PutOf(s, e), e.ClientResume?), e.pick)
  {
    hide WorkersAsleep, ClientStep, PickOk, AllFlushed;
  }

  lemma IdlePutSection<T>(s: State<T>, e: Event<T>)
    requires Puts(s, e)
    ensures var r := ClientSectionOf(s.f, PutOf(s, e), e.ClientResume?);
            var refused := !s.f.Ok() || (e.PutCall? && !s.f.open);
            && (r.exit == Returns(false) <==> refused) && (r.exit.Sleeps? <==> !refused && s.f.Full())
            && (refused || s.f.Full() ==> r.wcond == Nobody &&
                                          r.fields == s.f.(clientsWaiting := r.fields.clientsWaiting))
            && (r.exit == Returns(true) <==> !refused && !s.f.Full())
  {
    hide WorkersAsleep, PickOk;
  }

  /** ... and otherwise the task is queued last, after a flush if asked, and one sleeping worker is woken. */
  lemma PutQueues<T(!new)>(high: nat, low: nat, s: State<T>, e: Event<T>)
    requires low >= 1 && Reachable(high, low, s) && Puts(s, e) && InService(s) && (e.PutCall? ==> s.f.open)
    requires s.f.high > 0 ==> |s.f.queue| < s.f.high
    ensures var t, op := Next(s, e), PutOf(s, e);
            && OnlyClient(s, t, e.c, Out)
            && t.accepted == s.accepted + [op.task]
            && t.f.queue == (if op.flush then [] else s.f.queue) + [op.task]
            && WorkersAsleep(t.workers) <= WorkersAsleep(s.workers)
            && |WorkersAsleep(t.workers)| == |WorkersAsleep(s.workers)| - Bit(WorkersAsleep(s.workers) != {})
  {
    ReachableSafe(high, low, s);
    OkIsInService(s);
    SubsetSize(WorkersAsleep(s.workers), WorkersInWait(s.workers));
    PutStep(s, e);
    PutSection(s, e);
    WokenWorker(s.workers, if s.f.workersWaiting > 0 then One else Nobody, e.pick);
    hide InService, Counted, WorkersAsleep, WorkersInWait, NotifyWorkers, PickOk, ClientSectionOf, AllFlushed, Next,
      Enabled;
  }

  lemma PutSection<T>(s: State<T>, e: Event<T>)
    requires Puts(s, e) && s.f.Ok() && (e.PutCall? ==> s.f.open) && !s.f.Full()
    ensures var op := PutOf(s, e);
            var r := ClientSectionOf(s.f, op, e.ClientResume?);
            && r.exit == Returns(true) && r.wcond == (if s.f.workersWaiting > 0 then One else Nobody)
            && r.fields == s.f.(queue := (if op.flush then [] else s.f.queue) + [op.task],
                                clientsWaiting := r.fields.clientsWaiting)
  {
    hide WorkersAsleep, PickOk;
  }

  lemma WokenWorker(workers: map<Id, WorkerPc>, n: Notify, pick: Option<Id>)
    requires n != All && PickOk(WorkersAsleep(workers), n, pick)
    ensures var before, after := WorkersAsleep(workers), WorkersAsleep(NotifyWorkers(workers, n, pick));
            after <= before && |after| == |before| - Bit(n == One && before != {})
  {
    var before, after := WorkersAsleep(workers), WorkersAsleep(NotifyWorkers(workers, n, pick));
    if n == One && before != {} {
      assert after == before - {pick.value};
    }
  }

  // ---------------------------------------------------------------- waitIdle

  /** waitIdle sleeps exactly while a task is queued that some worker can still take, or a worker is neither
      inside its wait nor gone. It changes nothing else. */
  lemma IdleSleepsIff<T(!new)>(high: nat, low: nat, s: State<T>, e: Event<T>)
    requires low >= 1 && s.f.low >= 1 && Reachable(high, low, s) && Enabled(s, e)
    requires e.IdleCall? || (e.ClientResume? && s.clients[e.c].op.Idle?)
    ensures var t := Next(s, e);
            var busy := (s.f.queue != [] && exists w :: w in s.workers && !s.workers[w].Exited?) ||
                        exists w :: w in s.workers && !InWait(s.workers[w]) && !s.workers[w].Exited?;
            && OnlyClient(s, t, e.c, if busy then Waiting(Idle, true) else Out)
            && t.workers == s.workers && t.f.queue == s.f.queue
            && t.accepted == s.accepted && t.removed == s.removed
  {
    ReachableSafe(high, low, s);
    BusyMeans(s);
    hide Counted, WorkersAsleep, AllFlushed, WorkersInWait;
  }

  lemma BusyMeans<T>(s: State<T>)
    requires Counted(s)
    ensures s.f.Busy() <==>
            (s.f.queue != [] && exists w :: w in s.workers && !s.workers[w].Exited?) ||
            exists w :: w in s.workers && !InWait(s.workers[w]) && !s.workers[w].Exited?
  {
    PopulationBounds(s);
    var waiting, exited, all := WorkersInWait(s.workers), WorkersExited(s.workers), s.workers.Keys;
    assert |all| == |s.workers|;
    assert |waiting + exited| == |waiting| + |exited| by {
      assert waiting !! exited;
    }
    SubsetSize(exited, all);
    SubsetSize(waiting + exited, all);
    if |exited| < |all| {
      assert exited != all;
      var w :| w in all && w !in exited;
    }
    if |waiting + exited| < |all| {
      assert waiting + exited != all;
      var w :| w in all && w !in waiting + exited;
      assert !InWait(s.workers[w]);
    }
  }

  // ---------------------------------------------------------------- setTerminateAndWait

  /** setTerminateAndWait, from its call or from the end of a wait. */
  ghost predicate Terminates<T>(s: State<T>, e: Event<T>) {
    s.f.low >= 1 && Enabled(s, e) && (e.TerminateCall? || (e.ClientResume? && s.clients[e.c].op.Terminate?))
  }

  /** Without workers a call does nothing. Otherwise it clears the flag; while some worker has not exited it wakes
      all workers and sleeps, and when all have, there are no workers left and the queue is as it was at first,
      but for the tasks in it and for being closed. */
  lemma TerminateWaitsForAll<T(!new)>(high: nat, low: nat, s: State<T>, e: Event<T>)
    requires low >= 1 && Reachable(high, low, s) && Terminates(s, e)
    ensures var t := Next(s, e);
            && t.accepted == s.accepted && t.removed == s.removed && t.f.queue == s.f.queue && t.f.open == s.f.open
            && (e.TerminateCall? && s.workers == map[] ==> t == s)
            && ((exists w :: w in s.workers && !s.workers[w].Exited?) ==>
                  && t.clients == s.clients[e.c := Waiting(Terminate, true)]
                  && t.workers.Keys == s.workers.Keys && WorkersAsleep(t.workers) == {}
                  && t.f.threads == s.f.threads && t.f.exited == s.f.exited
                  && t.f.okFlag == (s.f.okFlag && !e.TerminateCall?))
            && ((e.ClientResume? || s.workers != map[]) && (forall w | w in s.workers :: s.workers[w].Exited?) ==>
                  && t.clients == s.clients[e.c := Out] && t.workers == map[]
                  && t.f == Fields(s.f.high, s.f.low, s.f.queue, true, s.f.open, 0, 0, 0, 0))
  {
    ReachableSafe(high, low, s);
    WhoIsLeft(s);
    TerminateStep(s, e);
    EveryWorkerTold(s.workers);
    if s.workers == map[] {
      assert |s.workers| == 0;
    }
    hide Counted, Next, Enabled, WorkersAsleep, NotifyWorkers, PickOk, AllFlushed, ClientsInWait;
  }

  lemma TerminateStep<T>(s: State<T>, e: Event<T>)
    requires Terminates(s, e)
    ensures var r := ClientSectionOf(s.f, Terminate, e.ClientResume?);
            && PickOk(WorkersAsleep(s.workers), r.wcond, None)
            && Next(s, e) == ClientStep(s, e.c, Terminate, r, None)
            && e.c in s.clients && (e.TerminateCall? ==> s.clients[e.c].Out?)
  {
    hide WorkersAsleep, ClientStep, AllFlushed;
  }

  lemma EveryWorkerTold(workers: map<Id, WorkerPc>)
    ensures PickOk(WorkersAsleep(workers), All, None)
    ensures WorkersAsleep(NotifyWorkers(workers, All, None)) == {}
    ensures NotifyWorkers(workers, All, None).Keys == workers.Keys
  {
  }

  lemma WhoIsLeft<T>(s: State<T>)
    requires Counted(s)
    ensures s.f.exited < s.f.threads <==> exists w :: w in s.workers && !s.workers[w].Exited?
    ensures s.f.threads == 0 <==> s.workers == map[]
  {
    PopulationBounds(s);
    var exited, all := WorkersExited(s.workers), s.workers.Keys;
    assert |all| == |s.workers|;
    SubsetSize(exited, all);
    if |exited| < |all| {
      assert exited != all;
      var w :| w in all && w !in exited;
    }
  }

  // ---------------------------------------------------------------- what can happen

  /** A client that is out can make any call, and one that is woken can go on. */
  lemma ClientCanStep<T>(s: State<T>, c: Id, task: T, flush: bool)
    requires s.f.low >= 1 && c in s.clients
    ensures s.clients[c].Out? ==>
              && Enabled(s, IdleCall(c)) && Enabled(s, TerminateCall(c))
              && exists pick :: Enabled(s, PutCall(c, task, flush, pick))
    ensures s.clients[c].Waiting? && !s.clients[c].asleep ==> exists pick :: Enabled(s, ClientResume(c, pick))
    ensures s.clients[c].Waiting? && s.clients[c].asleep ==> Enabled(s, ClientWakes(c))
  {
    var asleep := WorkersAsleep(s.workers);
    if s.clients[c].Out? {
      var pick := SomePick(asleep, PutEntry(s.f, task, flush).wcond);
      assert Enabled(s, PutCall(c, task, flush, pick));
    } else if !s.clients[c].asleep {
      var pick := SomePick(asleep, ClientSectionOf(s.f, s.clients[c].op, true).wcond);
      assert Enabled(s, ClientResume(c, pick));
    }
  }

  /** A worker that has not exited has a step; while it sleeps that is to wake for no reason. */
  lemma WorkerHasStep<T>(s: State<T>, w: Id, timed: bool)
    requires s.f.low >= 1 && w in s.workers
    ensures match s.workers[w]
            case Ready => exists pick :: Enabled(s, TakeCall(w, timed, pick))
            case Working(_) => Enabled(s, TaskDone(w)) && Enabled(s, ExitCall(w))
            case Asleep(_) => Enabled(s, WorkerWakes(w))
            case Woken(waited) => (exists pick :: Enabled(s, TakeResumes(w, false, pick))) &&
                                  (waited ==> Enabled(s, TakeResumes(w, true, None)))
            case Failed => Enabled(s, ExitCall(w))
            case Exited => true
  {
    var asleep := ClientsAsleep(s.clients);
    if s.workers[w].Ready? {
      var pick := SomePick(asleep, TakeEntry(s.f).ccond);
      assert Enabled(s, TakeCall(w, timed, pick));
    } else if s.workers[w].Woken? {
      var pick := SomePick(asleep, TakeResume(s.f, false).ccond);
      assert Enabled(s, TakeResumes(w, false, pick));
    }
  }

  lemma SomePick(asleep: set<Id>, n: Notify) returns (pick: Option<Id>)
    ensures PickOk(asleep, n, pick)
  {
    if n == One && asleep != {} {
      var x :| x in asleep;
      pick := Some(x);
    } else {
      pick := None;
    }
  }

  // ---------------------------------------------------------------- closeShop

  /** The clients asleep or woken inside put. */
  function InsidePut<T>(clients: map<Id, ClientPc<T>>): set<Id> {
    set c | c in ClientsInWait(clients) && clients[c].op.Put?
  }

  lemma NotifyKeepsCalls<T>(clients: map<Id, ClientPc<T>>, n: Notify, pick: Option<Id>)
    requires PickOk(ClientsAsleep(clients), n, pick)
    ensures InsidePut(NotifyClients(clients, n, pick)) == InsidePut(clients)
  {
  }

  /** While the queue is closed only a client that was already inside put can still queue its task. */
  lemma ClosedClientStep<T>(s: State<T>, c: Id, op: ClientOp<T>, resuming: bool, pick: Option<Id>)
    requires !s.f.open && c in s.clients
    requires if resuming then s.clients[c].Waiting? && s.clients[c].op == op else s.clients[c].Out?
    requires PickOk(WorkersAsleep(s.workers), ClientSectionOf(s.f, op, resuming).wcond, pick)
    ensures var t := ClientStep(s, c, op, ClientSectionOf(s.f, op, resuming), pick);
            !t.f.open && |t.accepted| + |InsidePut(t.clients)| <= |s.accepted| + |InsidePut(s.clients)|
  {
    var t := ClientStep(s, c, op, ClientSectionOf(s.f, op, resuming), pick);
    SizeAfterMove(InsidePut(s.clients), InsidePut(t.clients), c);
    ClosedSection(s.f, op, resuming);
    hide ClientSectionOf, AllFlushed, WorkersAsleep, NotifyWorkers, PickOk;
  }

  lemma ClosedSection<T>(f: Fields<T>, op: ClientOp<T>, resuming: bool)
    ensures var r := ClientSectionOf(f, op, resuming);
            && r.fields.open == f.open
            && (op.Put? && !resuming && !f.open ==> r.exit == Returns(false))
  {
  }

  lemma ClosedStep<T>(s: State<T>, e: Event<T>)
    requires s.f.low >= 1 && !s.f.open && Enabled(s, e)
    ensures var t := Next(s, e);
            !t.f.open && |t.accepted| + |InsidePut(t.clients)| <= |s.accepted| + |InsidePut(s.clients)|
  {
    match e
    case PutCall(c, task, flush, pick) => ClosedClientStep(s, c, Put(task, flush), false, pick);
    case IdleCall(c) => ClosedClientStep(s, c, Idle, false, None);
    case TerminateCall(c) => ClosedClientStep(s, c, Terminate, false, None);
    case ClientResume(c, pick) => ClosedClientStep(s, c, s.clients[c].op, true, pick);
    case TakeCall(w, timed, pick) => NotifyKeepsCalls(s.clients, TakeEntry(s.f).ccond, pick);
    case TakeResumes(w, timedOut, pick) => NotifyKeepsCalls(s.clients, TakeResume(s.f, timedOut).ccond, pick);
    case ExitCall(w) => NotifyKeepsCalls(s.clients, All, None);
    case ClientWakes(c) => assert InsidePut(Next(s, e).clients) == InsidePut(s.clients);
    case _ =>
  }

  /** After closeShop, whatever happens, restarts included: the queue stays closed, and at most the tasks of the
      clients that were inside put then are still accepted. */
  lemma {:induction false} ClosedForGood<T>(s: State<T>, events: seq<Event<T>>, t: State<T>)
    requires s.f.low >= 1 && !s.f.open && Run(s, events, t)
    ensures !t.f.open && s.accepted <= t.accepted
    ensures |t.accepted| + |InsidePut(t.clients)| <= |s.accepted| + |InsidePut(s.clients)|
    decreases |events|
  {
    if events != [] {
      ClosedStep(s, events[0]);
      StepExtends(s, events[0]);
      ClosedForGood(Next(s, events[0]), events[1..], t);
    }
  }

  /** closeShop itself, and what it then means for every run. */
  lemma ClosedShop<T>(s: State<T>, events: seq<Event<T>>, t: State<T>)
    requires s.f.low >= 1 && Run(Next(s, CloseShop), events, t)
    ensures |t.accepted| <= |s.accepted| + |InsidePut(s.clients)|
    ensures InsidePut(s.clients) == {} ==> t.accepted == s.accepted
  {
    ClosedForGood(Next(s, CloseShop), events, t);
  }
}
