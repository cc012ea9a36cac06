/** The shutdown handshake of setTerminateAndWait. */
module WorkQueueShutdown {
  import opened Options
  import opened WorkQueueMonitor
  import opened WorkQueueSystem
  import opened WorkQueueSafety
  import opened WorkQueueLiveness

  /** How many steps away from exit a worker is, at most, once ok() is false. */
  function Stage(pc: WorkerPc): nat {
    match pc
    case Exited => 0
    case Failed => 1
    case Ready => 2
    case Working(_) => 3
    case Woken(_) => 3
    case Asleep(_) => 4
  }

  function AtLeast(workers: map<Id, WorkerPc>, stage: nat): set<Id> {
    set w | w in workers && Stage(workers[w]) >= stage
  }

  /** The sum of the stages of all workers, counted level by level. */
  function Distance(workers: map<Id, WorkerPc>): nat {
    |AtLeast(workers, 1)| + |AtLeast(workers, 2)| + |AtLeast(workers, 3)| + |AtLeast(workers, 4)|
  }

  lemma DistanceMonotone(a: map<Id, WorkerPc>, b: map<Id, WorkerPc>)
    requires b.Keys <= a.Keys && forall w | w in b :: Stage(b[w]) <= Stage(a[w])
    ensures Distance(b) <= Distance(a)
  {
    SubsetSize(AtLeast(b, 1), AtLeast(a, 1));
    SubsetSize(AtLeast(b, 2), AtLeast(a, 2));
    SubsetSize(AtLeast(b, 3), AtLeast(a, 3));
    SubsetSize(AtLeast(b, 4), AtLeast(a, 4));
  }

  lemma DistanceDrops(a: map<Id, WorkerPc>, w: Id, pc: WorkerPc)
    requires w in a && Stage(pc) < Stage(a[w])
    ensures Distance(a[w := pc]) < Distance(a)
  {
    var b := a[w := pc];
    DistanceMonotone(a, b);
    SubsetSize(AtLeast(b, 1), AtLeast(a, 1));
    SubsetSize(AtLeast(b, 2), AtLeast(a, 2));
    SubsetSize(AtLeast(b, 3), AtLeast(a, 3));
    SubsetSize(AtLeast(b, 4), AtLeast(a, 4));
    assert w in AtLeast(a, Stage(a[w])) && w !in AtLeast(b, Stage(a[w]));
  }

  predicate IsWorkerEvent<T>(e: Event<T>) {
    e.TakeCall? || e.TakeResumes? || e.WorkerWakes? || e.TaskDone? || e.ExitCall?
  }

  function WorkerEvents<T>(events: seq<Event<T>>): nat {
    if events == [] then 0 else (if IsWorkerEvent(events[0]) then 1 else 0) + WorkerEvents(events[1..])
  }

  ghost predicate NoStart<T>(events: seq<Event<T>>) {
    forall e | e in events :: !e.StartWorkers?
  }

  /** Shutting down, or already shut down. */
  ghost predicate Closing<T>(s: State<T>) {
    && Safe(s) && Live(s)
    && (s.terminating || s.f.threads == 0)
  }

  lemma ClosingNotOk<T>(s: State<T>)
    requires Closing(s)
    ensures !s.f.Ok() && WorkersAsleep(s.workers) == {}
  {
    if s.f.threads == 0 {
      assert s.workers.Keys == {};
    }
  }

  lemma ClosingClient<T>(s: State<T>, c: Id, op: ClientOp<T>, resuming: bool, pick: Option<Id>)
    requires Closing(s)
    requires PickOk(WorkersAsleep(s.workers), ClientSectionOf(s.f, op, resuming).wcond, pick)
    ensures var t := ClientStep(s, c, op, ClientSectionOf(s.f, op, resuming), pick);
            && (t.terminating || t.f.threads == 0)
            && (t.workers == s.workers || t.workers == map[])
            && Distance(t.workers) <= Distance(s.workers)
  {
    ClosingNotOk(s);
    var r := ClientSectionOf(s.f, op, resuming);
    var t := ClientStep(s, c, op, r, pick);
    ClientSectionFields(s.f, op, resuming);
    if Resets(op, r) {
      DistanceMonotone(s.workers, t.workers);
    } else {
      NobodyToWake(s.workers, r.wcond, pick);
    }
  }

  lemma NobodyToWake(workers: map<Id, WorkerPc>, n: Notify, pick: Option<Id>)
    requires WorkersAsleep(workers) == {} && PickOk(WorkersAsleep(workers), n, pick)
    ensures NotifyWorkers(workers, n, pick) == workers
  {
    forall w | w in workers ensures WakeWorker(workers[w]) == workers[w] {
      assert w !in WorkersAsleep(workers);
    }
  }

  lemma ClosingWorker<T>(s: State<T>, e: Event<T>)
    requires Closing(s) && Enabled(s, e) && IsWorkerEvent(e)
    ensures Distance(Next(s, e).workers) < Distance(s.workers)
    ensures Next(s, e).terminating == s.terminating && Next(s, e).f.threads == s.f.threads
  {
    ClosingNotOk(s);
    match e
    case TakeCall(w, timed, pick) => DistanceDrops(s.workers, w, Failed);
    case TakeResumes(w, timedOut, pick) => DistanceDrops(s.workers, w, if timedOut then Ready else Failed);
    case WorkerWakes(w) =>
    case TaskDone(w) => DistanceDrops(s.workers, w, Ready);
    case ExitCall(w) => DistanceDrops(s.workers, w, Exited);
    case _ =>
  }

  /** Calling setTerminateAndWait on a running queue begins a shutdown: either the caller now
      waits for the workers, or it has already joined them. */
  lemma ShutdownBegins<T>(s: State<T>, c: Id)
    requires Safe(s) && Live(s) && s.f.threads > 0 && Enabled(s, TerminateCall(c))
    ensures var t := Next(s, TerminateCall(c));
            Closing(t) && (t.f.threads == 0 || t.clients[c] == Waiting(Terminate, true))
  {
    SafeLiveStep(s, TerminateCall(c));
  }

  lemma SafeLiveStep<T>(s: State<T>, e: Event<T>)
    requires Safe(s) && Live(s) && Enabled(s, e)
    ensures Safe(Next(s, e)) && Live(Next(s, e))
  {
    CountedStep(s, e);
    InOrderStep(s, e);
    CustodyStep(s, e);
    LiveStep(s, e);
  }

  lemma ClosingStep<T>(s: State<T>, e: Event<T>)
    requires Closing(s) && Enabled(s, e) && !e.StartWorkers?
    ensures Closing(Next(s, e))
    ensures Distance(Next(s, e).workers) + (if IsWorkerEvent(e) then 1 else 0) <= Distance(s.workers)
  {
    SafeLiveStep(s, e);
    match e
    case PutCall(c, task, flush, pick) => ClosingClient(s, c, Put(task, flush), false, pick);
    case IdleCall(c) => ClosingClient(s, c, Idle, false, None);
    case TerminateCall(c) => ClosingClient(s, c, Terminate, false, None);
    case ClientResume(c, pick) => ClosingClient(s, c, s.clients[c].op, true, pick);
    case CloseShop =>
    case ClientWakes(c) =>
    case _ => ClosingWorker(s, e);
  }

  /** Shutdown terminates: from the start of setTerminateAndWait on, and until workers are
      started again, no worker sleeps, and the workers take at most Distance steps in all,
      whatever the clients and the scheduler do. */
  lemma {:induction false} ShutdownIsBounded<T>(s: State<T>, events: seq<Event<T>>, t: State<T>)
    requires Closing(s) && Run(s, events, t) && NoStart(events)
    ensures Closing(t) && WorkersAsleep(t.workers) == {} && !t.f.Ok()
    ensures WorkerEvents(events) + Distance(t.workers) <= Distance(s.workers)
    decreases |events|
  {
    if events == [] {
      ClosingNotOk(s);
    } else {
      ClosingStep(s, events[0]);
      ShutdownIsBounded(Next(s, events[0]), events[1..], t);
    }
  }

  // ---------------------------------------------------------------- progress

  /** A worker that has not exited always has a step of its own. */
  lemma WorkerCanStep<T>(s: State<T>, w: Id) returns (e: Event<T>)
    requires Closing(s) && w in s.workers && !s.workers[w].Exited?
    ensures Enabled(s, e) && IsWorkerEvent(e)
  {
    ClosingNotOk(s);
    assert w !in WorkersAsleep(s.workers);
    match s.workers[w]
    case Failed => e := ExitCall(w);
    case Ready => e := TakeCall(w, false, None);
    case Working(k) => e := TaskDone(w);
    case Woken(timed) => e := TakeResumes(w, false, None);
  }

  /** The waiting loop ends exactly when all workers have exited; then the queue has no
      workers left and ok() is false. */
  lemma TerminateEndsExactly<T>(s: State<T>, resuming: bool)
    requires Counted(s) && s.f.threads > 0
    ensures var r := ClientSectionOf(s.f, Terminate, resuming);
            && (r.exit == Returns(true) <==> forall w | w in s.workers :: s.workers[w].Exited?)
            && (r.exit.Sleeps? <==> exists w | w in s.workers :: !s.workers[w].Exited?)
            && (r.exit == Returns(true) ==> r.fields.threads == 0 && !r.fields.Ok() && r.fields.queue == s.f.queue)
  {
    if forall w | w in s.workers :: s.workers[w].Exited? {
      assert WorkersExited(s.workers) == s.workers.Keys;
    }
    if s.f.exited >= s.f.threads {
      AllExited(s);
    }
  }

  /** When all workers have exited every client that is still inside a wait is awake, so the
      terminating client is not left asleep. */
  lemma TerminatorIsAwake<T>(s: State<T>, c: Id)
    requires Safe(s) && Live(s) && c in s.clients && s.clients[c].Waiting?
    requires forall w | w in s.workers :: s.workers[w].Exited?
    ensures !s.clients[c].asleep
  {
    assert WorkersExited(s.workers) == s.workers.Keys;
    assert c !in ClientsAsleep(s.clients);
  }

  lemma WorkerEventKeepsCall<T>(s: State<T>, e: Event<T>, c: Id)
    requires s.f.low >= 1 && Enabled(s, e) && IsWorkerEvent(e)
    requires c in s.clients && s.clients[c].Waiting?
    ensures c in Next(s, e).clients && Next(s, e).clients[c].Waiting? && Next(s, e).clients[c].op == s.clients[c].op
  {
    match e
    case TakeCall(w, timed, pick) =>
    case TakeResumes(w, timedOut, pick) =>
    case _ =>
  }

  lemma ResumeFinishes<T>(s: State<T>, c: Id)
    requires Safe(s) && c in s.clients && s.clients[c] == Waiting(Terminate, false)
    requires s.f.exited == s.f.threads
    ensures Enabled(s, ClientResume(c, None))
    ensures var t := Next(s, ClientResume(c, None)); t.f.threads == 0 && t.workers == map[]
  {
  }

  ghost predicate CanFinish<T(!new)>(s: State<T>)
    requires s.f.low >= 1
  {
    exists events: seq<Event<T>>, t: State<T> ::
      Run(s, events, t) && NoStart(events) && t.f.threads == 0 && t.workers == map[]
  }

  /** Shutdown can always be completed, from any state in which some client is inside
      setTerminateAndWait, by steps of the threads alone. */
  lemma {:induction false} ShutdownCanFinish<T(!new)>(s: State<T>, c: Id)
    requires Closing(s) && c in s.clients && s.clients[c].Waiting? && s.clients[c].op.Terminate?
    ensures CanFinish(s)
    decreases Distance(s.workers)
  {
    if w :| w in s.workers && !s.workers[w].Exited? {
      var e := WorkerCanStep(s, w);
      ClosingStep(s, e);
      var s' := Next(s, e);
      WorkerEventKeepsCall(s, e, c);
      ShutdownCanFinish(s', c);
      var events: seq<Event<T>>, t: State<T> :|
        Run(s', events, t) && NoStart(events) && t.f.threads == 0 && t.workers == map[];
      RunCons(s, e, events, t);
      assert Run(s, [e] + events, t) && NoStart([e] + events);
    } else {
      TerminatorIsAwake(s, c);
      assert WorkersExited(s.workers) == s.workers.Keys;
      var e := Event<T>.ClientResume(c, None);
      ResumeFinishes(s, c);
      var none: seq<Event<T>> := [];
      RunCons(s, e, none, Next(s, e));
      assert Run(s, [e] + none, Next(s, e)) && NoStart([e] + none);
    }
  }

  // ---------------------------------------------------------------- each worker exits once

  ghost function Exits<T>(events: seq<Event<T>>, w: Id): nat {
    if events == [] then 0
    else (if events[0] == Event.ExitCall(w) then 1 else 0) + Exits(events[1..], w)
  }

  /** 1 for a worker that has exited, joined or not. */
  function Gone<T>(s: State<T>, w: Id): nat {
    if w in s.workers && !s.workers[w].Exited? then 0 else 1
  }

  lemma ExitStepOnce<T>(s: State<T>, e: Event<T>, w: Id)
    requires Counted(s) && Enabled(s, e) && !e.StartWorkers?
    ensures Gone(s, w) + (if e == Event.ExitCall(w) then 1 else 0) == Gone(Next(s, e), w)
  {
    match e
    case PutCall(c, task, flush, pick) => ClientSectionKeepsGone(s, c, Put(task, flush), false, pick, w);
    case IdleCall(c) => ClientSectionKeepsGone(s, c, Idle, false, None, w);
    case TerminateCall(c) => ClientSectionKeepsGone(s, c, Terminate, false, None, w);
    case ClientResume(c, pick) => ClientSectionKeepsGone(s, c, s.clients[c].op, true, pick, w);
    case _ => WorkerEventGone(s, e, w);
  }

  lemma WorkerEventGone<T>(s: State<T>, e: Event<T>, w: Id)
    requires s.f.low >= 1 && Enabled(s, e)
    requires IsWorkerEvent(e) || e.CloseShop? || e.ClientWakes?
    ensures Gone(s, w) + (if e == Event.ExitCall(w) then 1 else 0) == Gone(Next(s, e), w)
  {
    match e
    case TakeCall(v, timed, pick) =>
    case TakeResumes(v, timedOut, pick) =>
    case _ =>
  }

  lemma ClientSectionKeepsGone<T>(s: State<T>, c: Id, op: ClientOp<T>, resuming: bool, pick: Option<Id>, w: Id)
    requires Counted(s)
    requires PickOk(WorkersAsleep(s.workers), ClientSectionOf(s.f, op, resuming).wcond, pick)
    ensures Gone(ClientStep(s, c, op, ClientSectionOf(s.f, op, resuming), pick), w) == Gone(s, w)
  {
    ClientSectionFields(s.f, op, resuming);
    if Resets(op, ClientSectionOf(s.f, op, resuming)) {
      AllExited(s);
    }
  }

  /** Over any run without a start, a worker calls workerExit at most once, and exactly once
      when it was running at first and has gone at the end. */
  lemma {:induction false} ExitsOnce<T>(s: State<T>, events: seq<Event<T>>, t: State<T>, w: Id)
    requires Counted(s) && Run(s, events, t) && NoStart(events)
    ensures Gone(s, w) + Exits(events, w) == Gone(t, w)
    decreases |events|
  {
    if events != [] {
      CountedStep(s, events[0]);
      ExitStepOnce(s, events[0], w);
      ExitsOnce(Next(s, events[0]), events[1..], t, w);
    }
  }

  // ---------------------------------------------------------------- after the reset

  /** With no workers every section refuses. */
  lemma RefusesWithoutWorkers<T>(f: Fields<T>, task: T, flush: bool, resuming: bool)
    requires f.threads == 0 && f.low >= 1
    ensures ClientSectionOf(f, Put(task, flush), resuming).exit == Returns(false)
    ensures TakeEntry(f).exit == TakeFails && TakeResume(f, false).exit == TakeFails
  {
  }

  /** Once joined, the queue has no workers, takes no task and hands none out, until start. */
  lemma {:induction false} RefusesUntilStart<T>(s: State<T>, events: seq<Event<T>>, t: State<T>, task: T, flush: bool)
    requires Counted(s) && s.f.threads == 0 && Run(s, events, t) && NoStart(events)
    ensures t.f.threads == 0 && t.workers == s.workers == map[]
    ensures t.accepted == s.accepted && t.removed == s.removed && t.f.queue == s.f.queue && t.f.low == s.f.low
    ensures ClientSectionOf(t.f, Put(task, flush), false).exit == Returns(false) && TakeEntry(t.f).exit == TakeFails
    decreases |events|
  {
    assert s.workers.Keys == {};
    if events != [] {
      CountedStep(s, events[0]);
      var u := Next(s, events[0]);
      assert u.f.threads == 0 && u.accepted == s.accepted && u.removed == s.removed && u.f.queue == s.f.queue by {
        StepWithoutWorkers(s, events[0]);
      }
      RefusesUntilStart(u, events[1..], t, task, flush);
    }
  }

  lemma StepWithoutWorkers<T>(s: State<T>, e: Event<T>)
    requires Counted(s) && s.f.threads == 0 && Enabled(s, e) && !e.StartWorkers?
    ensures var u := Next(s, e);
            u.f.threads == 0 && u.accepted == s.accepted && u.removed == s.removed && u.f.queue == s.f.queue
  {
    assert s.workers.Keys == {};
    match e
    case PutCall(c, task, flush, pick) => RefusesWithoutWorkers(s.f, task, flush, false);
    case ClientResume(c, pick) =>
      if s.clients[c].op.Put? {
        RefusesWithoutWorkers(s.f, s.clients[c].op.task, s.clients[c].op.flush, true);
      }
    case IdleCall(c) =>
    case TerminateCall(c) =>
    case CloseShop =>
    case ClientWakes(c) =>
    case _ =>
  }
}
