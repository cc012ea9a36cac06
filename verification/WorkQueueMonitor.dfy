/** The fields of WorkQueue<T> and its locked sections.

    Every member function of the queue takes the mutex and gives it up in two places only:
    when it returns, and inside a condition variable wait. A "section" is the code that
    runs between two such points. Each section is given twice: as a function on the value
    of the fields, which the thread protocol of WorkQueueSystem is built from, and as a
    method of a class that updates the fields in place. */
module WorkQueueMonitor {

  /** Number of values of the C++ `unsigned int` waiter counters. */
  const UINT_RANGE := 0x1_0000_0000

  function Increment(x: nat): nat {
    (x + 1) % UINT_RANGE
  }

  /** Unsigned decrement: 0 wraps to the largest value. */
  function Decrement(x: nat): nat {
    (x - 1) % UINT_RANGE
  }

  /** What a section does to one condition variable. */
  datatype Notify = Nobody | One | All

  /** How a section of a client call ends: inside the client wait, or by returning. */
  datatype ClientExit = Sleeps | Returns(value: bool)

  /** How a section of `take` ends. `NoTask` is the timed wait that gives a null task. */
  datatype TakeExit<+T> = TakeSleeps | TakeFails | NoTask | Got(task: T)

  datatype Fields<T> = Fields(
    high: nat, low: nat,
    queue: seq<T>,
    okFlag: bool, open: bool,
    threads: nat, exited: nat,
    clientsWaiting: nat, workersWaiting: nat)
  {
    predicate Ok() {
      okFlag && exited == 0 && threads != 0
    }

    predicate Full() {
      high > 0 && |queue| >= high
    }

    /** The test of the waitIdle loop. */
    predicate Busy() {
      (|queue| > 0 && exited < threads) || workersWaiting + exited < threads
    }
  }

  datatype ClientSection<T> = ClientSection(fields: Fields<T>, exit: ClientExit, wcond: Notify)

  datatype WorkerSection<T> = WorkerSection(fields: Fields<T>, exit: TakeExit<T>, ccond: Notify)

  // ---------------------------------------------------------------- put

  /** The put loop, reached with ok() true: sleep on a full queue, else push and notify. */
  function PutLoop<T>(f: Fields<T>, task: T, flush: bool): ClientSection<T> {
    if f.Full() then
      ClientSection(f.(clientsWaiting := Increment(f.clientsWaiting)), Sleeps, Nobody)
    else
      ClientSection(f.(queue := (if flush then [] else f.queue) + [task]),
                    Returns(true),
                    if f.workersWaiting > 0 then One else Nobody)
  }

  function PutEntry<T>(f: Fields<T>, task: T, flush: bool): ClientSection<T> {
    if !f.Ok() || !f.open then ClientSection(f, Returns(false), Nobody) else PutLoop(f, task, flush)
  }

  function PutResume<T>(f: Fields<T>, task: T, flush: bool): ClientSection<T> {
    var g := f.(clientsWaiting := Decrement(f.clientsWaiting));
    if !g.Ok() then ClientSection(g, Returns(false), Nobody) else PutLoop(g, task, flush)
  }

  // ---------------------------------------------------------------- waitIdle

  function IdleEntry<T>(f: Fields<T>): ClientSection<T> {
    if f.Busy() then
      ClientSection(f.(clientsWaiting := Increment(f.clientsWaiting)), Sleeps, Nobody)
    else
      ClientSection(f, Returns(f.Ok()), Nobody)
  }

  function IdleResume<T>(f: Fields<T>): ClientSection<T> {
    IdleEntry(f.(clientsWaiting := Decrement(f.clientsWaiting)))
  }

  // ---------------------------------------------------------------- setTerminateAndWait

  /** The fields after all workers were joined. The queue contents stay. */
  function Reset<T>(f: Fields<T>): Fields<T> {
    f.(threads := 0, exited := 0, clientsWaiting := 0, workersWaiting := 0, okFlag := true)
  }

  function TerminateLoop<T>(f: Fields<T>): ClientSection<T> {
    if f.exited < f.threads then
      ClientSection(f.(clientsWaiting := Increment(f.clientsWaiting)), Sleeps, All)
    else
      ClientSection(Reset(f), Returns(true), Nobody)
  }

  function TerminateEntry<T>(f: Fields<T>): ClientSection<T> {
    if f.threads == 0 then ClientSection(f, Returns(false), Nobody)
    else TerminateLoop(f.(okFlag := false))
  }

  function TerminateResume<T>(f: Fields<T>): ClientSection<T> {
    TerminateLoop(f.(clientsWaiting := Decrement(f.clientsWaiting)))
  }

  // ---------------------------------------------------------------- take, workerExit

  /** The take loop, reached with ok() true. */
  function TakeLoop<T>(f: Fields<T>): WorkerSection<T>
    requires f.low >= 1 || f.queue != []
  {
    if |f.queue| < f.low then
      WorkerSection(f.(workersWaiting := Increment(f.workersWaiting)), TakeSleeps,
                    if f.queue == [] then All else Nobody)
    else
      WorkerSection(f.(queue := f.queue[1..]), Got(f.queue[0]),
                    if f.clientsWaiting > 0 then One else Nobody)
  }

  function TakeEntry<T>(f: Fields<T>): (r: WorkerSection<T>)
    requires f.Ok() ==> f.low >= 1 || f.queue != []
    ensures r.fields.low == f.low && r.fields.high == f.high
  {
    if !f.Ok() then WorkerSection(f, TakeFails, Nobody) else TakeLoop(f)
  }

  /** A timeout is reported before ok() is looked at. */
  function TakeResume<T>(f: Fields<T>, timedOut: bool): (r: WorkerSection<T>)
    requires f.Ok() && !timedOut ==> f.low >= 1 || f.queue != []
    ensures r.fields.low == f.low && r.fields.high == f.high
  {
    var g := f.(workersWaiting := Decrement(f.workersWaiting));
    if timedOut then WorkerSection(g, NoTask, Nobody)
    else if !g.Ok() then WorkerSection(g, TakeFails, Nobody)
    else TakeLoop(g)
  }

  function WorkerExit<T>(f: Fields<T>): Fields<T> {
    f.(exited := Increment(f.exited), okFlag := false)
  }

  // ---------------------------------------------------------------- the class

  /** The queue itself. Out-parameters tell which condition variables were notified and how
      the section ended. With a low mark of 0 `take` pops an empty queue when it finds one, which
      is undefined, so it asks for a task then; a positive low mark makes it wait instead. */
  class WorkQueue<T> {
    const high: nat
    const low: nat
    var queue: seq<T>
    var okFlag: bool
    var openForBusiness: bool
    var workerThreads: nat
    var workersExited: nat
    var clientsWaiting: nat
    var workersWaiting: nat

    ghost function View(): Fields<T>
      reads this
    {
      Fields(high, low, queue, okFlag, openForBusiness, workerThreads, workersExited,
             clientsWaiting, workersWaiting)
    }

    constructor (hi: nat, lo: nat)
      ensures View() == Fields(hi, lo, [], true, true, 0, 0, 0, 0)
    {
      high, low, queue := hi, lo, [];
      okFlag, openForBusiness := true, true;
      workerThreads, workersExited, clientsWaiting, workersWaiting := 0, 0, 0, 0;
    }

    method IsOk() returns (isok: bool)
      ensures isok == View().Ok()
    {
      isok := okFlag && workersExited == 0 && workerThreads != 0;
    }

    method CloseShop()
      modifies this
      ensures View() == old(View()).(open := false)
    {
      openForBusiness := false;
    }

    /** Creating the threads, one by one. */
    method Start(nworkers: nat)
      modifies this
      ensures View() == old(View()).(threads := old(View()).threads + nworkers)
    {
      var i := 0;
      while i < nworkers
        invariant i <= nworkers
        invariant View() == old(View()).(threads := old(View()).threads + i)
      {
        workerThreads := workerThreads + 1;
        i := i + 1;
      }
    }

    method PutBody(task: T, flush: bool) returns (exit: ClientExit, wcond: Notify)
      requires View().Ok()
      modifies this
      ensures ClientSection(View(), exit, wcond) == PutLoop(old(View()), task, flush)
    {
      wcond := Nobody;
      if high > 0 && |queue| >= high {
        clientsWaiting := Increment(clientsWaiting);
        return Sleeps, Nobody;
      }
      if flush {
        while queue != []
          invariant View() == old(View()).(queue := queue)
          decreases |queue|
        {
          queue := queue[1..];
        }
      }
      queue := queue + [task];
      if workersWaiting > 0 {
        wcond := One;
      }
      exit := Returns(true);
    }

    /** `put` from its first line to its first wait or its return. */
    method Put(task: T, flush: bool) returns (exit: ClientExit, wcond: Notify)
      modifies this
      ensures ClientSection(View(), exit, wcond) == PutEntry(old(View()), task, flush)
    {
      var isok := IsOk();
      if !isok || !openForBusiness {
        return Returns(false), Nobody;
      }
      exit, wcond := PutBody(task, flush);
    }

    /** `put` from the end of a wait to its next wait or its return. */
    method PutWoken(task: T, flush: bool) returns (exit: ClientExit, wcond: Notify)
      modifies this
      ensures ClientSection(View(), exit, wcond) == PutResume(old(View()), task, flush)
    {
      var isok := IsOk();
      clientsWaiting := Decrement(clientsWaiting);
      if !isok {
        return Returns(false), Nobody;
      }
      exit, wcond := PutBody(task, flush);
    }

    method WaitIdle() returns (exit: ClientExit)
      modifies this
      ensures ClientSection(View(), exit, Nobody) == IdleEntry(old(View()))
    {
      if (|queue| > 0 && workersExited < workerThreads) || workersWaiting + workersExited < workerThreads {
        clientsWaiting := Increment(clientsWaiting);
        return Sleeps;
      }
      var isok := IsOk();
      exit := Returns(isok);
    }

    method WaitIdleWoken() returns (exit: ClientExit)
      modifies this
      ensures ClientSection(View(), exit, Nobody) == IdleResume(old(View()))
    {
      clientsWaiting := Decrement(clientsWaiting);
      exit := WaitIdle();
    }

    /** The wait loop of setTerminateAndWait, then the joins and the reset. */
    method TerminateBody() returns (exit: ClientExit, wcond: Notify)
      modifies this
      ensures ClientSection(View(), exit, wcond) == TerminateLoop(old(View()))
    {
      if workersExited < workerThreads {
        clientsWaiting := Increment(clientsWaiting);
        return Sleeps, All;
      }
      while workerThreads > 0
        invariant View() == old(View()).(threads := workerThreads)
      {
        workerThreads := workerThreads - 1;
      }
      workersExited, clientsWaiting, workersWaiting := 0, 0, 0;
      okFlag := true;
      return Returns(true), Nobody;
    }

    method SetTerminateAndWait() returns (exit: ClientExit, wcond: Notify)
      modifies this
      ensures ClientSection(View(), exit, wcond) == TerminateEntry(old(View()))
    {
      if workerThreads == 0 {
        return Returns(false), Nobody;
      }
      okFlag := false;
      exit, wcond := TerminateBody();
    }

    method SetTerminateAndWaitWoken() returns (exit: ClientExit, wcond: Notify)
      modifies this
      ensures ClientSection(View(), exit, wcond) == TerminateResume(old(View()))
    {
      clientsWaiting := Decrement(clientsWaiting);
      exit, wcond := TerminateBody();
    }

    method TakeBody() returns (exit: TakeExit<T>, ccond: Notify)
      requires low >= 1 || queue != []
      modifies this
      ensures WorkerSection(View(), exit, ccond) == TakeLoop(old(View()))
    {
      ccond := Nobody;
      if |queue| < low {
        workersWaiting := Increment(workersWaiting);
        if queue == [] {
          ccond := All;
        }
        return TakeSleeps, ccond;
      }
      exit := Got(queue[0]);
      queue := queue[1..];
      if clientsWaiting > 0 {
        ccond := One;
      }
    }

    method Take() returns (exit: TakeExit<T>, ccond: Notify)
      requires View().Ok() ==> low >= 1 || queue != []
      modifies this
      ensures WorkerSection(View(), exit, ccond) == TakeEntry(old(View()))
    {
      var isok := IsOk();
      if !isok {
        return TakeFails, Nobody;
      }
      exit, ccond := TakeBody();
    }

    method TakeWoken(timedOut: bool) returns (exit: TakeExit<T>, ccond: Notify)
      requires View().Ok() && !timedOut ==> low >= 1 || queue != []
      modifies this
      ensures WorkerSection(View(), exit, ccond) == TakeResume(old(View()), timedOut)
    {
      workersWaiting := Decrement(workersWaiting);
      if timedOut {
        return NoTask, Nobody;
      }
      var isok := IsOk();
      if !isok {
        return TakeFails, Nobody;
      }
      exit, ccond := TakeBody();
    }

    /** Advertise exit. The client condition variable is always notified. */
    method ExitWorker() returns (ccond: Notify)
      modifies this
      ensures View() == WorkerExit(old(View())) && ccond == All
    {
      workersExited := Increment(workersExited);
      okFlag := false;
      ccond := All;
    }
  }
}
