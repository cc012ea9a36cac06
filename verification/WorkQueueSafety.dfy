/** What every step of the WorkQueue protocol keeps: the waiter counters are the numbers of
    threads inside the waits, tasks leave in the order they came, and none is lost. */
module WorkQueueSafety {
  import opened Options
  import opened WorkQueueMonitor
  import opened WorkQueueSystem

  // ---------------------------------------------------------------- counters

  /** A counter that is short by what is owed, modulo its range. */
  predicate ShortBy(counter: nat, debt: nat, waiting: nat) {
    counter < UINT_RANGE && debt < UINT_RANGE && (counter + debt) % UINT_RANGE == waiting
  }

  /** The fields that count threads agree with the threads. The client counter is zeroed by
      the reset of setTerminateAndWait, and from then on it is short, modulo its range, of the
      clients that the reset found inside a wait. */
  ghost predicate Counted<T>(s: State<T>) {
    && s.f.low >= 1
    && |s.clients| < UINT_RANGE && |s.workers| < UINT_RANGE
    && s.f.threads == |s.workers|
    && s.f.exited == |WorkersExited(s.workers)|
    && s.f.workersWaiting == |WorkersInWait(s.workers)|
    && ShortBy(s.f.clientsWaiting, s.debt, |ClientsInWait(s.clients)|)
    && (s.f.exited > 0 ==> !s.f.okFlag)
  }

  lemma SubsetSize<A>(a: set<A>, b: set<A>)
    requires a <= b
    ensures |a| <= |b|
    ensures |a| == |b| ==> a == b
  {
    assert b == a + (b - a);
  }

  lemma PopulationBounds<T>(s: State<T>)
    ensures |ClientsInWait(s.clients)| <= |s.clients|
    ensures |WorkersInWait(s.workers)| <= |s.workers|
    ensures |WorkersExited(s.workers)| <= |s.workers|
    ensures |WorkersInWait(s.workers)| + |WorkersExited(s.workers)| <= |s.workers|
  {
    SubsetSize(ClientsInWait(s.clients), s.clients.Keys);
    SubsetSize(WorkersInWait(s.workers) + WorkersExited(s.workers), s.workers.Keys);
    assert WorkersInWait(s.workers) !! WorkersExited(s.workers);
  }

  function Bit(b: bool): nat {
    if b then 1 else 0
  }

  predicate InWait(pc: WorkerPc) {
    pc.Asleep? || pc.Woken?
  }

  /** Two sets that agree but for x differ in size by what they say of x. */
  lemma SizeAfterMove<A>(before: set<A>, after: set<A>, x: A)
    requires forall y | y != x :: y in before <==> y in after
    ensures |after| == |before| + Bit(x in after) - Bit(x in before)
  {
    assert before - {x} == after - {x};
    assert |before - {x}| == |before| - Bit(x in before);
    assert |after - {x}| == |after| - Bit(x in after);
  }

  /** Moving one client changes the client populations at that client only. */
  lemma MoveClient<T>(clients: map<Id, ClientPc<T>>, c: Id, pc: ClientPc<T>)
    requires c in clients
    ensures var m := clients[c := pc];
            && m.Keys == clients.Keys && |m| == |clients|
            && |ClientsInWait(m)| == |ClientsInWait(clients)| + Bit(pc.Waiting?) - Bit(clients[c].Waiting?)
  {
    var m := clients[c := pc];
    assert m.Keys == clients.Keys;
    assert |m| == |m.Keys| == |clients.Keys|;
    SizeAfterMove(ClientsInWait(clients), ClientsInWait(m), c);
  }

  lemma MoveWorker(workers: map<Id, WorkerPc>, w: Id, pc: WorkerPc)
    requires w in workers
    ensures var m := workers[w := pc];
            && m.Keys == workers.Keys && |m| == |workers|
            && |WorkersInWait(m)| == |WorkersInWait(workers)| + Bit(InWait(pc)) - Bit(InWait(workers[w]))
            && |WorkersExited(m)| == |WorkersExited(workers)| + Bit(pc.Exited?) - Bit(workers[w].Exited?)
  {
    var m := workers[w := pc];
    assert m.Keys == workers.Keys;
    assert |m| == |m.Keys| == |workers.Keys|;
    SizeAfterMove(WorkersInWait(workers), WorkersInWait(m), w);
    SizeAfterMove(WorkersExited(workers), WorkersExited(m), w);
  }

  /** Notifying moves nobody in or out of a wait. */
  lemma NotifyWorkersCounts(workers: map<Id, WorkerPc>, n: Notify, pick: Option<Id>)
    requires PickOk(WorkersAsleep(workers), n, pick)
    ensures var m := NotifyWorkers(workers, n, pick);
            && m.Keys == workers.Keys && |m| == |workers|
            && WorkersInWait(m) == WorkersInWait(workers)
            && WorkersExited(m) == WorkersExited(workers)
  {
    var m := NotifyWorkers(workers, n, pick);
    assert m.Keys == workers.Keys;
    assert |m| == |m.Keys| == |workers.Keys|;
  }

  lemma NotifyClientsCounts<T>(clients: map<Id, ClientPc<T>>, n: Notify, pick: Option<Id>)
    requires PickOk(ClientsAsleep(clients), n, pick)
    ensures var m := NotifyClients(clients, n, pick);
            && m.Keys == clients.Keys && |m| == |clients|
            && ClientsInWait(m) == ClientsInWait(clients)
  {
    var m := NotifyClients(clients, n, pick);
    assert m.Keys == clients.Keys;
    assert |m| == |m.Keys| == |clients.Keys|;
  }

  /** When every worker has exited, none is left in a wait. */
  lemma AllExited<T>(s: State<T>)
    requires Counted(s) && s.f.exited >= s.f.threads
    ensures WorkersExited(s.workers) == s.workers.Keys && s.f.workersWaiting == 0 && s.f.exited == s.f.threads
    ensures forall w | w in s.workers :: s.workers[w].Exited?
  {
    PopulationBounds(s);
    SubsetSize(WorkersExited(s.workers), s.workers.Keys);
    assert WorkersInWait(s.workers) == {};
    forall w | w in s.workers ensures s.workers[w].Exited? {
      assert w in WorkersExited(s.workers);
    }
  }

  lemma UnionSize<A, B>(m: map<A, B>, n: map<A, B>)
    requires m.Keys !! n.Keys
    ensures |m + n| == |m| + |n|
  {
    assert (m + n).Keys == m.Keys + n.Keys;
  }

  lemma StartPopulation(workers: map<Id, WorkerPc>, ids: set<Id>)
    requires ids !! workers.Keys
    ensures var m := workers + (map w | w in ids :: Ready);
            && |m| == |workers| + |ids|
            && WorkersInWait(m) == WorkersInWait(workers)
            && WorkersExited(m) == WorkersExited(workers)
            && WorkersAsleep(m) == WorkersAsleep(workers)
  {
    var started := map w | w in ids :: Ready;
    assert started.Keys == ids;
    assert |started| == |ids|;
    UnionSize(workers, started);
  }

  lemma StartCounted<T>(s: State<T>, ids: set<Id>)
    requires Counted(s) && Enabled(s, StartWorkers(ids))
    ensures Counted(Next(s, StartWorkers(ids)))
  {
    StartPopulation(s.workers, ids);
    hide WorkersInWait, WorkersExited, WorkersAsleep, ClientsInWait, ShortBy;
  }

  /** True of a client section that ends a terminate call. */
  predicate Resets<T>(op: ClientOp<T>, r: ClientSection<T>) {
    op.Terminate? && r.exit == Returns(true)
  }

  /** What a client section can do to the counting fields, other than reset them. */
  lemma ClientSectionFields<T>(f: Fields<T>, op: ClientOp<T>, resuming: bool)
    ensures var r := ClientSectionOf(f, op, resuming);
            && r.fields.low == f.low && r.fields.high == f.high
            && (!Resets(op, r) ==>
                  && r.fields.threads == f.threads && r.fields.exited == f.exited
                  && r.fields.workersWaiting == f.workersWaiting
                  && (!f.okFlag ==> !r.fields.okFlag)
                  && (f.clientsWaiting < UINT_RANGE ==>
                        r.fields.clientsWaiting ==
                        (f.clientsWaiting - Bit(resuming) + Bit(r.exit.Sleeps?)) % UINT_RANGE))
            && (Resets(op, r) ==> f.exited >= f.threads && r.wcond == Nobody && r.fields == Reset(f))
  {
  }

  lemma OwesAll(n: nat)
    requires n < UINT_RANGE
    ensures ShortBy(0, n, n)
  {
  }

  lemma ResetCounted<T>(s: State<T>, c: Id, op: ClientOp<T>, resuming: bool, pick: Option<Id>)
    requires Counted(s) && c in s.clients && s.clients[c].Waiting? == resuming
    requires PickOk(WorkersAsleep(s.workers), ClientSectionOf(s.f, op, resuming).wcond, pick)
    requires Resets(op, ClientSectionOf(s.f, op, resuming))
    ensures Counted(ClientStep(s, c, op, ClientSectionOf(s.f, op, resuming), pick))
  {
    hide ShortBy;
    var r := ClientSectionOf(s.f, op, resuming);
    var t := ClientStep(s, c, op, r, pick);
    ClientSectionFields(s.f, op, resuming);
    MoveClient(s.clients, c, Out);
    AllExited(s);
    assert WorkersInWait(t.workers) == {} && WorkersExited(t.workers) == {};
    assert ClientsInWait(t.clients) == ClientsInWait(s.clients) - {c};
    PopulationBounds(t);
    OwesAll(|ClientsInWait(t.clients)|);
  }

  lemma ClientStepCounted<T>(s: State<T>, c: Id, op: ClientOp<T>, resuming: bool, pick: Option<Id>)
    requires Counted(s) && c in s.clients && s.clients[c].Waiting? == resuming
    requires PickOk(WorkersAsleep(s.workers), ClientSectionOf(s.f, op, resuming).wcond, pick)
    ensures Counted(ClientStep(s, c, op, ClientSectionOf(s.f, op, resuming), pick))
  {
    var r := ClientSectionOf(s.f, op, resuming);
    if Resets(op, r) {
      ResetCounted(s, c, op, resuming, pick);
    } else {
      ClientSectionFields(s.f, op, resuming);
      MoveClient(s.clients, c, if r.exit.Sleeps? then Waiting(op, true) else Out);
      NotifyWorkersCounts(s.workers, r.wcond, pick);
      WaitersBelowRange(s, c);
      CounterShift(s.f.clientsWaiting, s.debt, |ClientsInWait(s.clients)|, Bit(r.exit.Sleeps?) - Bit(resuming));
      hide ClientSectionOf, ShortBy, ClientsInWait, WorkersInWait, WorkersExited, WorkersAsleep, NotifyWorkers;
    }
  }

  /** Counting one thread in or out, modulo the range. */
  lemma CounterShift(counter: nat, debt: nat, waiting: nat, change: int)
    requires ShortBy(counter, debt, waiting) && 0 <= waiting + change < UINT_RANGE
    ensures ShortBy((counter + change) % UINT_RANGE, debt, waiting + change)
  {
  }

  /** Room for one more waiter, so that the number of waiters stays in range. */
  lemma WaitersBelowRange<T>(s: State<T>, c: Id)
    requires |s.clients| < UINT_RANGE && c in s.clients
    ensures |ClientsInWait(s.clients)| < UINT_RANGE - 1 + Bit(s.clients[c].Waiting?)
    ensures Bit(s.clients[c].Waiting?) <= |ClientsInWait(s.clients)|
  {
    var waiting := ClientsInWait(s.clients);
    SubsetSize(waiting, s.clients.Keys);
    SubsetSize(waiting + {c}, s.clients.Keys);
    if s.clients[c].Waiting? {
      SubsetSize({c}, waiting);
    }
  }

  /** So the client counter is right exactly while nothing is owed, and its value is always known. */
  lemma CounterIsRightIff<T>(s: State<T>)
    requires Counted(s)
    ensures s.f.clientsWaiting == |ClientsInWait(s.clients)| <==> s.debt == 0
    ensures s.f.clientsWaiting == (|ClientsInWait(s.clients)| - s.debt) % UINT_RANGE
  {
  }

  lemma TakeEntryCounted<T>(s: State<T>, w: Id, timed: bool, pick: Option<Id>)
    requires Counted(s) && w in s.workers && s.workers[w].Ready?
    requires PickOk(ClientsAsleep(s.clients), TakeEntry(s.f).ccond, pick)
    ensures Counted(WorkerStep(s, w, timed, TakeEntry(s.f), pick))
  {
    var r := TakeEntry(s.f);
    PopulationBounds(s);
    MoveWorker(s.workers, w, WorkerPcAfter(r.exit, timed, |s.removed|));
    NotifyClientsCounts(s.clients, r.ccond, pick);
    PopulationBounds(WorkerStep(s, w, timed, r, pick));
  }

  lemma TakeResumeCounted<T>(s: State<T>, w: Id, timed: bool, timedOut: bool, pick: Option<Id>)
    requires Counted(s) && w in s.workers && s.workers[w].Woken?
    requires PickOk(ClientsAsleep(s.clients), TakeResume(s.f, timedOut).ccond, pick)
    ensures Counted(WorkerStep(s, w, timed, TakeResume(s.f, timedOut), pick))
  {
    var r := TakeResume(s.f, timedOut);
    PopulationBounds(s);
    MoveWorker(s.workers, w, WorkerPcAfter(r.exit, timed, |s.removed|));
    NotifyClientsCounts(s.clients, r.ccond, pick);
    PopulationBounds(WorkerStep(s, w, timed, r, pick));
  }

  lemma ExitCounted<T>(s: State<T>, w: Id)
    requires Counted(s) && w in s.workers && (s.workers[w].Failed? || s.workers[w].Working?)
    ensures Counted(ExitStep(s, w))
  {
    PopulationBounds(s);
    MoveWorker(s.workers, w, Exited);
    NotifyClientsCounts(s.clients, All, None);
    PopulationBounds(ExitStep(s, w));
  }

  lemma CountedStep<T>(s: State<T>, e: Event<T>)
    requires Counted(s) && Enabled(s, e)
    ensures Counted(Next(s, e))
  {
    match e
    case StartWorkers(ids) => StartCounted(s, ids);
    case CloseShop =>
    case PutCall(c, task, flush, pick) => ClientStepCounted(s, c, Put(task, flush), false, pick);
    case IdleCall(c) => ClientStepCounted(s, c, Idle, false, None);
    case TerminateCall(c) => ClientStepCounted(s, c, Terminate, false, None);
    case ClientResume(c, pick) => ClientStepCounted(s, c, s.clients[c].op, true, pick);
    case ClientWakes(c) => MoveClient(s.clients, c, WakeClient(s.clients[c]));
    case TakeCall(w, timed, pick) => TakeEntryCounted(s, w, timed, pick);
    case TakeResumes(w, timedOut, pick) => TakeResumeCounted(s, w, s.workers[w].timed, timedOut, pick);
    case WorkerWakes(w) => MoveWorker(s.workers, w, WakeWorker(s.workers[w]));
    case TaskDone(w) => MoveWorker(s.workers, w, Ready);
    case ExitCall(w) => ExitCounted(s, w);
  }

  // ---------------------------------------------------------------- the tasks

  function TasksOf<T>(removed: seq<Removal<T>>): (tasks: seq<T>)
    ensures |tasks| == |removed|
  {
    seq(|removed|, i requires 0 <= i < |removed| => removed[i].task)
  }

  /** Tasks leave in the order they were accepted and none is lost; the queue is bounded. */
  ghost predicate InOrder<T>(s: State<T>) {
    && s.accepted == TasksOf(s.removed) + s.f.queue
    && (s.f.high > 0 ==> |s.f.queue| <= s.f.high)
  }

  ghost predicate Holds<T>(s: State<T>, w: Id, k: nat) {
    w in s.workers && s.workers[w] == Working(k)
  }

  /** Who has which task. A taken task is in the hands of the worker that took it, or was
      finished, or was abandoned by a worker that aborted: exactly one of the three. */
  ghost predicate Custody<T>(s: State<T>) {
    && (forall w, k: nat | Holds(s, w, k) ::
          k < |s.removed| && s.removed[k].Taken? && s.removed[k].worker == w
          && k !in s.finished && k !in s.abandoned)
    && (forall k | 0 <= k < |s.removed| && s.removed[k].Taken? ::
          k in s.finished || k in s.abandoned || Holds(s, s.removed[k].worker, k))
    && (forall k | k in s.finished + s.abandoned :: k < |s.removed| && s.removed[k].Taken?)
    && s.finished !! s.abandoned
  }

  lemma ClientStepInOrder<T>(s: State<T>, c: Id, op: ClientOp<T>, resuming: bool, pick: Option<Id>)
    requires InOrder(s)
    requires PickOk(WorkersAsleep(s.workers), ClientSectionOf(s.f, op, resuming).wcond, pick)
    ensures InOrder(ClientStep(s, c, op, ClientSectionOf(s.f, op, resuming), pick))
  {
    var t := ClientStep(s, c, op, ClientSectionOf(s.f, op, resuming), pick);
    if op.Put? && op.flush && t.accepted != s.accepted {
      assert TasksOf(t.removed) == TasksOf(s.removed) + s.f.queue;
    }
  }

  lemma WorkerStepInOrder<T>(s: State<T>, w: Id, timed: bool, r: WorkerSection<T>, pick: Option<Id>)
    requires InOrder(s) && s.f.low >= 1
    requires PickOk(ClientsAsleep(s.clients), r.ccond, pick)
    requires r == TakeEntry(s.f) || exists timedOut :: r == TakeResume(s.f, timedOut)
    ensures InOrder(WorkerStep(s, w, timed, r, pick))
  {
    var t := WorkerStep(s, w, timed, r, pick);
    if r.exit.Got? {
      assert TasksOf(t.removed) == TasksOf(s.removed) + [s.f.queue[0]];
    }
  }

  lemma InOrderStep<T>(s: State<T>, e: Event<T>)
    requires InOrder(s) && s.f.low >= 1 && Enabled(s, e)
    ensures InOrder(Next(s, e))
  {
    match e
    case PutCall(c, task, flush, pick) => ClientStepInOrder(s, c, Put(task, flush), false, pick);
    case IdleCall(c) => ClientStepInOrder(s, c, Idle, false, None);
    case TerminateCall(c) => ClientStepInOrder(s, c, Terminate, false, None);
    case ClientResume(c, pick) => ClientStepInOrder(s, c, s.clients[c].op, true, pick);
    case TakeCall(w, timed, pick) => WorkerStepInOrder(s, w, timed, TakeEntry(s.f), pick);
    case TakeResumes(w, timedOut, pick) =>
      WorkerStepInOrder(s, w, s.workers[w].timed, TakeResume(s.f, timedOut), pick);
    case _ =>
  }

  /** Only steps of w's own thread change whether w is working, on what, or has stopped. */
  lemma NotifyKeepsHolds<T>(s: State<T>, n: Notify, pick: Option<Id>)
    requires PickOk(WorkersAsleep(s.workers), n, pick)
    ensures var t := s.(workers := NotifyWorkers(s.workers, n, pick));
            forall w, k :: Holds(t, w, k) == Holds(s, w, k)
  {
  }

  lemma ClientStepCustody<T>(s: State<T>, c: Id, op: ClientOp<T>, resuming: bool, pick: Option<Id>)
    requires Counted(s) && Custody(s)
    requires PickOk(WorkersAsleep(s.workers), ClientSectionOf(s.f, op, resuming).wcond, pick)
    ensures Custody(ClientStep(s, c, op, ClientSectionOf(s.f, op, resuming), pick))
  {
    var r := ClientSectionOf(s.f, op, resuming);
    var t := ClientStep(s, c, op, r, pick);
    ClientSectionFields(s.f, op, resuming);
    if Resets(op, r) {
      AllExited(s);
      assert forall w, k :: !Holds(t, w, k) && !Holds(s, w, k);
    } else {
      NotifyKeepsHolds(s, r.wcond, pick);
      assert forall w, k :: Holds(t, w, k) == Holds(s, w, k);
    }
  }

  lemma WorkerStepCustody<T>(s: State<T>, w: Id, timed: bool, r: WorkerSection<T>, pick: Option<Id>)
    requires Custody(s) && w in s.workers && !s.workers[w].Working?
    requires PickOk(ClientsAsleep(s.clients), r.ccond, pick)
    ensures Custody(WorkerStep(s, w, timed, r, pick))
  {
    var t := WorkerStep(s, w, timed, r, pick);
    if r.exit.Got? {
      assert t.removed == s.removed + [Taken(r.exit.task, w)];
    }
    WorkerMovesCustody(s, t, w);
  }

  /** Nobody takes or lets go of a task. */
  lemma SameHoldsCustody<T>(s: State<T>, t: State<T>)
    requires Custody(s)
    requires t.removed == s.removed && t.finished == s.finished && t.abandoned == s.abandoned
    requires forall w, k :: Holds(t, w, k) == Holds(s, w, k)
    ensures Custody(t)
  {
  }

  lemma StartCustody<T>(s: State<T>, ids: set<Id>)
    requires Custody(s) && s.f.low >= 1 && Enabled(s, StartWorkers(ids))
    ensures Custody(Next(s, StartWorkers(ids)))
  {
    hide Custody;
    SameHoldsCustody(s, Next(s, StartWorkers(ids)));
  }

  lemma QuietCustody<T>(s: State<T>, e: Event<T>)
    requires Custody(s) && s.f.low >= 1 && Enabled(s, e) && (e.CloseShop? || e.ClientWakes?)
    ensures Custody(Next(s, e))
  {
    hide Custody;
    assert Next(s, e).workers == s.workers;
    SameHoldsCustody(s, Next(s, e));
  }

  lemma OtherCustody<T>(s: State<T>, e: Event<T>)
    requires Custody(s) && s.f.low >= 1 && Enabled(s, e)
    requires e.WorkerWakes? || e.TaskDone? || e.ExitCall?
    ensures Custody(Next(s, e))
  {
    hide Custody;
    var t := Next(s, e);
    if e.WorkerWakes? {
      WorkerMovesCustody(s, t, e.w);
    } else {
      TaskEndsCustody(s, t, e.w);
    }
  }

  lemma CustodyStep<T>(s: State<T>, e: Event<T>)
    requires Counted(s) && Custody(s) && Enabled(s, e)
    ensures Custody(Next(s, e))
  {
    match e
    case PutCall(c, task, flush, pick) => ClientStepCustody(s, c, Put(task, flush), false, pick);
    case IdleCall(c) => ClientStepCustody(s, c, Idle, false, None);
    case TerminateCall(c) => ClientStepCustody(s, c, Terminate, false, None);
    case ClientResume(c, pick) => ClientStepCustody(s, c, s.clients[c].op, true, pick);
    case TakeCall(w, timed, pick) => WorkerStepCustody(s, w, timed, TakeEntry(s.f), pick);
    case TakeResumes(w, timedOut, pick) =>
      WorkerStepCustody(s, w, s.workers[w].timed, TakeResume(s.f, timedOut), pick);
    case WorkerWakes(w) => OtherCustody(s, e);
    case TaskDone(w) => OtherCustody(s, e);
    case ExitCall(w) => OtherCustody(s, e);
    case StartWorkers(ids) => StartCustody(s, ids);
    case _ => QuietCustody(s, e);
  }

  /** A worker that held nothing moves, and either takes one task or none. */
  lemma WorkerMovesCustody<T>(s: State<T>, t: State<T>, w: Id)
    requires Custody(s) && w in s.workers && !s.workers[w].Working?
    requires w in t.workers && t.workers == s.workers[w := t.workers[w]]
    requires t.finished == s.finished && t.abandoned == s.abandoned
    requires if t.workers[w].Working? then
               t.workers[w].k == |s.removed| &&
               exists task :: t.removed == s.removed + [Taken(task, w)]
             else t.removed == s.removed
    ensures Custody(t)
  {
    assert forall v, k | v != w :: Holds(t, v, k) == Holds(s, v, k);
    assert forall k :: !Holds(s, w, k);
  }

  /** A worker lets go of the task it held: finished, or abandoned by an abort. */
  lemma TaskEndsCustody<T>(s: State<T>, t: State<T>, w: Id)
    requires Custody(s) && w in s.workers
    requires w in t.workers && t.workers == s.workers[w := t.workers[w]] && !t.workers[w].Working?
    requires t.removed == s.removed
    requires if s.workers[w].Working? then
               (t.finished == s.finished + {s.workers[w].k} && t.abandoned == s.abandoned) ||
               (t.finished == s.finished && t.abandoned == s.abandoned + {s.workers[w].k})
             else t.finished == s.finished && t.abandoned == s.abandoned
    ensures Custody(t)
  {
    assert forall v, k | v != w :: Holds(t, v, k) == Holds(s, v, k);
    assert forall k :: !Holds(t, w, k);
    if s.workers[w].Working? {
      assert Holds(s, w, s.workers[w].k);
    }
    forall k | 0 <= k < |t.removed| && t.removed[k].Taken?
      ensures k in t.finished || k in t.abandoned || Holds(t, t.removed[k].worker, k)
    {
      assert k in s.finished || k in s.abandoned || Holds(s, s.removed[k].worker, k);
    }
  }

  // ---------------------------------------------------------------- over every run

  ghost predicate Safe<T>(s: State<T>) {
    Counted(s) && InOrder(s) && Custody(s)
  }

  lemma InitSafe<T>(high: nat, low: nat, clients: set<Id>)
    requires low >= 1 && |clients| < UINT_RANGE
    ensures Safe<T>(Init(high, low, clients))
  {
    var s := Init<T>(high, low, clients);
    assert s.clients.Keys == clients;
    assert |s.clients| == |s.clients.Keys|;
    assert ClientsInWait(s.clients) == {} && WorkersInWait(s.workers) == {} && WorkersExited(s.workers) == {};
    OwesAll(0);
  }

  lemma {:induction false} RunSafe<T>(s: State<T>, events: seq<Event<T>>, t: State<T>)
    requires Safe(s) && Run(s, events, t)
    ensures Safe(t)
    decreases |events|
  {
    if events != [] {
      CountedStep(s, events[0]);
      InOrderStep(s, events[0]);
      CustodyStep(s, events[0]);
      RunSafe(Next(s, events[0]), events[1..], t);
    }
  }

  /** The invariants hold in every reachable state. */
  lemma ReachableSafe<T(!new)>(high: nat, low: nat, s: State<T>)
    requires low >= 1 && Reachable(high, low, s)
    ensures Safe(s)
  {
    var clients: set<Id>, events: seq<Event<T>> :|
      |clients| < UINT_RANGE && Run(Init(high, low, clients), events, s);
    InitSafe<T>(high, low, clients);
    RunSafe(Init(high, low, clients), events, s);
  }

  /** What has been accepted or removed stays so: later steps only append. */
  ghost predicate Extends<T>(s: State<T>, t: State<T>) {
    s.accepted <= t.accepted && s.removed <= t.removed && s.finished <= t.finished && s.abandoned <= t.abandoned
  }

  lemma StepExtends<T>(s: State<T>, e: Event<T>)
    requires s.f.low >= 1 && Enabled(s, e)
    ensures Extends(s, Next(s, e))
  {
    match e
    case StartWorkers(ids) =>
    case PutCall(c, task, flush, pick) =>
    case ClientResume(c, pick) =>
    case TakeCall(w, timed, pick) =>
    case TakeResumes(w, timedOut, pick) =>
    case _ =>
  }

  lemma {:induction false} HistoryGrows<T>(s: State<T>, events: seq<Event<T>>, t: State<T>)
    requires s.f.low >= 1 && Run(s, events, t)
    ensures Extends(s, t)
    decreases |events|
  {
    if events != [] {
      StepExtends(s, events[0]);
      HistoryGrows(Next(s, events[0]), events[1..], t);
    }
  }

  /** No task is delivered twice: each removed task is in the hands of one worker at most. */
  lemma HeldByOne<T(!new)>(high: nat, low: nat, s: State<T>, v: Id, w: Id, k: nat)
    requires low >= 1 && Reachable(high, low, s) && Holds(s, v, k) && Holds(s, w, k)
    ensures v == w && k < |s.removed| && s.removed[k].Taken?
  {
    ReachableSafe(high, low, s);
  }

  /** ... and a task that was finished, abandoned or flushed is never held again. */
  lemma NeverHeldAgain<T(!new)>(high: nat, low: nat, s: State<T>, events: seq<Event<T>>, t: State<T>, w: Id, k: nat)
    requires low >= 1 && s.f.low >= 1 && Reachable(high, low, s) && Run(s, events, t) && k < |s.removed|
    requires s.removed[k].Flushed? || k in s.finished || k in s.abandoned
    ensures s.removed <= t.removed && !Holds(t, w, k)
  {
    ReachableSafe(high, low, s);
    RunSafe(s, events, t);
    HistoryGrows(s, events, t);
    assert t.removed[k] == s.removed[k];
  }

  /** waitIdle that returns true leaves an idle queue: nothing queued, no worker holds a task,
      and every task accepted so far was flushed, or finished by the worker that took it, or
      abandoned by a worker that aborted. */
  lemma WaitIdleMeansIdle<T>(s: State<T>, c: Id, resuming: bool)
    requires Safe(s) && c in s.clients
    requires ClientSectionOf(s.f, Idle, resuming).exit == Returns(true)
    ensures s.f.queue == [] && |s.removed| == |s.accepted|
    ensures forall w | w in s.workers :: InWait(s.workers[w])
    ensures forall k | 0 <= k < |s.accepted| ::
              s.removed[k].task == s.accepted[k] &&
              (s.removed[k].Flushed? || k in s.finished || k in s.abandoned)
  {
    PopulationBounds(s);
    SubsetSize(WorkersInWait(s.workers), s.workers.Keys);
    forall w | w in s.workers ensures InWait(s.workers[w]) {
      assert w in WorkersInWait(s.workers);
    }
    assert TasksOf(s.removed) == s.accepted;
    forall k | 0 <= k < |s.accepted| && s.removed[k].Taken?
      ensures k in s.finished || k in s.abandoned
    {
      assert !Holds(s, s.removed[k].worker, k);
    }
  }
}
