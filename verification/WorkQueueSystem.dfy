/** WorkQueue as a protocol: any number of client threads and worker threads interleaving
    the locked sections of WorkQueueMonitor.

    A thread inside a condition variable wait is either asleep (not notified yet) or woken
    (notified, timed out or woken spuriously, but not holding the mutex yet). Everything
    the scheduler or the C++ library is free to choose is a parameter of the event: which
    sleeping thread notify_one picks, whether a timed wait reports a timeout, and when a
    sleeping thread wakes for no reason. */
module WorkQueueSystem {
  import opened Options
  import opened WorkQueueMonitor

  type Id = nat

  /** The call a client is in. */
  datatype ClientOp<T> = Put(task: T, flush: bool) | Idle | Terminate

  datatype ClientPc<T> = Out | Waiting(op: ClientOp<T>, asleep: bool)

  /** Ready: about to call take. Working(k): processing the k-th removed task.
      Failed: take returned false, workerExit comes next. Exited: workerExit was called. */
  datatype WorkerPc = Ready | Working(k: nat) | Asleep(timed: bool) | Woken(timed: bool) | Failed | Exited

  /** How a task left the queue. */
  datatype Removal<T> = Taken(task: T, worker: Id) | Flushed(task: T)

  datatype State<T> = State(
    f: Fields<T>,
    clients: map<Id, ClientPc<T>>,
    workers: map<Id, WorkerPc>,
    // history
    accepted: seq<T>,             // tasks for which put went through, in order
    removed: seq<Removal<T>>,     // tasks that left the queue, in order
    finished: set<nat>,           // positions in removed that a worker finished
    abandoned: set<nat>,          // positions in removed dropped by a worker that aborted
    terminating: bool,            // between the start of setTerminateAndWait and its reset
    debt: nat)                    // other clients inside a wait at the last reset

  datatype Event<T> =
    | StartWorkers(ids: set<Id>)
    | CloseShop
    | PutCall(c: Id, task: T, flush: bool, pick: Option<Id>)
    | IdleCall(c: Id)
    | TerminateCall(c: Id)
    | ClientResume(c: Id, pick: Option<Id>)
    | ClientWakes(c: Id)                                    // spurious
    | TakeCall(w: Id, timed: bool, pick: Option<Id>)
    | TakeResumes(w: Id, timedOut: bool, pick: Option<Id>)
    | WorkerWakes(w: Id)                                    // spurious, or the timer
    | TaskDone(w: Id)
    | ExitCall(w: Id)

  // ---------------------------------------------------------------- thread populations

  function ClientsInWait<T>(clients: map<Id, ClientPc<T>>): set<Id> {
    set c | c in clients && clients[c].Waiting?
  }

  function ClientsAsleep<T>(clients: map<Id, ClientPc<T>>): set<Id> {
    set c | c in clients && clients[c].Waiting? && clients[c].asleep
  }

  function WorkersInWait(workers: map<Id, WorkerPc>): set<Id> {
    set w | w in workers && (workers[w].Asleep? || workers[w].Woken?)
  }

  function WorkersAsleep(workers: map<Id, WorkerPc>): set<Id> {
    set w | w in workers && workers[w].Asleep?
  }

  function WorkersExited(workers: map<Id, WorkerPc>): set<Id> {
    set w | w in workers && workers[w].Exited?
  }

  // ---------------------------------------------------------------- condition variables

  function WakeWorker(pc: WorkerPc): WorkerPc {
    if pc.Asleep? then Woken(pc.timed) else pc
  }

  function WakeClient<T>(pc: ClientPc<T>): ClientPc<T> {
    if pc.Waiting? then pc.(asleep := false) else pc
  }

  /** A notify_one picks a sleeping thread when there is one. */
  predicate PickOk(asleep: set<Id>, n: Notify, pick: Option<Id>) {
    if n == One && asleep != {} then pick.Some? && pick.value in asleep else pick.None?
  }

  function NotifyWorkers(workers: map<Id, WorkerPc>, n: Notify, pick: Option<Id>): map<Id, WorkerPc>
    requires PickOk(WorkersAsleep(workers), n, pick)
  {
    if n == All then map w | w in workers :: WakeWorker(workers[w])
    else if pick.Some? then workers[pick.value := WakeWorker(workers[pick.value])]
    else workers
  }

  function NotifyClients<T>(clients: map<Id, ClientPc<T>>, n: Notify, pick: Option<Id>): map<Id, ClientPc<T>>
    requires PickOk(ClientsAsleep(clients), n, pick)
  {
    if n == All then map c | c in clients :: WakeClient(clients[c])
    else if pick.Some? then clients[pick.value := WakeClient(clients[pick.value])]
    else clients
  }

  // ---------------------------------------------------------------- steps

  function ClientSectionOf<T>(f: Fields<T>, op: ClientOp<T>, resuming: bool): (r: ClientSection<T>)
    ensures r.fields.low == f.low && r.fields.high == f.high
  {
    match op
    case Put(task, flush) => if resuming then PutResume(f, task, flush) else PutEntry(f, task, flush)
    case Idle => if resuming then IdleResume(f) else IdleEntry(f)
    case Terminate => if resuming then TerminateResume(f) else TerminateEntry(f)
  }

  function AllFlushed<T>(queue: seq<T>): (r: seq<Removal<T>>)
    ensures |r| == |queue|
  {
    seq(|queue|, i requires 0 <= i < |queue| => Flushed(queue[i]))
  }

  /** A section of client c in call op: the fields, c's own state, the workers it notified,
      and the history. */
  function ClientStep<T>(s: State<T>, c: Id, op: ClientOp<T>, r: ClientSection<T>, pick: Option<Id>): (t: State<T>)
    requires PickOk(WorkersAsleep(s.workers), r.wcond, pick)
    ensures t.f == r.fields
  {
    var pushed := op.Put? && r.exit == Returns(true);
    var wasReset := op.Terminate? && r.exit == Returns(true);
    var others := ClientsInWait(s.clients) - {c};
    s.(f := r.fields,
       clients := s.clients[c := if r.exit.Sleeps? then Waiting(op, true) else Out],
       workers := if wasReset then map[] else NotifyWorkers(s.workers, r.wcond, pick),
       accepted := if pushed then s.accepted + [op.task] else s.accepted,
       removed := if pushed && op.flush then s.removed + AllFlushed(s.f.queue) else s.removed,
       terminating := if op.Terminate? && r.exit.Sleeps? && !r.fields.okFlag then true
                      else if wasReset then false else s.terminating,
       debt := if wasReset then |others| else s.debt)
  }

  function WorkerPcAfter<T>(exit: TakeExit<T>, timed: bool, removals: nat): WorkerPc {
    match exit
    case TakeSleeps => Asleep(timed)
    case TakeFails => Failed
    case NoTask => Ready
    case Got(_) => Working(removals)
  }

  function WorkerStep<T>(s: State<T>, w: Id, timed: bool, r: WorkerSection<T>, pick: Option<Id>): (t: State<T>)
    requires PickOk(ClientsAsleep(s.clients), r.ccond, pick)
    ensures t.f == r.fields
  {
    s.(f := r.fields,
       clients := NotifyClients(s.clients, r.ccond, pick),
       workers := s.workers[w := WorkerPcAfter(r.exit, timed, |s.removed|)],
       removed := if r.exit.Got? then s.removed + [Taken(r.exit.task, w)] else s.removed)
  }

  function ExitStep<T>(s: State<T>, w: Id): State<T>
    requires w in s.workers
  {
    s.(f := WorkerExit(s.f),
       clients := NotifyClients(s.clients, All, None),
       workers := s.workers[w := Exited],
       abandoned := if s.workers[w].Working? then s.abandoned + {s.workers[w].k} else s.abandoned)
  }

  predicate ClientIdle<T>(s: State<T>, c: Id) {
    c in s.clients && s.clients[c].Out?
  }

  predicate ClientWoken<T>(s: State<T>, c: Id) {
    c in s.clients && s.clients[c].Waiting? && !s.clients[c].asleep
  }

  predicate Enabled<T>(s: State<T>, e: Event<T>)
    requires s.f.low >= 1
  {
    match e
    case StartWorkers(ids) => ids !! s.workers.Keys && |s.workers| + |ids| < UINT_RANGE
    case CloseShop => true
    case PutCall(c, task, flush, pick) =>
      ClientIdle(s, c) && PickOk(WorkersAsleep(s.workers), PutEntry(s.f, task, flush).wcond, pick)
    case IdleCall(c) => ClientIdle(s, c)
    case TerminateCall(c) => ClientIdle(s, c)
    case ClientResume(c, pick) =>
      ClientWoken(s, c) &&
      PickOk(WorkersAsleep(s.workers), ClientSectionOf(s.f, s.clients[c].op, true).wcond, pick)
    case ClientWakes(c) => c in ClientsAsleep(s.clients)
    case TakeCall(w, timed, pick) =>
      w in s.workers && s.workers[w].Ready? && PickOk(ClientsAsleep(s.clients), TakeEntry(s.f).ccond, pick)
    case TakeResumes(w, timedOut, pick) =>
      w in s.workers && s.workers[w].Woken? && (timedOut ==> s.workers[w].timed) &&
      PickOk(ClientsAsleep(s.clients), TakeResume(s.f, timedOut).ccond, pick)
    case WorkerWakes(w) => w in WorkersAsleep(s.workers)
    case TaskDone(w) => w in s.workers && s.workers[w].Working?
    case ExitCall(w) => w in s.workers && (s.workers[w].Failed? || s.workers[w].Working?)
  }

  function Next<T>(s: State<T>, e: Event<T>): (t: State<T>)
    requires s.f.low >= 1 && Enabled(s, e)
    ensures t.f.low == s.f.low && t.f.high == s.f.high
  {
    match e
    case StartWorkers(ids) =>
      s.(f := s.f.(threads := s.f.threads + |ids|), workers := s.workers + (map w | w in ids :: Ready))
    case CloseShop => s.(f := s.f.(open := false))
    case PutCall(c, task, flush, pick) =>
      ClientStep(s, c, Put(task, flush), ClientSectionOf(s.f, Put(task, flush), false), pick)
    case IdleCall(c) => ClientStep(s, c, Idle, ClientSectionOf(s.f, Idle, false), None)
    case TerminateCall(c) => ClientStep(s, c, Terminate, ClientSectionOf(s.f, Terminate, false), None)
    case ClientResume(c, pick) =>
      ClientStep(s, c, s.clients[c].op, ClientSectionOf(s.f, s.clients[c].op, true), pick)
    case ClientWakes(c) => s.(clients := s.clients[c := WakeClient(s.clients[c])])
    case TakeCall(w, timed, pick) => WorkerStep(s, w, timed, TakeEntry(s.f), pick)
    case TakeResumes(w, timedOut, pick) =>
      WorkerStep(s, w, s.workers[w].timed, TakeResume(s.f, timedOut), pick)
    case WorkerWakes(w) => s.(workers := s.workers[w := WakeWorker(s.workers[w])])
    case TaskDone(w) =>
      s.(workers := s.workers[w := Ready], finished := s.finished + {s.workers[w].k})
    case ExitCall(w) => ExitStep(s, w)
  }

  // ---------------------------------------------------------------- runs

  /** A new queue, and the client threads that will use it. */
  function Init<T>(high: nat, low: nat, clients: set<Id>): State<T> {
    State(Fields(high, low, [], true, true, 0, 0, 0, 0), map c | c in clients :: Out, map[],
          [], [], {}, {}, false, 0)
  }

  /** The events can happen from s, and end in t. */
  predicate Run<T(==)>(s: State<T>, events: seq<Event<T>>, t: State<T>)
    requires s.f.low >= 1
    decreases |events|
  {
    if events == [] then s == t
    else Enabled(s, events[0]) && Run(Next(s, events[0]), events[1..], t)
  }

  ghost predicate Reachable<T(!new)>(high: nat, low: nat, s: State<T>)
    requires low >= 1
  {
    exists clients: set<Id>, events: seq<Event<T>> ::
      |clients| < UINT_RANGE && Run(Init(high, low, clients), events, s)
  }

  lemma RunCons<T>(s: State<T>, e: Event<T>, events: seq<Event<T>>, t: State<T>)
    requires s.f.low >= 1 && Enabled(s, e) && Run(Next(s, e), events, t)
    ensures Run(s, [e] + events, t)
  {
    assert ([e] + events)[1..] == events;
  }

  lemma {:induction false} RunOneMore<T>(s: State<T>, events: seq<Event<T>>, t: State<T>, e: Event<T>)
    requires s.f.low >= 1 && t.f.low >= 1 && Run(s, events, t) && Enabled(t, e)
    ensures Run(s, events + [e], Next(t, e))
    decreases |events|
  {
    hide Next, Enabled;
    if events == [] {
      assert [e][1..] == [];
    } else {
      assert (events + [e])[1..] == events[1..] + [e];
      RunOneMore(Next(s, events[0]), events[1..], t, e);
    }
  }
}
