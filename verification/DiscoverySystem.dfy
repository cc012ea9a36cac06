/** The discovery directory as a protocol. One explorer thread takes tasks from the queue and updates
    the device pool; user threads register and remove callbacks and expire devices. Two mutexes, one
    for the pool and one for the callback vectors, are taken in nested sections; every step is what a
    thread does between two points where another thread can come in. What a thread finds when it
    takes a task, and what its visitor answers, is a parameter of the event. */
module DiscoverySystem {
  import opened Options
  import opened DeviceDescription

  type Actor = nat

  const EXPLORER: Actor := 0

  /** A task, with its description document already parsed; device.ok is the verdict. */
  datatype Task = Alive(deviceId: string, device: DeviceDesc, expires: int) | Byebye(deviceId: string)

  /** DeviceDescriptor, with times in seconds. The number is history: it tells the entries that were ever
      stored from each other, even for the same description. */
  datatype Entry = Entry(device: DeviceDesc, lastSeen: int, expires: int, number: nat)

  type Pool = map<string, Entry>

  /** A registered callback; a steady one always returns true. */
  datatype Registration = Registration(id: nat, steady: bool)

  /** Where a thread is. Thus `ByeLooked` holds the pool mutex and is about to take the other one. */
  datatype Pc =
    | Idle
    | ByeTaken(id: string)
    | ByeLooked(id: string)                                                       // pool
    | ByeTelling(id: string, told: nat)                                           // pool, callbacks
    | Parsed(id: string, entry: Entry)
    | Stored(id: string, entry: Entry)
    | Announcing(id: string, entry: Entry, done: nat)                             // callbacks
    | Registered(reg: Registration)                                               // callbacks
    | Traversing(reg: Registration, todo: set<string>)                            // pool, callbacks
    | ExpiryAsked
    | Expiring(now: int, before: Pool, todo: set<string>)                         // pool
    | ExpiryLooked(now: int, before: Pool, todo: set<string>, id: string)         // pool
    | ExpiryTelling(now: int, before: Pool, todo: set<string>, id: string, told: nat) // pool, callbacks
    | ExpiryTold(now: int, before: Pool, todo: set<string>, id: string, toldIds: seq<nat>) // pool

  predicate HoldsPool(pc: Pc) {
    pc.ByeLooked? || pc.ByeTelling? || pc.Traversing? || pc.Expiring? || pc.ExpiryLooked? ||
    pc.ExpiryTelling? || pc.ExpiryTold?
  }

  predicate HoldsCallbacks(pc: Pc) {
    pc.ByeTelling? || pc.Announcing? || pc.Registered? || pc.Traversing? || pc.ExpiryTelling?
  }

  /** What happened to a device id. */
  datatype Change = Seen(id: string, entry: Entry) | Gone(id: string) | Expired(id: string)

  /** A complete visit of an entry of the pool by a registered callback. */
  datatype Visit = Visit(reg: nat, id: string, entry: Entry)

  /** A device taken out of the pool, and the lost callbacks told before that. */
  datatype Removal = Removal(device: DeviceDesc, told: seq<nat>)

  datatype State = State(
    queue: seq<Task>,
    pool: Pool,
    callbacks: seq<Registration>,
    lost: seq<Registration>,
    poolLock: Option<Actor>,
    callbacksLock: Option<Actor>,
    threads: map<Actor, Pc>,
    // history
    nextId: nat,                          // the next registration's number
    accepted: seq<Task>,                  // tasks put on the queue
    taken: seq<Task>,                     // tasks taken by the explorer...
    times: seq<int>,                      // ... and when
    changes: seq<Change>,
    stores: nat,                          // the number of the next entry stored
    shown: set<Visit>,                    // complete visits
    lostShown: seq<(nat, DeviceDesc)>,    // visits by lost callbacks, in order
    removed: seq<Removal>)

  const START := State([], map[], [], [], None, None, map[], 0, [], [], [], [], 0, {}, [], [])

  function At(s: State, a: Actor): Pc {
    if a in s.threads then s.threads[a] else Idle
  }

  function Moved(s: State, a: Actor, pc: Pc): State {
    s.(threads := s.threads[a := pc])
  }

  datatype Event =
    | Put(task: Task)
    | Take(now: int)
    | LookForBye                       // takes the pool
    | LockForBye                       // takes the callbacks
    | TellBye
    | EraseBye                         // releases both
    | Store                            // takes and releases the pool
    | LockToAnnounce                   // takes the callbacks
    | Announce(answer: bool)
    | EndAnnounce                      // releases the callbacks
    | AddCallback(a: Actor, steady: bool)  // takes the callbacks
    | StartTraverse(a: Actor)          // takes the pool
    | Traverse(a: Actor, id: string, answer: bool)
    | EndTraverse(a: Actor)            // releases both
    | DelCallback(index: nat)          // takes and releases the callbacks
    | AddLostCallback(steady: bool)
    | DelLostCallback(index: nat)
    | AskExpiry(a: Actor)
    | StartExpiry(a: Actor, now: int)  // takes the pool
    | Check(a: Actor, id: string)
    | LockForExpiry(a: Actor)          // takes the callbacks
    | TellExpiry(a: Actor)
    | EndTelling(a: Actor)             // releases the callbacks
    | EraseExpired(a: Actor)
    | EndExpiry(a: Actor)              // releases the pool

  /** The thread that acts; tasks are put, and vectors edited, by any thread. */
  function ActorOf(e: Event): Actor {
    match e
    case AddCallback(a, _) => a
    case StartTraverse(a) => a
    case Traverse(a, _, _) => a
    case EndTraverse(a) => a
    case AskExpiry(a) => a
    case StartExpiry(a, _) => a
    case Check(a, _) => a
    case LockForExpiry(a) => a
    case TellExpiry(a) => a
    case EndTelling(a) => a
    case EraseExpired(a) => a
    case EndExpiry(a) => a
    case _ => EXPLORER
  }

  /** Not seen for longer than its lifetime. */
  predicate Old(e: Entry, now: int) {
    now - e.lastSeen > e.expires
  }

  predicate Enabled(s: State, e: Event) {
    var pc := At(s, ActorOf(e));
    match e
    case Put(_) => true
    case Take(_) => pc.Idle? && s.queue != []
    case LookForBye => pc.ByeTaken? && s.poolLock.None?
    case LockForBye => pc.ByeLooked? && s.callbacksLock.None?
    case TellBye => pc.ByeTelling? && pc.told < |s.lost| && pc.id in s.pool
    case EraseBye => pc.ByeTelling? && pc.told >= |s.lost| && pc.id in s.pool
    case Store => pc.Parsed? && s.poolLock.None?
    case LockToAnnounce => pc.Stored? && s.callbacksLock.None?
    case Announce(answer) =>
      pc.Announcing? && pc.done < |s.callbacks| && (s.callbacks[pc.done].steady ==> answer)
    case EndAnnounce => pc.Announcing? && pc.done >= |s.callbacks|
    case AddCallback(a, _) => a != EXPLORER && pc.Idle? && s.callbacksLock.None?
    case StartTraverse(_) => pc.Registered? && s.poolLock.None?
    case Traverse(_, id, answer) => pc.Traversing? && id in pc.todo && id in s.pool && (pc.reg.steady ==> answer)
    case EndTraverse(_) => pc.Traversing? && pc.todo == {}
    case DelCallback(_) => s.callbacksLock.None?
    case AddLostCallback(_) => s.callbacksLock.None?
    case DelLostCallback(_) => s.callbacksLock.None?
    case AskExpiry(_) => pc.Idle?
    case StartExpiry(_, _) => pc.ExpiryAsked? && s.poolLock.None?
    case Check(_, id) => pc.Expiring? && id in pc.todo && id in s.pool
    case LockForExpiry(_) => pc.ExpiryLooked? && s.callbacksLock.None?
    case TellExpiry(_) => pc.ExpiryTelling? && pc.told < |s.lost| && pc.id in s.pool
    case EndTelling(_) => pc.ExpiryTelling? && pc.told >= |s.lost|
    case EraseExpired(_) => pc.ExpiryTold? && pc.id in s.pool
    case EndExpiry(_) => pc.Expiring? && pc.todo == {}
  }

  function Ids(regs: seq<Registration>): seq<nat> {
    seq(|regs|, i requires 0 <= i < |regs| => regs[i].id)
  }

  function Without<A>(xs: seq<A>, index: nat): seq<A> {
    if index < |xs| then xs[..index] + xs[index + 1..] else xs
  }

  /** The entry as it is stored. */
  function Numbered(s: State, entry: Entry): Entry {
    entry.(number := s.stores)
  }

  /** The explorer's steps. */
  function ExplorerStep(s: State, e: Event): State
    requires Enabled(s, e)
  {
    var pc := At(s, EXPLORER);
    match e
    case Take(now) =>
      var task := s.queue[0];
      Moved(s.(queue := s.queue[1..], taken := s.taken + [task], times := s.times + [now]), EXPLORER,
            match task
            case Byebye(id) => ByeTaken(id)
            case Alive(id, device, expires) =>
              if device.ok then Parsed(id, Entry(device, now, expires, 0)) else Idle)
    case LookForBye =>
      if pc.id in s.pool then Moved(s.(poolLock := Some(EXPLORER)), EXPLORER, ByeLooked(pc.id))
      else Moved(s.(changes := s.changes + [Gone(pc.id)]), EXPLORER, Idle)
    case LockForBye => Moved(s.(callbacksLock := Some(EXPLORER)), EXPLORER, ByeTelling(pc.id, 0))
    case TellBye =>
      Moved(s.(lostShown := s.lostShown + [(s.lost[pc.told].id, s.pool[pc.id].device)]), EXPLORER,
            ByeTelling(pc.id, pc.told + 1))
    case EraseBye =>
      Moved(s.(pool := s.pool - {pc.id}, poolLock := None, callbacksLock := None,
               changes := s.changes + [Gone(pc.id)],
               removed := s.removed + [Removal(s.pool[pc.id].device, Ids(s.lost))]), EXPLORER, Idle)
    case Store =>
      var entry := Numbered(s, pc.entry);
      Moved(s.(pool := s.pool[pc.id := entry], changes := s.changes + [Seen(pc.id, entry)], stores := s.stores + 1),
            EXPLORER, Stored(pc.id, entry))
    case LockToAnnounce =>
      Moved(s.(callbacksLock := Some(EXPLORER)), EXPLORER, Announcing(pc.id, pc.entry, 0))
    case Announce(answer) =>
      var visits := if answer then {Visit(s.callbacks[pc.done].id, pc.id, pc.entry)} else {};
      Moved(s.(shown := s.shown + visits), EXPLORER, Announcing(pc.id, pc.entry, pc.done + 1))
    case EndAnnounce => Moved(s.(callbacksLock := None), EXPLORER, Idle)
    case _ => s
  }

  /** Registering callbacks. */
  function CallbackStep(s: State, e: Event): State
    requires Enabled(s, e)
  {
    match e
    case AddCallback(a, steady) =>
      var reg := Registration(s.nextId, steady);
      Moved(s.(callbacks := s.callbacks + [reg], nextId := s.nextId + 1, callbacksLock := Some(a)), a, Registered(reg))
    case StartTraverse(a) =>
      Moved(s.(poolLock := Some(a)), a, Traversing(At(s, a).reg, s.pool.Keys))
    case Traverse(a, id, answer) =>
      var pc := At(s, a);
      if answer then
        Moved(s.(shown := s.shown + {Visit(pc.reg.id, id, s.pool[id])}), a,
              Traversing(pc.reg, pc.todo - {id}))
      else
        Moved(s.(poolLock := None, callbacksLock := None), a, Idle)
    case EndTraverse(a) => Moved(s.(poolLock := None, callbacksLock := None), a, Idle)
    case DelCallback(index) => s.(callbacks := Without(s.callbacks, index))
    case AddLostCallback(steady) =>
      s.(lost := s.lost + [Registration(s.nextId, steady)], nextId := s.nextId + 1)
    case DelLostCallback(index) => s.(lost := Without(s.lost, index))
    case _ => s
  }

  /** expireDevices, by any thread. */
  function ExpiryStep(s: State, e: Event): State
    requires Enabled(s, e)
  {
    var a := ActorOf(e);
    var pc := At(s, a);
    match e
    case AskExpiry(_) => Moved(s, a, ExpiryAsked)
    case StartExpiry(_, now) => Moved(s.(poolLock := Some(a)), a, Expiring(now, s.pool, s.pool.Keys))
    case Check(_, id) =>
      Moved(s, a, if Old(s.pool[id], pc.now) then ExpiryLooked(pc.now, pc.before, pc.todo - {id}, id)
                  else Expiring(pc.now, pc.before, pc.todo - {id}))
    case LockForExpiry(_) =>
      Moved(s.(callbacksLock := Some(a)), a, ExpiryTelling(pc.now, pc.before, pc.todo, pc.id, 0))
    case TellExpiry(_) =>
      Moved(s.(lostShown := s.lostShown + [(s.lost[pc.told].id, s.pool[pc.id].device)]), a,
            ExpiryTelling(pc.now, pc.before, pc.todo, pc.id, pc.told + 1))
    case EndTelling(_) =>
      Moved(s.(callbacksLock := None), a, ExpiryTold(pc.now, pc.before, pc.todo, pc.id, Ids(s.lost)))
    case EraseExpired(_) =>
      Moved(s.(pool := s.pool - {pc.id}, changes := s.changes + [Expired(pc.id)],
               removed := s.removed + [Removal(s.pool[pc.id].device, pc.toldIds)]), a,
            Expiring(pc.now, pc.before, pc.todo))
    case EndExpiry(_) => Moved(s.(poolLock := None), a, Idle)
    case _ => s
  }

  predicate IsExplorerStep(e: Event) {
    e.Take? || e.LookForBye? || e.LockForBye? || e.TellBye? || e.EraseBye? || e.Store? ||
    e.LockToAnnounce? || e.Announce? || e.EndAnnounce?
  }

  predicate IsCallbackStep(e: Event) {
    e.AddCallback? || e.StartTraverse? || e.Traverse? || e.EndTraverse? || e.DelCallback? ||
    e.AddLostCallback? || e.DelLostCallback?
  }

  function Next(s: State, e: Event): State
    requires Enabled(s, e)
  {
    if e.Put? then s.(queue := s.queue + [e.task], accepted := s.accepted + [e.task])
    else if IsExplorerStep(e) then ExplorerStep(s, e)
    else if IsCallbackStep(e) then CallbackStep(s, e)
    else ExpiryStep(s, e)
  }

  predicate Run(s: State, events: seq<Event>, t: State)
    decreases |events|
  {
    if events == [] then s == t
    else Enabled(s, events[0]) && Run(Next(s, events[0]), events[1..], t)
  }

  ghost predicate Reachable(s: State) {
    exists events :: Run(START, events, s)
  }
}
