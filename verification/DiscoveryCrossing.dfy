/** The order in which the discovery directory takes its two mutexes. */
module DiscoveryCrossing {
  import opened Options
  import opened DeviceDescription
  import opened DiscoverySystem
  import opened DiscoverySafety
  import opened DiscoveryCoverage
  import opened DiscoveryHistory
  import opened DiscoveryTheorems

  ghost predicate Moves(s: State, a: Actor) {
    exists e :: IsOwn(e) && ActorOf(e) == a && Enabled(s, e)
  }

  predicate Holds(s: State, a: Actor) {
    HoldsPool(At(s, a)) || HoldsCallbacks(At(s, a))
  }

  /** One thread is removing a device, with the pool, and another is in addCallback, with the callbacks;
      each waits for the other's mutex. */
  predicate Crossed(s: State) {
    && s.poolLock.Some? && s.callbacksLock.Some?
    && (At(s, s.poolLock.value).ByeLooked? || At(s, s.poolLock.value).ExpiryLooked?)
    && At(s, s.callbacksLock.value).Registered?
  }

  /** What a thread inside a section does next. */
  ghost function StepOf(s: State, a: Actor): Event {
    match At(s, a)
    case ByeLooked(_) => LockForBye
    case ByeTelling(_, told) => if told < |s.lost| then TellBye else EraseBye
    case Announcing(_, _, done) => if done < |s.callbacks| then Announce(true) else EndAnnounce
    case Registered(_) => StartTraverse(a)
    case Traversing(_, todo) => if todo == {} then EndTraverse(a) else Traverse(a, Any(todo), true)
    case Expiring(_, _, todo) => if todo == {} then EndExpiry(a) else Check(a, Any(todo))
    case ExpiryLooked(_, _, _, _) => LockForExpiry(a)
    case ExpiryTelling(_, _, _, _, told) => if told < |s.lost| then TellExpiry(a) else EndTelling(a)
    case ExpiryTold(_, _, _, _, _) => EraseExpired(a)
    case _ => AskExpiry(a)
  }

  predicate IsExpiryPc(pc: Pc) {
    pc.Expiring? || pc.ExpiryLooked? || pc.ExpiryTelling? || pc.ExpiryTold?
  }

  lemma ExpiryCanStep(s: State, a: Actor)
    requires IsExpiryPc(At(s, a)) && PoolWorkOk(s, At(s, a))
    requires At(s, a).ExpiryLooked? ==> s.callbacksLock.None?
    ensures Enabled(s, StepOf(s, a)) && IsOwn(StepOf(s, a)) && ActorOf(StepOf(s, a)) == a
  {
    CondemnedInPool(s, At(s, a));
    hide PoolWorkOk;
  }

  lemma OtherCanStep(s: State, a: Actor)
    requires Holds(s, a) && !IsExpiryPc(At(s, a)) && (HoldsPool(At(s, a)) ==> PoolWorkOk(s, At(s, a)))
    requires IsExplorerPc(At(s, a)) ==> a == EXPLORER
    requires At(s, a).ByeLooked? ==> s.callbacksLock.None?
    requires At(s, a).Registered? ==> s.poolLock.None?
    ensures Enabled(s, StepOf(s, a)) && IsOwn(StepOf(s, a)) && ActorOf(StepOf(s, a)) == a
  {
  }

  /** A thread inside a section can go on, unless it needs the other mutex and that one is taken. */
  lemma HolderMoves(s: State, a: Actor)
    requires Safe(s) && Holds(s, a)
    requires At(s, a).ByeLooked? || At(s, a).ExpiryLooked? ==> s.callbacksLock.None?
    requires At(s, a).Registered? ==> s.poolLock.None?
    ensures Moves(s, a)
  {
    assert OwnLocks(s, a);
    assert a != EXPLORER ==> !IsExplorerPc(At(s, a));
    hide PoolWorkOk, Told, Follows, NoneMissed, Announces, WellNumbered, Locks, Roles, StepOf, Enabled, IsOwn, ActorOf;
    if IsExpiryPc(At(s, a)) {
      ExpiryCanStep(s, a);
    } else {
      OtherCanStep(s, a);
    }
  }

  ghost function Any(ids: set<string>): (id: string)
    requires ids != {}
    ensures id in ids
  {
    var id :| id in ids; id
  }

  lemma CondemnedInPool(s: State, pc: Pc)
    requires PoolWorkOk(s, pc)
    ensures pc.ByeLooked? || pc.ExpiryLooked? || pc.ExpiryTelling? || pc.ExpiryTold? ==> pc.id in s.pool
    ensures pc.Expiring? ==> pc.todo <= s.pool.Keys
  {
  }

  /** While a mutex is held, some holder can move, except in this one situation, where no holder can. */
  lemma StuckIffCrossed(s: State)
    requires Reachable(s)
    ensures (s.poolLock.Some? || s.callbacksLock.Some?) && (forall a | Holds(s, a) :: !Moves(s, a)) <==> Crossed(s)
  {
    ReachableSafe(s);
    if Crossed(s) {
      CrossedIsStuck(s);
    } else if s.poolLock.Some? || s.callbacksLock.Some? {
      SomeHolderMoves(s);
    }
  }

  lemma CrossedIsStuck(s: State)
    requires Locks(s) && Crossed(s)
    ensures forall a | Holds(s, a) :: !Moves(s, a)
  {
    forall a: Actor | Holds(s, a)
      ensures !Moves(s, a)
    {
      assert OwnLocks(s, a);
      assert OwnLocks(s, s.poolLock.value) && OwnLocks(s, s.callbacksLock.value);
      forall e | IsOwn(e) && ActorOf(e) == a
        ensures !Enabled(s, e)
      {
      }
    }
  }

  lemma SomeHolderMoves(s: State)
    requires Safe(s) && !Crossed(s) && (s.poolLock.Some? || s.callbacksLock.Some?)
    ensures exists a :: Holds(s, a) && Moves(s, a)
  {
    hide Safe, Moves, Crossed;
    assert Locks(s) && Roles(s) by {
      SafeParts(s);
    }
    var a := if s.poolLock.Some? then s.poolLock.value else s.callbacksLock.value;
    assert OwnLocks(s, a);
    if s.poolLock.Some? && s.callbacksLock.Some? && (At(s, a).ByeLooked? || At(s, a).ExpiryLooked?) {
      var b := s.callbacksLock.value;
      assert OwnLocks(s, b);
      NotCrossed(s);
      HolderMoves(s, b);
    } else {
      HolderMoves(s, a);
    }
  }

  lemma SafeParts(s: State)
    requires Safe(s)
    ensures Locks(s) && Roles(s)
  {
  }

  lemma NotCrossed(s: State)
    requires !Crossed(s) && s.poolLock.Some? && s.callbacksLock.Some?
    requires At(s, s.poolLock.value).ByeLooked? || At(s, s.poolLock.value).ExpiryLooked?
    ensures !At(s, s.callbacksLock.value).Registered?
  {
  }

  /** The situation lasts for ever. */
  lemma CrossedLasts(s: State, e: Event)
    requires Reachable(s) && Crossed(s) && Enabled(s, e)
    ensures Crossed(Next(s, e))
  {
    ReachableSafe(s);
    hide Safe;
    assert Locks(s) by { SafeParts(s); }
    if IsOwn(e) {
      CrossedIsStuck(s);
      StepMovesOwnLocks(s, e);
      OthersStay(s, e);
      CrossedActor(s, ActorOf(e));
      assert Moves(s, ActorOf(e));
      hide Next, Enabled, Locks, Moves, Holds;
    }
  }

  lemma CrossedActor(s: State, c: Actor)
    requires Locks(s) && Crossed(s)
    ensures s.poolLock == Some(c) || s.callbacksLock == Some(c) ==> Holds(s, c)
  {
    assert OwnLocks(s, c);
  }

  // ---------------------------------------------------------------- the calls that can lead to it

  predicate Registering(pc: Pc) {
    pc.Registered? || pc.Traversing?
  }

  /** A thread is inside addCallback. */
  ghost predicate InAddCallback(s: State) {
    exists a: Actor :: Registering(At(s, a))
  }

  /** What a run may hold: an addCallback that gets the callbacks after the first message, a message while
      some thread is inside addCallback, messages of devices that go, and expiries. */
  datatype Calls = Calls(late: bool, overlapping: bool, byebye: bool, expiry: bool)

  ghost predicate Permitted(calls: Calls, s: State, e: Event) {
    && (e.AddCallback? && s.accepted != [] ==> calls.late)
    && (e.Put? && InAddCallback(s) ==> calls.overlapping)
    && (e.Put? && e.task.Byebye? ==> calls.byebye)
    && (e.AskExpiry? ==> calls.expiry)
  }

  ghost predicate RunWith(calls: Calls, s: State, events: seq<Event>, t: State)
    decreases |events|
  {
    if events == [] then s == t
    else
      && Enabled(s, events[0]) && Permitted(calls, s, events[0])
      && RunWith(calls, Next(s, events[0]), events[1..], t)
  }

  ghost predicate ReachableWith(calls: Calls, s: State) {
    exists events :: RunWith(calls, START, events, s)
  }

  /** The two threads never wait for each other in such runs. */
  ghost predicate NeverCrosses(calls: Calls) {
    forall s | ReachableWith(calls, s) :: !Crossed(s)
  }

  lemma {:induction false} RunWithIsRun(calls: Calls, s: State, events: seq<Event>, t: State)
    requires RunWith(calls, s, events, t)
    ensures Run(s, events, t)
    decreases |events|
  {
    hide Enabled, Next, Permitted;
    if events != [] {
      RunWithIsRun(calls, Next(s, events[0]), events[1..], t);
    }
  }

  lemma ReachableWithIsReachable(calls: Calls, s: State)
    requires ReachableWith(calls, s)
    ensures Reachable(s)
  {
    hide Run, RunWith;
    var events :| RunWith(calls, START, events, s);
    RunWithIsRun(calls, START, events, s);
  }

  lemma {:induction false} RunOneMore(calls: Calls, s: State, events: seq<Event>, t: State, e: Event)
    requires RunWith(calls, s, events, t) && Enabled(t, e) && Permitted(calls, t, e)
    ensures RunWith(calls, s, events + [e], Next(t, e))
    decreases |events|
  {
    hide Next, Enabled, Permitted;
    if events == [] {
      assert [e][1..] == [];
    } else {
      assert (events + [e])[1..] == events[1..] + [e];
      RunOneMore(calls, Next(s, events[0]), events[1..], t, e);
    }
  }

  lemma Step(calls: Calls, s: State, e: Event)
    requires ReachableWith(calls, s) && Enabled(s, e) && Permitted(calls, s, e)
    ensures ReachableWith(calls, Next(s, e))
  {
    hide Next, Enabled, Permitted, RunWith;
    var events :| RunWith(calls, START, events, s);
    RunOneMore(calls, START, events, s, e);
  }

  lemma ReachableFromStart(calls: Calls)
    ensures ReachableWith(calls, START)
  {
    assert RunWith(calls, START, [], START);
  }

  // ---------------------------------------------------------------- no removals

  predicate Expiry(pc: Pc) {
    pc.ExpiryAsked? || pc.Expiring? || pc.ExpiryLooked? || pc.ExpiryTelling? || pc.ExpiryTold?
  }

  ghost predicate NoExpiry(s: State) {
    forall a: Actor :: !Expiry(At(s, a))
  }

  predicate ByePc(pc: Pc) {
    pc.ByeTaken? || pc.ByeLooked? || pc.ByeTelling?
  }

  ghost predicate NoByes(s: State) {
    && (forall task | task in s.queue :: task.Alive?)
    && !ByePc(At(s, EXPLORER))
  }

  lemma NoExpiryStep(s: State, e: Event)
    requires NoExpiry(s) && Enabled(s, e) && !e.AskExpiry?
    ensures NoExpiry(Next(s, e))
  {
    OthersStay(s, e);
    assert !Expiry(At(s, ActorOf(e)));
    NoExpiryActor(s, e);
    hide Next, Enabled;
    forall a: Actor
      ensures !Expiry(At(Next(s, e), a))
    {
      assert !Expiry(At(s, a));
    }
  }

  lemma NoExpiryActor(s: State, e: Event)
    requires Enabled(s, e) && !e.AskExpiry? && !Expiry(At(s, ActorOf(e)))
    ensures !Expiry(At(Next(s, e), ActorOf(e)))
  {
    hide Ids, Without, Old;
  }

  lemma NoByesStep(s: State, e: Event)
    requires NoByes(s) && Enabled(s, e) && (e.Put? ==> e.task.Alive?)
    ensures NoByes(Next(s, e))
  {
    hide Ids, Without, Old;
    if ActorOf(e) != EXPLORER {
      OthersStay(s, e);
      QueueStays(s, e);
      hide Next, Enabled;
    } else {
      hide ExpiryStep, CallbackStep;
    }
  }

  lemma QueueStays(s: State, e: Event)
    requires Enabled(s, e) && ActorOf(e) != EXPLORER
    ensures Next(s, e).queue == s.queue
  {
  }

  lemma {:induction false} RunNoRemovals(calls: Calls, s: State, events: seq<Event>, t: State)
    requires !calls.byebye && !calls.expiry && NoExpiry(s) && NoByes(s) && RunWith(calls, s, events, t)
    ensures NoExpiry(t) && NoByes(t)
    decreases |events|
  {
    hide Next, Enabled, NoExpiry, NoByes;
    if events != [] {
      NoExpiryStep(s, events[0]);
      NoByesStep(s, events[0]);
      RunNoRemovals(calls, Next(s, events[0]), events[1..], t);
    }
  }

  // ---------------------------------------------------------------- no late registrations

  /** Nobody comes to be inside addCallback but by calling it. */
  lemma RegisteringStep(s: State, e: Event)
    requires Enabled(s, e) && !e.AddCallback? && !Registering(At(s, ActorOf(e)))
    ensures !Registering(At(Next(s, e), ActorOf(e)))
  {
    hide Ids, Old, Without;
  }

  lemma StaysOutside(s: State, e: Event)
    requires Enabled(s, e) && !e.AddCallback? && !InAddCallback(s)
    ensures !InAddCallback(Next(s, e))
  {
    OthersStay(s, e);
    assert !Registering(At(s, ActorOf(e)));
    RegisteringStep(s, e);
    hide Next, Enabled;
    forall a: Actor
      ensures !Registering(At(Next(s, e), a))
    {
      assert !Registering(At(s, a));
    }
  }

  lemma AcceptedStep(s: State, e: Event)
    requires Enabled(s, e)
    ensures Next(s, e).accepted == if e.Put? then s.accepted + [e.task] else s.accepted
  {
    hide Ids, Old, Without;
  }

  /** No message has come while a thread was inside addCallback, and none was called later. */
  ghost predicate Apart(s: State) {
    s.accepted != [] ==> !InAddCallback(s)
  }

  lemma ApartStep(calls: Calls, s: State, e: Event)
    requires !calls.late && !calls.overlapping && Apart(s) && Enabled(s, e) && Permitted(calls, s, e)
    ensures Apart(Next(s, e))
  {
    AcceptedStep(s, e);
    if !e.AddCallback? && !InAddCallback(s) {
      StaysOutside(s, e);
    }
    hide Next, Enabled, InAddCallback;
  }

  lemma {:induction false} RunApart(calls: Calls, s: State, events: seq<Event>, t: State)
    requires !calls.late && !calls.overlapping && Apart(s) && RunWith(calls, s, events, t)
    ensures Apart(t)
    decreases |events|
  {
    hide Apart, Next, Enabled, Permitted;
    if events != [] {
      ApartStep(calls, s, events[0]);
      RunApart(calls, Next(s, events[0]), events[1..], t);
    }
  }

  /** Without messages there is no device. */
  lemma NothingAccepted(s: State)
    requires Follows(s) && s.accepted == []
    ensures s.pool == map[]
  {
    assert s.taken == [] && Done(s) == [];
    NothingSeen(s.changes);
  }

  lemma {:induction false} NothingSeen(changes: seq<Change>)
    requires TaskEffects(changes) == []
    ensures Replay(changes) == map[]
    decreases |changes|
  {
    if changes != [] {
      NothingSeen(changes[..|changes| - 1]);
    }
  }

  /** While a thread is inside addCallback the explorer gets no further than its first device, as it has to
      announce it. */
  ghost predicate FirstDevice(s: State) {
    InAddCallback(s) ==> s.pool == map[] || At(s, EXPLORER).Stored?
  }

  lemma FirstDeviceStep(calls: Calls, s: State, e: Event)
    requires !calls.late && NoExpiry(s) && FirstDevice(s) && Locks(s) && Follows(s)
    requires Enabled(s, e) && Permitted(calls, s, e) && !e.AskExpiry?
    ensures FirstDevice(Next(s, e))
  {
    if e.AddCallback? {
      NothingAccepted(s);
      PoolStays(s, e);
    } else if !InAddCallback(s) {
      StaysOutside(s, e);
    } else {
      OutsideWithoutLock(s);
      assert !Expiry(At(s, ActorOf(e)));
      DeviceStays(s, e);
    }
    hide Next, Enabled, Locks, Follows, NoExpiry, InAddCallback;
  }

  lemma OutsideWithoutLock(s: State)
    requires Locks(s) && InAddCallback(s)
    ensures s.callbacksLock.Some?
  {
    var a: Actor :| Registering(At(s, a));
    assert OwnLocks(s, a);
  }

  lemma PoolStays(s: State, e: Event)
    requires Enabled(s, e) && e.AddCallback?
    ensures Next(s, e).pool == s.pool
  {
  }

  lemma DeviceStays(s: State, e: Event)
    requires Enabled(s, e) && !e.AddCallback? && !e.AskExpiry? && !Expiry(At(s, ActorOf(e)))
    requires s.callbacksLock.Some? && (s.pool == map[] || At(s, EXPLORER).Stored?)
    ensures Next(s, e).pool == map[] || At(Next(s, e), EXPLORER).Stored?
  {
    hide Ids, Old, Without, ExpiryStep;
  }

  lemma {:induction false} RunFirstDevice(calls: Calls, s: State, events: seq<Event>, t: State)
    requires !calls.late && !calls.expiry && Safe(s) && NoExpiry(s) && FirstDevice(s) && RunWith(calls, s, events, t)
    ensures Safe(t) && NoExpiry(t) && FirstDevice(t)
    decreases |events|
  {
    if events != [] {
      NoExpiryStep(s, events[0]);
      FirstDeviceStep(calls, s, events[0]);
      SafeStep(s, events[0]);
      hide Safe, NoExpiry, FirstDevice, Next, Enabled;
      RunFirstDevice(calls, Next(s, events[0]), events[1..], t);
    }
  }

  // ---------------------------------------------------------------- runs that never lead to it

  /** In the situation a device is being removed, by the explorer for a byebye or by an expiry, and a thread
      is inside addCallback. */
  lemma CrossedMeans(s: State)
    requires Safe(s) && Crossed(s)
    ensures s.pool != map[] && InAddCallback(s)
    ensures At(s, EXPLORER).ByeLooked? || !NoExpiry(s)
  {
    var a := s.poolLock.value;
    assert Registering(At(s, s.callbacksLock.value));
    CondemnedInPool(s, At(s, a));
    assert a != EXPLORER ==> !IsExplorerPc(At(s, a));
    if a != EXPLORER {
      assert Expiry(At(s, a));
    }
  }

  lemma NoCrossing(calls: Calls, s: State)
    requires ReachableWith(calls, s)
    requires !(calls.late && (calls.byebye || calls.expiry)) && !(calls.overlapping && calls.expiry)
    ensures !Crossed(s)
  {
    ReachableWithIsReachable(calls, s);
    ReachableSafe(s);
    var events :| RunWith(calls, START, events, s);
    assert forall a: Actor :: At(START, a) == Idle;
    StartSafe();
    hide Safe, RunWith, Crossed, Reachable;
    if !calls.byebye && !calls.expiry {
      RunNoRemovals(calls, START, events, s);
    } else if !calls.overlapping {
      RunApart(calls, START, events, s);
      assert Follows(s) by { SafeFollows(s); }
      if s.accepted == [] {
        NothingAccepted(s);
      }
    } else {
      RunFirstDevice(calls, START, events, s);
    }
    if Crossed(s) {
      CrossedMeans(s);
    }
  }

  lemma SafeFollows(s: State)
    requires Safe(s)
    ensures Follows(s)
  {
  }

  // ---------------------------------------------------------------- runs that lead to it

  /** A device comes up while nobody is registered. */
  lemma DeviceComesUp(calls: Calls, id: string) returns (s: State)
    ensures ReachableWith(calls, s) && id in s.pool && s.queue == [] && s.poolLock.None? && s.callbacksLock.None?
    ensures s.pool[id].lastSeen == s.pool[id].expires == 0 && s.accepted != []
    ensures forall a: Actor :: At(s, a).Idle?
    ensures s.callbacks == [] && s.lost == []
  {
    hide ReachableWith, ExpiryStep, CallbackStep, Ids, Without, Old;
    ReachableFromStart(calls);
    var task := Alive(id, NO_DEVICE.(ok := true), 0);
    assert forall a: Actor :: At(START, a) == Idle;
    Step(calls, START, Put(task));
    s := Next(START, Put(task));
    Step(calls, s, Take(0));
    s := Next(s, Take(0));
    s := IsAnnounced(calls, s, id);
  }

  lemma IsAnnounced(calls: Calls, s0: State, id: string) returns (s: State)
    requires ReachableWith(calls, s0) && At(s0, EXPLORER).Parsed? && At(s0, EXPLORER).id == id
    requires s0.poolLock.None? && s0.callbacksLock.None? && s0.callbacks == []
    ensures ReachableWith(calls, s) && At(s, EXPLORER).Idle? && id in s.pool
    ensures s.pool[id] == Numbered(s0, At(s0, EXPLORER).entry)
    ensures s.poolLock.None? && s.callbacksLock.None? && s.queue == s0.queue && s.accepted == s0.accepted
    ensures s.callbacks == s0.callbacks && s.lost == s0.lost
    ensures forall a: Actor | a != EXPLORER :: At(s, a) == At(s0, a)
  {
    hide ReachableWith, ExpiryStep, CallbackStep, Ids, Without, Old;
    s := s0;
    Step(calls, s, Store);
    s := Next(s, Store);
    Step(calls, s, LockToAnnounce);
    s := Next(s, LockToAnnounce);
    Step(calls, s, EndAnnounce);
    s := Next(s, EndAnnounce);
  }

  /** It says goodbye while a callback is being registered. */
  lemma LateAndByebye(calls: Calls, id: string) returns (s: State)
    requires calls.late && calls.byebye
    ensures ReachableWith(calls, s) && Crossed(s)
  {
    hide ReachableWith, ExpiryStep, Ids, Without, Old;
    s := DeviceComesUp(calls, id);
    assert At(s, EXPLORER).Idle? && At(s, 1).Idle? && At(s, 2).Idle?;
    assert !InAddCallback(s);
    Step(calls, s, Put(Byebye(id)));
    s := Next(s, Put(Byebye(id)));
    Step(calls, s, Take(0));
    s := Next(s, Take(0));
    Step(calls, s, LookForBye);
    s := Next(s, LookForBye);
    Step(calls, s, AddCallback(1, true));
    s := Next(s, AddCallback(1, true));
  }

  /** It expires then. */
  lemma LateAndExpiry(calls: Calls, id: string) returns (s: State)
    requires calls.late && calls.expiry
    ensures ReachableWith(calls, s) && Crossed(s)
  {
    hide ReachableWith, ExplorerStep, Ids, Without;
    s := DeviceComesUp(calls, id);
    assert At(s, EXPLORER).Idle? && At(s, 1).Idle? && At(s, 2).Idle?;
    Step(calls, s, AddCallback(1, true));
    s := Next(s, AddCallback(1, true));
    s := Expires(calls, s, id);
  }

  lemma Expires(calls: Calls, s0: State, id: string) returns (s: State)
    requires ReachableWith(calls, s0) && calls.expiry && s0.poolLock.None? && At(s0, 2).Idle?
    requires id in s0.pool && s0.pool[id].lastSeen == s0.pool[id].expires == 0
    requires s0.callbacksLock == Some(1) && At(s0, 1).Registered?
    ensures ReachableWith(calls, s) && Crossed(s)
  {
    hide ReachableWith, ExplorerStep, CallbackStep, Ids, Without;
    s := s0;
    Step(calls, s, AskExpiry(2));
    s := Next(s, AskExpiry(2));
    Step(calls, s, StartExpiry(2, 1));
    s := Next(s, StartExpiry(2, 1));
    Step(calls, s, Check(2, id));
    s := Next(s, Check(2, id));
  }

  /** A callback registers before the first message; the device comes up before its traversal, and expires. */
  lemma OverlapAndExpiry(calls: Calls, id: string) returns (s: State)
    requires calls.overlapping && calls.expiry
    ensures ReachableWith(calls, s) && Crossed(s)
  {
    hide ReachableWith, ExpiryStep, Ids, Without, Old;
    ReachableFromStart(calls);
    var task := Alive(id, NO_DEVICE.(ok := true), 0);
    Step(calls, START, AddCallback(1, true));
    s := Next(START, AddCallback(1, true));
    Step(calls, s, Put(task));
    s := Next(s, Put(task));
    Step(calls, s, Take(0));
    s := Next(s, Take(0));
    Step(calls, s, Store);
    s := Next(s, Store);
    s := Expires(calls, s, id);
  }

  /** The situation can come up if and only if an addCallback may come after the first message and devices may
      be removed, or a message may come during an addCallback and devices may expire. */
  lemma NeverCrossesIff(calls: Calls)
    ensures NeverCrosses(calls) <==>
            !(calls.late && (calls.byebye || calls.expiry)) && !(calls.overlapping && calls.expiry)
  {
    hide ReachableWith, Crossed;
    var id := "uuid";
    if calls.late && calls.byebye {
      var s := LateAndByebye(calls, id);
    } else if calls.late && calls.expiry {
      var s := LateAndExpiry(calls, id);
    } else if calls.overlapping && calls.expiry {
      var s := OverlapAndExpiry(calls, id);
    } else {
      forall s | ReachableWith(calls, s)
        ensures !Crossed(s)
      {
        NoCrossing(calls, s);
      }
    }
  }
}
