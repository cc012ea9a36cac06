/** The discovery directory over whole runs. */
module DiscoveryTheorems {
  import opened Options
  import opened DeviceDescription
  import opened DiscoverySystem
  import opened DiscoverySafety
  import opened DiscoveryHistory
  import opened DiscoveryCoverage

  ghost predicate Safe(s: State) {
    Locks(s) && Roles(s) && PoolWork(s) && Told(s) && Follows(s) && NoneMissed(s) && Announces(s) && WellNumbered(s)
  }

  lemma StartSafe()
    ensures Safe(START)
  {
    assert forall a: Actor :: At(START, a) == Idle;
    StartFollows();
  }

  lemma SafeStep(s: State, e: Event)
    requires Safe(s) && Enabled(s, e)
    ensures Safe(Next(s, e))
  {
    hide Locks, Roles, PoolWork, Told, Follows, NoneMissed, Announces, WellNumbered, Next, Enabled;
    LocksStep(s, e);
    RolesStep(s, e);
    PoolWorkStep(s, e);
    ToldStep(s, e);
    FollowsStep(s, e);
    CoverageStep(s, e);
    NumberedStep(s, e);
  }

  lemma {:induction false} RunSafe(s: State, events: seq<Event>, t: State)
    requires Safe(s) && Run(s, events, t)
    ensures Safe(t)
    decreases |events|
  {
    hide Safe, Next, Enabled;
    if events != [] {
      SafeStep(s, events[0]);
      RunSafe(Next(s, events[0]), events[1..], t);
    }
  }

  lemma ReachableSafe(s: State)
    requires Reachable(s)
    ensures Safe(s)
  {
    hide Safe, Run;
    var events :| Run(START, events, s);
    StartSafe();
    RunSafe(START, events, s);
  }

  // ---------------------------------------------------------------- no missed device

  /** Each callback that always returns true has been shown every entry of the pool, since it was stored, unless
      the explorer has stored it and not come to the callback yet, or the callback's own addCallback has not come
      to that device yet. */
  lemma NoDeviceMissed(s: State, index: nat, id: string)
    requires Reachable(s) && index < |s.callbacks| && s.callbacks[index].steady && id in s.pool
    ensures Visit(s.callbacks[index].id, id, s.pool[id]) in s.shown ||
            AnnouncePending(s, index, id) || TraversalPending(s, s.callbacks[index], id)
    ensures AnnouncePending(s, index, id) ==> At(s, EXPLORER).entry == s.pool[id]
  {
    ReachableSafe(s);
    assert Covered(s, index, id);
  }

  /** When the explorer is done with its task and nobody is in addCallback, nothing is missed. */
  lemma NothingMissedWhenQuiet(s: State)
    requires Reachable(s) && s.callbacksLock.None? && !At(s, EXPLORER).Stored?
    ensures forall i, id | 0 <= i < |s.callbacks| && s.callbacks[i].steady && id in s.pool ::
              Visit(s.callbacks[i].id, id, s.pool[id]) in s.shown
  {
    ReachableSafe(s);
    assert OwnLocks(s, EXPLORER);
    forall i, id | 0 <= i < |s.callbacks| && s.callbacks[i].steady && id in s.pool
      ensures Visit(s.callbacks[i].id, id, s.pool[id]) in s.shown
    {
      NoDeviceMissed(s, i, id);
    }
  }

  /** A device stored, again or for the first time, even with a description seen before: at that moment nobody
      has been shown its entry, and every registered callback is still to be. */
  lemma EveryStoreIsAnnounced(s: State)
    requires Reachable(s) && Enabled(s, Store)
    ensures var s', id := Next(s, Store), At(s, EXPLORER).id;
            && id in s'.pool && (forall v | v in s'.shown :: v.entry != s'.pool[id])
            && forall i: nat :: AnnouncePending(s', i, id)
  {
    ReachableSafe(s);
    StoreCoverage(s, Store);
  }

  // ---------------------------------------------------------------- history

  /** A device is in the pool exactly when it was last seen alive; the changes that come from tasks are
      those of the accepted tasks, in order, up to the queue and the one the explorer holds. */
  lemma PoolAgreesWithHistory(s: State, id: string)
    requires Reachable(s)
    ensures var last := LastChange(s.changes, id);
            if last.Some? && last.value.Seen? then id in s.pool && s.pool[id] == last.value.entry
            else id !in s.pool
    ensures s.accepted == s.taken + s.queue && |s.times| == |s.taken|
    ensures TaskEffects(s.changes) == Effects(Done(s), s.times)
  {
    ReachableSafe(s);
    InPoolIff(s.changes, id);
  }

  /** With an empty queue and an explorer that holds no task, all accepted tasks have had their effect, in order. */
  lemma QuietPoolIsUpToDate(s: State)
    requires Reachable(s) && s.queue == [] && !IsPending(At(s, EXPLORER))
    ensures |s.times| == |s.accepted| && TaskEffects(s.changes) == Effects(s.accepted, s.times)
  {
    ReachableSafe(s);
    assert s.taken + [] == s.taken;
  }

  /** The last effect on a device. */
  function LastEffect(effects: seq<Effect>, id: string): Option<Effect> {
    if effects == [] then None
    else
      var n := |effects| - 1;
      if effects[n].id == id then Some(effects[n]) else LastEffect(effects[..n], id)
  }

  lemma LastEffectAppend(effects: seq<Effect>, more: seq<Effect>, id: string)
    requires |more| <= 1
    ensures LastEffect(effects + more, id) ==
            if more != [] && more[0].id == id then Some(more[0]) else LastEffect(effects, id)
  {
    if more == [] {
      assert effects + more == effects;
    } else {
      assert (effects + more)[..|effects|] == effects;
    }
  }

  lemma {:induction false} LastChangeIsEffect(changes: seq<Change>, id: string)
    ensures var last := LastChange(changes, id);
            last.Some? && last.value.Seen? ==>
              var entry := last.value.entry;
              LastEffect(TaskEffects(changes), id) ==
              Some(Effect(id, Some(Sighting(entry.device, entry.lastSeen, entry.expires))))
    decreases |changes|
  {
    if changes != [] {
      var n := |changes| - 1;
      LastChangeIsEffect(changes[..n], id);
      LastEffectAppend(TaskEffects(changes[..n]), ChangeEffect(changes[n]), id);
    }
  }

  /** A task that says nothing of the device: it is another's, or its description does not parse. */
  predicate Silent(task: Task, id: string) {
    match task
    case Byebye(other) => other != id
    case Alive(other, device, _) => other != id || !device.ok
  }

  /** Task k is the last to say something of the device, and says this. */
  ghost predicate LastWord(tasks: seq<Task>, times: seq<int>, k: nat, id: string, entry: Entry)
    requires |tasks| <= |times|
  {
    && k < |tasks| && tasks[k] == Alive(id, entry.device, entry.expires) && times[k] == entry.lastSeen
    && forall j | k < j < |tasks| :: Silent(tasks[j], id)
  }

  lemma LastTaskSays(tasks: seq<Task>, times: seq<int>, id: string)
    requires tasks != [] && |tasks| <= |times|
    ensures var n := |tasks| - 1;
            var effect := EffectOf(tasks[n], times[n]);
            && (!Silent(tasks[n], id) ==> |effect| == 1)
            && LastEffect(Effects(tasks, times), id) ==
               if Silent(tasks[n], id) then LastEffect(Effects(tasks[..n], times), id) else Some(effect[0])
  {
    var n := |tasks| - 1;
    LastEffectAppend(Effects(tasks[..n], times), EffectOf(tasks[n], times[n]), id);
    hide LastEffect;
  }

  lemma NoEffect(times: seq<int>, id: string)
    ensures LastEffect(Effects([], times), id) == None
  {
  }

  /** A task that is not silent and has this effect has the last word. */
  lemma LastWordHere(tasks: seq<Task>, times: seq<int>, id: string, entry: Entry)
    requires tasks != [] && |tasks| <= |times|
    requires var n := |tasks| - 1;
             EffectOf(tasks[n], times[n]) == [Effect(id, Some(Sighting(entry.device, entry.lastSeen, entry.expires)))]
    ensures LastWord(tasks, times, |tasks| - 1, id, entry)
  {
  }

  lemma LastWordBefore(tasks: seq<Task>, times: seq<int>, k: nat, id: string, entry: Entry)
    requires tasks != [] && |tasks| <= |times| && Silent(tasks[|tasks| - 1], id)
    requires LastWord(tasks[..|tasks| - 1], times, k, id, entry)
    ensures LastWord(tasks, times, k, id, entry)
  {
    hide Silent;
    var before := tasks[..|tasks| - 1];
    assert forall j | 0 <= j < |before| :: tasks[j] == before[j];
  }

  lemma {:induction false} LastEffectIsTask(tasks: seq<Task>, times: seq<int>, id: string, entry: Entry)
    returns (k: nat)
    requires |tasks| <= |times|
    requires LastEffect(Effects(tasks, times), id) ==
             Some(Effect(id, Some(Sighting(entry.device, entry.lastSeen, entry.expires))))
    ensures LastWord(tasks, times, k, id, entry)
    decreases |tasks|
  {
    hide *;
    NoEffect(times, id);
    var n := |tasks| - 1;
    LastTaskSays(tasks, times, id);
    if Silent(tasks[n], id) {
      k := LastEffectIsTask(tasks[..n], times, id, entry);
      LastWordBefore(tasks, times, k, id, entry);
    } else {
      k := n;
      LastWordHere(tasks, times, id, entry);
    }
  }

  /** The entry of a device in the pool has the description and the lifetime of the last task done for it, and
      was last seen when that task was taken. */
  lemma LastSeenWhenTaken(s: State, id: string)
    requires Reachable(s) && id in s.pool
    ensures |s.times| == |s.taken| && exists k: nat :: LastWord(Done(s), s.times, k, id, s.pool[id])
  {
    PoolAgreesWithHistory(s, id);
    LastChangeIsEffect(s.changes, id);
    var k := LastEffectIsTask(Done(s), s.times, id, s.pool[id]);
  }

  // ---------------------------------------------------------------- expiry

  /** Inside an expiry that began at this time with this pool. */
  predicate InExpiry(pc: Pc, now: int, before: Pool) {
    && (pc.Expiring? || pc.ExpiryLooked? || pc.ExpiryTelling? || pc.ExpiryTold?)
    && pc.now == now && pc.before == before
  }

  lemma StaysInExpiry(s: State, e: Event, a: Actor, now: int, before: Pool)
    requires Enabled(s, e) && e != EndExpiry(a) && InExpiry(At(s, a), now, before)
    ensures InExpiry(At(Next(s, e), a), now, before)
  {
    if ActorOf(e) != a {
      OthersStay(s, e);
    } else {
      hide Old, Ids, Without;
    }
  }

  lemma {:induction false} RunInExpiry(s: State, events: seq<Event>, t: State, a: Actor, now: int, before: Pool)
    requires Run(s, events, t) && EndExpiry(a) !in events && InExpiry(At(s, a), now, before)
    ensures InExpiry(At(t, a), now, before)
    decreases |events|
  {
    hide InExpiry, Next, Enabled;
    if events != [] {
      StaysInExpiry(s, events[0], a, now, before);
      RunInExpiry(Next(s, events[0]), events[1..], t, a, now, before);
    }
  }

  /** expireDevices, from the moment it looks at the clock: whatever other threads do meanwhile, in the end the
      pool is what it was then, but for exactly the devices whose lifetime is over. */
  lemma ExpiryIsExact(s: State, a: Actor, now: int, events: seq<Event>, t: State)
    requires Reachable(s) && Enabled(s, StartExpiry(a, now)) && Run(Next(s, StartExpiry(a, now)), events, t)
    requires EndExpiry(a) !in events && Enabled(t, EndExpiry(a))
    ensures forall id :: id in t.pool <==> id in s.pool && now <= s.pool[id].lastSeen + s.pool[id].expires
    ensures forall id | id in t.pool :: t.pool[id] == s.pool[id]
  {
    ReachableSafe(s);
    var u := Next(s, StartExpiry(a, now));
    hide Run, Reachable, Safe, InExpiry;
    SafeStep(s, StartExpiry(a, now));
    RunSafe(u, events, t);
    ExpiryBegins(s, a, now);
    hide Next;
    RunInExpiry(u, events, t, a, now, s.pool);
    ExpiryEnds(t, a, now, s.pool);
  }

  lemma ExpiryBegins(s: State, a: Actor, now: int)
    requires Enabled(s, StartExpiry(a, now))
    ensures InExpiry(At(Next(s, StartExpiry(a, now)), a), now, s.pool)
  {
  }

  lemma ExpiryEnds(t: State, a: Actor, now: int, before: Pool)
    requires Safe(t) && Enabled(t, EndExpiry(a)) && InExpiry(At(t, a), now, before)
    ensures forall id :: id in t.pool <==> id in before && now <= before[id].lastSeen + before[id].expires
    ensures forall id | id in t.pool :: t.pool[id] == before[id]
  {
    assert OwnLocks(t, a);
    assert t.pool == Surviving(before, now, {});
  }

  /** A step of the thread itself. */
  predicate IsOwn(e: Event) {
    !e.Put? && !e.DelCallback? && !e.AddLostCallback? && !e.DelLostCallback?
  }

  /** The visits of this device by these lost callbacks are the last ones, and it is then removed. */
  ghost predicate ToldThenRemoved(s: State, s': State, device: DeviceDesc, told: seq<nat>) {
    && s.lostShown == AllTold(s.removed) + Tell(told, device)
    && s'.removed == s.removed + [Removal(device, told)]
    && s'.lostShown == s.lostShown == AllTold(s'.removed)
  }

  lemma ByeParts(s: State, e: Event)
    requires Locks(s) && PoolWork(s) && Told(s) && Enabled(s, e) && e.EraseBye?
    ensures var s', device := Next(s, e), s.pool[At(s, EXPLORER).id].device;
            && s.lostShown == AllTold(s.removed) + Tell(Ids(s.lost), device)
            && s'.removed == s.removed + [Removal(device, Ids(s.lost))] && s'.lostShown == s.lostShown
  {
    assert OwnLocks(s, EXPLORER);
    hide Tell, AllTold, Ids, Locks, OwnLocks;
    TellWhole(s.lost, At(s, EXPLORER).told);
  }

  lemma ExpiryParts(s: State, e: Event)
    requires Locks(s) && Told(s) && Enabled(s, e) && e.EraseExpired?
    ensures var s', pc := Next(s, e), At(s, e.a);
            && s.lostShown == AllTold(s.removed) + Tell(pc.toldIds, s.pool[pc.id].device)
            && s'.removed == s.removed + [Removal(s.pool[pc.id].device, pc.toldIds)] && s'.lostShown == s.lostShown
  {
    assert OwnLocks(s, e.a);
    EraseExpiredStep(s, e);
    hide Tell, AllTold, Locks, OwnLocks, Next, BeingTold;
  }

  /** A device goes only after one visit of its description by each lost callback, and these are the
      only visits that lost callbacks get: for a device that says goodbye, all those registered. */
  lemma ByeIsTold(s: State)
    requires Reachable(s) && Enabled(s, EraseBye)
    ensures ToldThenRemoved(s, Next(s, EraseBye), s.pool[At(s, EXPLORER).id].device, Ids(s.lost))
  {
    ReachableSafe(s);
    ByeParts(s, EraseBye);
    hide Next, Tell, AllTold, Ids;
    AllToldOneMore(s.removed, Removal(s.pool[At(s, EXPLORER).id].device, Ids(s.lost)));
  }

  /** From the end of the visits on, what an expiry has to erase does not change, whatever the other threads
      do, until it is erased. */
  lemma {:induction false} ExpiryWaits(s: State, events: seq<Event>, t: State, a: Actor)
    requires Safe(s) && At(s, a).ExpiryTold? && Run(s, events, t)
    requires forall e | e in events && ActorOf(e) == a :: !IsOwn(e)
    ensures Safe(t) && At(t, a) == At(s, a) && t.pool == s.pool && t.poolLock == Some(a)
    decreases |events|
  {
    assert OwnLocks(s, a);
    if events != [] {
      OthersOnly(s, events[0], a);
      SafeStep(s, events[0]);
      hide Safe, Next, Enabled;
      ExpiryWaits(Next(s, events[0]), events[1..], t, a);
    }
  }

  lemma OthersOnly(s: State, e: Event, a: Actor)
    requires Locks(s) && Enabled(s, e) && At(s, a).ExpiryTold? && (ActorOf(e) == a ==> !IsOwn(e))
    ensures At(Next(s, e), a) == At(s, a) && Next(s, e).pool == s.pool
  {
    assert OwnLocks(s, a);
    if ActorOf(e) != a {
      OthersStay(s, e);
      OthersLeavePool(s, e);
    }
  }

  lemma VisitsEnd(s: State, a: Actor)
    requires Safe(s) && Enabled(s, EndTelling(a))
    ensures At(s, a).id in s.pool
    ensures var u := Next(s, EndTelling(a));
            && Safe(u) && u.pool == s.pool && At(u, a).ExpiryTold?
            && At(u, a).id == At(s, a).id && At(u, a).toldIds == Ids(s.lost)
  {
    SafeStep(s, EndTelling(a));
    ToldInPool(s, a);
    hide Safe, Ids;
  }

  lemma ErasesTold(t: State, a: Actor)
    requires Safe(t) && At(t, a).ExpiryTold? && t.poolLock == Some(a) && At(t, a).id in t.pool
    ensures Enabled(t, EraseExpired(a))
    ensures var pc := At(t, a);
            ToldThenRemoved(t, Next(t, EraseExpired(a)), t.pool[pc.id].device, pc.toldIds)
  {
    var pc := At(t, a);
    assert Locks(t) && Told(t);
    hide Safe, Locks, Told;
    ExpiryParts(t, EraseExpired(a));
    hide Next, Tell, AllTold;
    AllToldOneMore(t.removed, Removal(t.pool[pc.id].device, pc.toldIds));
  }

  /** ... and for a device that expires, all those registered when its visits end: whenever the thread goes
      on to erase it, whatever happened meanwhile, they have all been told of the description it had then. */
  lemma ExpiryIsTold(s: State, a: Actor, events: seq<Event>, t: State)
    requires Reachable(s) && Enabled(s, EndTelling(a)) && Run(Next(s, EndTelling(a)), events, t)
    requires forall e | e in events && ActorOf(e) == a :: !IsOwn(e)
    ensures At(s, a).id in s.pool && Enabled(t, EraseExpired(a)) && At(t, a).id == At(s, a).id
    ensures ToldThenRemoved(t, Next(t, EraseExpired(a)), s.pool[At(s, a).id].device, Ids(s.lost))
  {
    hide Safe, Run, Next, Ids, ToldThenRemoved;
    ReachableSafe(s);
    VisitsEnd(s, a);
    ExpiryWaits(Next(s, EndTelling(a)), events, t, a);
    ErasesTold(t, a);
  }

  lemma ToldInPool(s: State, a: Actor)
    requires Locks(s) && PoolWork(s) && At(s, a).ExpiryTelling?
    ensures At(s, a).id in s.pool
  {
    assert OwnLocks(s, a);
  }

  /** This lost callback is registered, and was told of what is being removed and of the removals from `since` on. */
  ghost predicate Hears(s: State, reg: nat, since: nat) {
    && since <= |s.removed|
    && reg in Ids(s.lost)
    && (forall i | since <= i < |s.removed| :: reg in s.removed[i].told)
    && (forall a: Actor | At(s, a).ExpiryTold? :: reg in At(s, a).toldIds)
  }

  lemma HearsStep(s: State, e: Event, reg: nat, since: nat)
    requires Enabled(s, e) && !e.DelLostCallback? && Hears(s, reg, since)
    ensures Hears(Next(s, e), reg, since)
  {
    OthersStay(s, e);
    var s' := Next(s, e);
    if e.AddLostCallback? {
      assert Ids(s'.lost) == Ids(s.lost) + [s.nextId];
    } else {
      assert s'.lost == s.lost;
    }
    hide Ids, Old, Without;
    RemovalTold(s, e);
    hide Next, Enabled;
  }

  /** What a removal or the end of the visits records. */
  ghost predicate RecordsTold(s: State, e: Event)
    requires Enabled(s, e)
  {
    var s', pc, pc' := Next(s, e), At(s, ActorOf(e)), At(Next(s, e), ActorOf(e));
    && (s'.removed == s.removed ||
        (|s'.removed| == |s.removed| + 1 && s.removed == s'.removed[..|s.removed|] &&
         (s'.removed[|s.removed|].told == Ids(s.lost) ||
          (pc.ExpiryTold? && s'.removed[|s.removed|].told == pc.toldIds))))
    && (pc'.ExpiryTold? ==> pc'.toldIds == Ids(s.lost) || pc' == pc)
  }

  lemma ExplorerRecords(s: State, e: Event)
    requires Enabled(s, e) && IsExplorerStep(e)
    ensures RecordsTold(s, e)
  {
    hide Ids, CallbackStep, ExpiryStep;
  }

  lemma CallbackRecords(s: State, e: Event)
    requires Enabled(s, e) && IsCallbackStep(e)
    ensures RecordsTold(s, e)
  {
    hide Ids, Without, ExplorerStep, ExpiryStep;
  }

  lemma ExpiryRecords(s: State, e: Event)
    requires Enabled(s, e) && !IsExplorerStep(e) && !IsCallbackStep(e)
    ensures RecordsTold(s, e)
  {
    hide Ids, Old, ExplorerStep, CallbackStep;
  }

  lemma RemovalTold(s: State, e: Event)
    requires Enabled(s, e)
    ensures RecordsTold(s, e)
  {
    hide Enabled, RecordsTold;
    if IsExplorerStep(e) {
      ExplorerRecords(s, e);
    } else if IsCallbackStep(e) {
      CallbackRecords(s, e);
    } else {
      ExpiryRecords(s, e);
    }
  }

  lemma {:induction false} RunHears(s: State, events: seq<Event>, t: State, reg: nat, since: nat)
    requires Run(s, events, t) && Hears(s, reg, since) && forall e | e in events :: !e.DelLostCallback?
    ensures Hears(t, reg, since)
    decreases |events|
  {
    hide Hears, Next, Enabled;
    if events != [] {
      HearsStep(s, events[0], reg, since);
      RunHears(Next(s, events[0]), events[1..], t, reg, since);
    }
  }

  /** A lost callback, registered while nobody has the pool, is told of every device that leaves the pool from
      then on, over any run in which no lost callback is taken out. */
  lemma LostCallbackHearsAll(s: State, steady: bool, events: seq<Event>, t: State)
    requires Reachable(s) && s.poolLock.None? && Enabled(s, AddLostCallback(steady))
    requires Run(Next(s, AddLostCallback(steady)), events, t) && forall e | e in events :: !e.DelLostCallback?
    ensures |s.removed| <= |t.removed| && forall i | |s.removed| <= i < |t.removed| :: s.nextId in t.removed[i].told
  {
    ReachableSafe(s);
    hide Run, Reachable, Safe;
    NowHears(s, steady);
    hide Next, Enabled;
    RunHears(Next(s, AddLostCallback(steady)), events, t, s.nextId, |s.removed|);
  }

  lemma NowHears(s: State, steady: bool)
    requires Safe(s) && s.poolLock.None? && Enabled(s, AddLostCallback(steady))
    ensures Hears(Next(s, AddLostCallback(steady)), s.nextId, |s.removed|)
  {
    var u := Next(s, AddLostCallback(steady));
    assert Ids(u.lost)[|s.lost|] == s.nextId;
    hide Safe, Ids;
    forall a: Actor ensures !At(u, a).ExpiryTold? {
      NobodyHolds(s, a);
    }
  }

  lemma NobodyHolds(s: State, a: Actor)
    requires Safe(s) && s.poolLock.None?
    ensures !HoldsPool(At(s, a))
  {
    assert OwnLocks(s, a);
  }

  /** A callback that refuses a device during its own addCallback is not shown the others. */
  lemma RefusalEndsTraversal(s: State, a: Actor, id: string)
    requires Reachable(s) && Enabled(s, Traverse(a, id, false))
    ensures var t := Next(s, Traverse(a, id, false));
            At(t, a).Idle? && t.poolLock.None? && t.callbacksLock.None? && t.shown == s.shown && t.pool == s.pool
  {
    ReachableSafe(s);
  }

  /** The step that a thread without a mutex can take, when the mutex it needs is free. */
  ghost predicate CanStep(s: State, a: Actor, now: int, steady: bool) {
    match At(s, a)
    case Idle =>
      && Enabled(s, AskExpiry(a))
      && (a == EXPLORER && s.queue != [] ==> Enabled(s, Take(now)))
      && (a != EXPLORER && s.callbacksLock.None? ==> Enabled(s, AddCallback(a, steady)))
    case ByeTaken(_) => s.poolLock.None? ==> Enabled(s, LookForBye)
    case Parsed(_, _) => s.poolLock.None? ==> Enabled(s, Store)
    case Stored(_, _) => s.callbacksLock.None? ==> Enabled(s, LockToAnnounce)
    case ExpiryAsked => s.poolLock.None? ==> Enabled(s, StartExpiry(a, now))
    case _ => HoldsPool(At(s, a)) || HoldsCallbacks(At(s, a))
  }

  /** A thread that holds no mutex can go on as soon as the mutex it needs is free, the explorer when there is a
      task. */
  lemma FreeThreadCanStep(s: State, a: Actor, now: int, steady: bool)
    requires Reachable(s)
    ensures CanStep(s, a, now, steady)
  {
    ReachableSafe(s);
    assert a != EXPLORER ==> !IsExplorerPc(At(s, a)) by { OnlyExplorer(s, a); }
    hide Safe, Reachable, CanStep;
    HasStep(s, a, now, steady);
  }

  lemma HasStep(s: State, a: Actor, now: int, steady: bool)
    requires a != EXPLORER ==> !IsExplorerPc(At(s, a))
    ensures CanStep(s, a, now, steady)
  {
  }

  lemma OnlyExplorer(s: State, a: Actor)
    requires Safe(s)
    ensures a != EXPLORER ==> !IsExplorerPc(At(s, a))
  {
    assert Roles(s);
  }

  /** Tasks can always be put, and the vectors changed when nobody holds the callbacks. */
  lemma AlwaysPossible(s: State, task: Task, index: nat, steady: bool)
    ensures Enabled(s, Put(task))
    ensures s.callbacksLock.None? ==>
              && Enabled(s, DelCallback(index)) && Enabled(s, AddLostCallback(steady))
              && Enabled(s, DelLostCallback(index))
  {
  }
}
