/** What every reachable state of the discovery directory satisfies. */
module DiscoverySafety {
  import opened Options
  import opened DeviceDescription
  import opened DiscoverySystem

  // ---------------------------------------------------------------- mutual exclusion

  /** Each mutex is owned by the one thread that is in a section of it. */
  ghost predicate Locks(s: State) {
    && (forall a: Actor :: HoldsPool(At(s, a)) <==> s.poolLock == Some(a))
    && (forall a: Actor :: HoldsCallbacks(At(s, a)) <==> s.callbacksLock == Some(a))
  }

  predicate IsExplorerPc(pc: Pc) {
    pc.ByeTaken? || pc.ByeLooked? || pc.ByeTelling? || pc.Parsed? || pc.Stored? || pc.Announcing?
  }

  /** Only the explorer handles tasks, and it registers nothing. */
  ghost predicate Roles(s: State) {
    && (forall a: Actor | a != EXPLORER :: !IsExplorerPc(At(s, a)))
    && !At(s, EXPLORER).Registered? && !At(s, EXPLORER).Traversing?
  }

  /** The threads other than the one acting stay where they are. */
  lemma OthersStay(s: State, e: Event)
    requires Enabled(s, e)
    ensures forall a: Actor | a != ActorOf(e) :: At(Next(s, e), a) == At(s, a)
  {
  }

  lemma RolesStep(s: State, e: Event)
    requires Roles(s) && Enabled(s, e)
    ensures Roles(Next(s, e))
  {
    OthersStay(s, e);
    var pc, pc' := At(s, ActorOf(e)), At(Next(s, e), ActorOf(e));
    assert ActorOf(e) != EXPLORER ==> !IsExplorerPc(pc');
  }

  /** A step only moves the locks between free and its own thread. */
  ghost predicate MovesOwnLocks(s: State, e: Event)
    requires Enabled(s, e)
  {
    var s', a := Next(s, e), ActorOf(e);
    && (s'.poolLock == s.poolLock || (s.poolLock in {None, Some(a)} && s'.poolLock in {None, Some(a)}))
    && (s'.callbacksLock == s.callbacksLock ||
        (s.callbacksLock in {None, Some(a)} && s'.callbacksLock in {None, Some(a)}))
    && (HoldsPool(At(s', a)) <==> s'.poolLock == Some(a))
    && (HoldsCallbacks(At(s', a)) <==> s'.callbacksLock == Some(a))
  }

  ghost predicate OwnLocks(s: State, a: Actor) {
    (HoldsPool(At(s, a)) <==> s.poolLock == Some(a)) && (HoldsCallbacks(At(s, a)) <==> s.callbacksLock == Some(a))
  }

  lemma ExplorerLocks(s: State, e: Event)
    requires Enabled(s, e) && IsExplorerStep(e) && OwnLocks(s, ActorOf(e))
    ensures MovesOwnLocks(s, e)
  {
    hide CallbackStep, ExpiryStep, Ids;
  }

  lemma CallbackLocks(s: State, e: Event)
    requires Enabled(s, e) && IsCallbackStep(e) && OwnLocks(s, ActorOf(e))
    ensures MovesOwnLocks(s, e)
  {
    hide ExplorerStep, ExpiryStep, Without;
  }

  lemma ExpiryLocks(s: State, e: Event)
    requires Enabled(s, e) && !IsExplorerStep(e) && !IsCallbackStep(e) && OwnLocks(s, ActorOf(e))
    ensures MovesOwnLocks(s, e)
  {
    hide ExplorerStep, CallbackStep, Ids, Old;
  }

  lemma StepMovesOwnLocks(s: State, e: Event)
    requires Locks(s) && Enabled(s, e)
    ensures MovesOwnLocks(s, e)
  {
    assert OwnLocks(s, ActorOf(e));
    hide Next, Enabled, MovesOwnLocks, Locks, OwnLocks;
    if IsExplorerStep(e) {
      ExplorerLocks(s, e);
    } else if IsCallbackStep(e) {
      CallbackLocks(s, e);
    } else {
      ExpiryLocks(s, e);
    }
  }

  lemma LocksStep(s: State, e: Event)
    requires Locks(s) && Enabled(s, e)
    ensures Locks(Next(s, e))
  {
    var s' := Next(s, e);
    OthersStay(s, e);
    StepMovesOwnLocks(s, e);
    hide Next, Enabled;
    forall b: Actor
      ensures OwnLocks(s', b)
    {
      assert OwnLocks(s, b);
    }
    assert forall b: Actor :: OwnLocks(s', b) ==>
      (HoldsPool(At(s', b)) <==> s'.poolLock == Some(b)) &&
      (HoldsCallbacks(At(s', b)) <==> s'.callbacksLock == Some(b));
  }

  // ---------------------------------------------------------------- work under the pool mutex

  /** Within its lifetime. */
  predicate Fresh(e: Entry, now: int) {
    now <= e.lastSeen + e.expires
  }

  /** The pool that an expiry leaves when the devices in `todo` are still to be checked. */
  function Surviving(before: Pool, now: int, todo: set<string>): Pool {
    map id | id in before && (id in todo || Fresh(before[id], now)) :: before[id]
  }

  /** An expired device was found and is still in the pool. */
  ghost predicate Condemned(s: State, now: int, before: Pool, todo: set<string>, id: string) {
    && id in before && id !in todo && todo <= before.Keys && !Fresh(before[id], now)
    && s.pool == Surviving(before, now, todo + {id})
  }

  ghost predicate PoolWorkOk(s: State, pc: Pc) {
    match pc
    case ByeLooked(id) => id in s.pool
    case ByeTelling(id, told) => id in s.pool && told <= |s.lost|
    case Traversing(_, todo) => todo <= s.pool.Keys
    case Expiring(now, before, todo) => todo <= before.Keys && s.pool == Surviving(before, now, todo)
    case ExpiryLooked(now, before, todo, id) => Condemned(s, now, before, todo, id)
    case ExpiryTelling(now, before, todo, id, told) => Condemned(s, now, before, todo, id) && told <= |s.lost|
    case ExpiryTold(now, before, todo, id, _) => Condemned(s, now, before, todo, id)
    case _ => true
  }

  ghost predicate PoolWork(s: State) {
    s.poolLock.Some? ==> PoolWorkOk(s, At(s, s.poolLock.value))
  }

  /** Nobody else touches the pool of its owner, nor the callbacks of theirs. */
  lemma OthersLeavePool(s: State, e: Event)
    requires Locks(s) && Enabled(s, e) && s.poolLock.Some? && s.poolLock.value != ActorOf(e)
    ensures Next(s, e).pool == s.pool && Next(s, e).poolLock == s.poolLock
    ensures Next(s, e).removed == s.removed && Next(s, e).lostShown == s.lostShown
    ensures s.callbacksLock == s.poolLock ==> Next(s, e).lost == s.lost
  {
    hide Ids, Old;
    var a := ActorOf(e);
    assert OwnLocks(s, a);
  }

  lemma SurvivingAll(pool: Pool, now: int)
    ensures Surviving(pool, now, pool.Keys) == pool
  {
  }

  /** A device still fresh is kept, an old one is condemned. */
  lemma SurvivingChecked(before: Pool, now: int, todo: set<string>, id: string)
    requires id in todo && todo <= before.Keys
    ensures if !Fresh(before[id], now) then todo - {id} + {id} == todo
            else Surviving(before, now, todo - {id}) == Surviving(before, now, todo)
  {
  }

  lemma SurvivingErased(before: Pool, now: int, todo: set<string>, id: string)
    requires id in before && id !in todo && !Fresh(before[id], now)
    ensures Surviving(before, now, todo + {id}) - {id} == Surviving(before, now, todo)
  {
  }

  lemma ExplorerPoolWork(s: State, e: Event)
    requires Locks(s) && PoolWork(s) && Enabled(s, e) && IsExplorerStep(e)
    requires s.poolLock.Some? ==> s.poolLock.value == EXPLORER
    ensures PoolWork(Next(s, e))
  {
    hide CallbackStep, ExpiryStep, Ids, Condemned, Surviving;
    assert OwnLocks(s, EXPLORER);
  }

  lemma CallbackPoolWork(s: State, e: Event)
    requires Locks(s) && PoolWork(s) && Enabled(s, e) && IsCallbackStep(e)
    requires s.poolLock.Some? ==> s.poolLock.value == ActorOf(e)
    ensures PoolWork(Next(s, e))
  {
    hide ExplorerStep, ExpiryStep, Surviving;
    assert OwnLocks(s, ActorOf(e));
  }

  lemma ExpiryPoolWork(s: State, e: Event)
    requires Locks(s) && PoolWork(s) && Enabled(s, e) && !IsExplorerStep(e) && !IsCallbackStep(e)
    requires s.poolLock.Some? ==> s.poolLock.value == ActorOf(e)
    ensures PoolWork(Next(s, e))
  {
    var a := ActorOf(e);
    assert OwnLocks(s, a);
    var pc := At(s, a);
    hide ExplorerStep, CallbackStep, Ids;
    if e.StartExpiry? {
      SurvivingAll(s.pool, e.now);
    } else if e.Check? {
      assert s.pool[e.id] == pc.before[e.id];
      SurvivingChecked(pc.before, pc.now, pc.todo, e.id);
    } else if e.EraseExpired? {
      SurvivingErased(pc.before, pc.now, pc.todo, pc.id);
    }
  }

  lemma PoolWorkStep(s: State, e: Event)
    requires Locks(s) && PoolWork(s) && Enabled(s, e)
    ensures PoolWork(Next(s, e))
  {
    if s.poolLock.Some? && s.poolLock.value != ActorOf(e) {
      OthersLeavePool(s, e);
      OthersStay(s, e);
      assert OwnLocks(s, s.poolLock.value);
      hide Next, Surviving, Enabled;
    } else {
      hide PoolWork, Next, Locks, Enabled;
      if IsExplorerStep(e) {
        ExplorerPoolWork(s, e);
      } else if IsCallbackStep(e) {
        CallbackPoolWork(s, e);
      } else {
        ExpiryPoolWork(s, e);
      }
    }
  }

  // ---------------------------------------------------------------- lost devices are told

  /** One visit of a device by each of the given registrations, in order. */
  function Tell(ids: seq<nat>, device: DeviceDesc): seq<(nat, DeviceDesc)> {
    seq(|ids|, i requires 0 <= i < |ids| => (ids[i], device))
  }

  function AllTold(removed: seq<Removal>): seq<(nat, DeviceDesc)> {
    if removed == [] then []
    else
      var n := |removed| - 1;
      AllTold(removed[..n]) + Tell(removed[n].told, removed[n].device)
  }

  /** The visits done for the device that is being removed. */
  function BeingTold(s: State, pc: Pc): seq<(nat, DeviceDesc)> {
    match pc
    case ByeTelling(id, told) =>
      if id in s.pool && told <= |s.lost| then Tell(Ids(s.lost)[..told], s.pool[id].device) else []
    case ExpiryTelling(_, _, _, id, told) =>
      if id in s.pool && told <= |s.lost| then Tell(Ids(s.lost)[..told], s.pool[id].device) else []
    case ExpiryTold(_, _, _, id, toldIds) =>
      if id in s.pool then Tell(toldIds, s.pool[id].device) else []
    case _ => []
  }

  /** The visits by lost callbacks are those of the removals, in order, and of the one under way. */
  ghost predicate Told(s: State) {
    s.lostShown == AllTold(s.removed) + if s.poolLock.Some? then BeingTold(s, At(s, s.poolLock.value)) else []
  }

  lemma TellOneMore(regs: seq<Registration>, told: nat, device: DeviceDesc, before: seq<(nat, DeviceDesc)>)
    requires told < |regs|
    ensures before + Tell(Ids(regs)[..told], device) + [(regs[told].id, device)] ==
            before + Tell(Ids(regs)[..told + 1], device)
  {
    assert Tell(Ids(regs)[..told], device) + [(regs[told].id, device)] == Tell(Ids(regs)[..told + 1], device);
  }

  lemma AllToldOneMore(removed: seq<Removal>, r: Removal)
    ensures AllTold(removed + [r]) == AllTold(removed) + Tell(r.told, r.device)
    ensures AllTold(removed + [r]) + [] == AllTold(removed + [r])
  {
    assert (removed + [r])[..|removed|] == removed;
  }

  lemma TellNone(regs: seq<Registration>, device: DeviceDesc)
    ensures Tell(Ids(regs)[..0], device) == []
  {
  }

  lemma TellWhole(regs: seq<Registration>, told: nat)
    requires told == |regs|
    ensures told <= |Ids(regs)| && Ids(regs)[..told] == Ids(regs)
  {
  }

  lemma ExplorerTold(s: State, e: Event)
    requires Locks(s) && PoolWork(s) && Told(s) && Enabled(s, e) && IsExplorerStep(e)
    requires s.poolLock.Some? ==> s.poolLock.value == EXPLORER
    ensures Told(Next(s, e))
  {
    assert OwnLocks(s, EXPLORER);
    var pc := At(s, EXPLORER);
    hide CallbackStep, ExpiryStep, Tell, AllTold, Condemned;
    if e.TellBye? {
      TellOneMore(s.lost, pc.told, s.pool[pc.id].device, AllTold(s.removed));
    } else if e.EraseBye? {
      TellWhole(s.lost, pc.told);
      AllToldOneMore(s.removed, Removal(s.pool[pc.id].device, Ids(s.lost)));
    } else if e.LockForBye? {
      TellNone(s.lost, s.pool[pc.id].device);
    }
  }

  lemma CallbackTold(s: State, e: Event)
    requires Locks(s) && Told(s) && Enabled(s, e) && IsCallbackStep(e)
    requires s.poolLock.Some? ==> s.poolLock.value == ActorOf(e)
    ensures Told(Next(s, e))
  {
    assert OwnLocks(s, ActorOf(e));
    hide ExplorerStep, ExpiryStep, Tell, AllTold, Without, Ids;
    if s.callbacksLock.Some? {
      LostKept(s, e);
    }
    if s.poolLock.Some? {
      assert Next(s, e).poolLock.None? || Next(s, e).poolLock == s.poolLock;
    }
  }

  /** Whoever tells lost callbacks holds their vector. */
  lemma LostKept(s: State, e: Event)
    requires Locks(s) && Enabled(s, e) && IsCallbackStep(e) && s.callbacksLock.Some?
    ensures Next(s, e).lost == s.lost
  {
  }

  lemma ExpiryTellingTold(s: State, e: Event)
    requires Locks(s) && PoolWork(s) && Told(s) && Enabled(s, e) && (e.TellExpiry? || e.EndTelling?)
    requires s.poolLock.Some? ==> s.poolLock.value == ActorOf(e)
    ensures Told(Next(s, e))
  {
    var a := ActorOf(e);
    assert OwnLocks(s, a);
    var pc := At(s, a);
    hide Tell, AllTold, Condemned, Old;
    if e.TellExpiry? {
      TellOneMore(s.lost, pc.told, s.pool[pc.id].device, AllTold(s.removed));
    } else {
      TellWhole(s.lost, pc.told);
    }
  }

  lemma EraseExpiredTold(s: State, e: Event)
    requires Locks(s) && Told(s) && Enabled(s, e) && e.EraseExpired?
    requires s.poolLock.Some? ==> s.poolLock.value == ActorOf(e)
    ensures Told(Next(s, e))
  {
    assert OwnLocks(s, ActorOf(e));
    EraseExpiredStep(s, e);
    var pc, s' := At(s, ActorOf(e)), Next(s, e);
    hide Tell, AllTold, Next, Enabled, Locks, OwnLocks, BeingTold;
    AllToldOneMore(s.removed, Removal(s.pool[pc.id].device, pc.toldIds));
  }

  lemma EraseExpiredStep(s: State, e: Event)
    requires Enabled(s, e) && e.EraseExpired?
    ensures var s', pc := Next(s, e), At(s, e.a);
            && pc.ExpiryTold? && pc.id in s.pool && At(s', e.a).Expiring?
            && s'.lostShown == s.lostShown && s'.poolLock == s.poolLock
            && s'.removed == s.removed + [Removal(s.pool[pc.id].device, pc.toldIds)]
            && BeingTold(s, pc) == Tell(pc.toldIds, s.pool[pc.id].device) && BeingTold(s', At(s', e.a)) == []
  {
    hide Tell, Ids;
  }

  lemma OtherExpiryTold(s: State, e: Event)
    requires Locks(s) && Told(s) && Enabled(s, e) && !IsExplorerStep(e) && !IsCallbackStep(e)
    requires !e.TellExpiry? && !e.EndTelling? && !e.EraseExpired?
    requires s.poolLock.Some? ==> s.poolLock.value == ActorOf(e)
    ensures Told(Next(s, e))
  {
    var a := ActorOf(e);
    assert OwnLocks(s, a);
    hide Tell, AllTold, Old, Ids;
    if e.LockForExpiry? && At(s, a).id in s.pool {
      TellNone(s.lost, s.pool[At(s, a).id].device);
    }
  }

  lemma ToldStep(s: State, e: Event)
    requires Locks(s) && PoolWork(s) && Told(s) && Enabled(s, e)
    ensures Told(Next(s, e))
  {
    if s.poolLock.Some? && s.poolLock.value != ActorOf(e) {
      OthersLeavePool(s, e);
      OthersStay(s, e);
      assert OwnLocks(s, s.poolLock.value);
      hide Next, Enabled, Tell, AllTold;
    } else {
      hide PoolWork, Next, Locks, Enabled, Told;
      if IsExplorerStep(e) {
        ExplorerTold(s, e);
      } else if IsCallbackStep(e) {
        CallbackTold(s, e);
      } else if e.TellExpiry? || e.EndTelling? {
        ExpiryTellingTold(s, e);
      } else if e.EraseExpired? {
        EraseExpiredTold(s, e);
      } else {
        OtherExpiryTold(s, e);
      }
    }
  }
}
