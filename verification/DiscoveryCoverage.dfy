/** No device is missed by a callback that always returns true. */
module DiscoveryCoverage {
  import opened DiscoverySystem
  import opened DiscoverySafety

  /** The explorer has stored a description under this id, and has not shown it yet to the callback
      at this position. */
  predicate AnnouncePending(s: State, index: nat, id: string) {
    match At(s, EXPLORER)
    case Stored(d, _) => d == id
    case Announcing(d, _, done) => d == id && done <= index
    case _ => false
  }

  /** The call that registered this callback has not come to this device yet. */
  predicate TraversalPending(s: State, reg: Registration, id: string) {
    s.callbacksLock.Some? &&
    match At(s, s.callbacksLock.value)
    case Registered(r) => r == reg
    case Traversing(r, todo) => r == reg && id in todo
    case _ => false
  }

  predicate Covered(s: State, index: nat, id: string)
    requires index < |s.callbacks| && id in s.pool
  {
    || Visit(s.callbacks[index].id, id, s.pool[id]) in s.shown
    || AnnouncePending(s, index, id)
    || TraversalPending(s, s.callbacks[index], id)
  }

  /** Each registered callback that always returns true has been shown every entry of the pool, but for these
      two cases. As every entry has a number of its own, visits made before a device last left do not count. */
  ghost predicate NoneMissed(s: State) {
    forall i, id | 0 <= i < |s.callbacks| && s.callbacks[i].steady && id in s.pool :: Covered(s, i, id)
  }

  /** What the explorer announces is what it stored. */
  predicate Announces(s: State) {
    match At(s, EXPLORER)
    case Stored(id, entry) => id in s.pool ==> s.pool[id] == entry
    case Announcing(id, entry, _) => id in s.pool ==> s.pool[id] == entry
    case _ => true
  }

  /** Registrations have numbers of their own, so that what was shown to one was not to another; so have the
      entries stored. */
  ghost predicate WellNumbered(s: State) {
    && (forall i | 0 <= i < |s.callbacks| :: s.callbacks[i].id < s.nextId)
    && (forall i, j | 0 <= i < j < |s.callbacks| :: s.callbacks[i].id != s.callbacks[j].id)
    && (forall v | v in s.shown :: v.reg < s.nextId && v.entry.number < s.stores)
    && (forall id | id in s.pool :: s.pool[id].number < s.stores)
    && (AnnouncesNow(s) ==> At(s, EXPLORER).entry.number < s.stores)
    && (forall a: Actor | At(s, a).Registered? || At(s, a).Traversing? :: At(s, a).reg.id < s.nextId)
  }

  lemma ExplorerNumbered(s: State, e: Event)
    requires WellNumbered(s) && Enabled(s, e) && IsExplorerStep(e)
    ensures WellNumbered(Next(s, e))
  {
    OthersStay(s, e);
    hide CallbackStep, ExpiryStep, Ids;
  }

  lemma RegistrationNumbered(s: State, e: Event)
    requires WellNumbered(s) && Enabled(s, e)
    requires e.AddCallback? || e.DelCallback? || e.AddLostCallback? || e.DelLostCallback?
    ensures WellNumbered(Next(s, e))
  {
    OthersStay(s, e);
    hide ExplorerStep, ExpiryStep;
    assert At(s, ActorOf(e)) == At(s, ActorOf(e));
  }

  lemma TraversalNumbered(s: State, e: Event)
    requires WellNumbered(s) && Enabled(s, e) && (e.StartTraverse? || e.Traverse? || e.EndTraverse?)
    ensures WellNumbered(Next(s, e))
  {
    OthersStay(s, e);
    hide ExplorerStep, ExpiryStep, Without;
    assert At(s, ActorOf(e)) == At(s, ActorOf(e));
  }

  lemma ExpiryNumbered(s: State, e: Event)
    requires WellNumbered(s) && Enabled(s, e) && !IsExplorerStep(e) && !IsCallbackStep(e)
    ensures WellNumbered(Next(s, e))
  {
    OthersStay(s, e);
    hide ExplorerStep, CallbackStep, Ids, Old;
  }

  lemma NumberedStep(s: State, e: Event)
    requires WellNumbered(s) && Enabled(s, e)
    ensures WellNumbered(Next(s, e))
  {
    hide WellNumbered, Next, Enabled;
    if IsExplorerStep(e) {
      ExplorerNumbered(s, e);
    } else if e.StartTraverse? || e.Traverse? || e.EndTraverse? {
      TraversalNumbered(s, e);
    } else if IsCallbackStep(e) {
      RegistrationNumbered(s, e);
    } else {
      ExpiryNumbered(s, e);
    }
  }

  // ---------------------------------------------------------------- steps that show nothing

  predicate IsCoverageStep(e: Event) {
    e.Store? || e.LockToAnnounce? || e.Announce? || e.EndAnnounce? || e.AddCallback? || e.StartTraverse? ||
    e.Traverse? || e.EndTraverse? || e.DelCallback?
  }

  /** The pool may lose devices, nothing else changes. */
  ghost predicate OnlyLoses(s: State, s': State) {
    && s'.callbacks == s.callbacks && s'.shown == s.shown
    && (forall id | id in s'.pool :: id in s.pool && s'.pool[id] == s.pool[id])
    && (AnnouncesNow(s) ==> At(s', EXPLORER) == At(s, EXPLORER))
    && (TraversesNow(s) ==> s'.callbacksLock == s.callbacksLock &&
                            At(s', s.callbacksLock.value) == At(s, s.callbacksLock.value))
    && (AnnouncesNow(s') ==> AnnouncesNow(s))
  }

  lemma QuietExplorer(s: State, e: Event)
    requires Locks(s) && Roles(s) && Enabled(s, e) && !IsCoverageStep(e) && IsExplorerStep(e)
    ensures OnlyLoses(s, Next(s, e))
  {
    assert OwnLocks(s, EXPLORER);
    if s.callbacksLock.Some? {
      assert OwnLocks(s, s.callbacksLock.value);
    }
    hide Ids, CallbackStep, ExpiryStep;
  }

  lemma QuietExpiry(s: State, e: Event)
    requires Locks(s) && Enabled(s, e) && !IsExplorerStep(e) && !IsCallbackStep(e)
    ensures OnlyLoses(s, Next(s, e))
  {
    assert OwnLocks(s, ActorOf(e));
    hide Ids, Old, ExplorerStep, CallbackStep, Locks;
  }

  lemma QuietLost(s: State, e: Event)
    requires Enabled(s, e) && (e.AddLostCallback? || e.DelLostCallback?)
    ensures OnlyLoses(s, Next(s, e))
  {
    hide Without, ExplorerStep, ExpiryStep;
  }

  predicate AnnouncesNow(s: State) {
    At(s, EXPLORER).Stored? || At(s, EXPLORER).Announcing?
  }

  predicate TraversesNow(s: State) {
    s.callbacksLock.Some? && (At(s, s.callbacksLock.value).Registered? || At(s, s.callbacksLock.value).Traversing?)
  }

  lemma QuietCoverage(s: State, e: Event)
    requires Locks(s) && Roles(s) && Enabled(s, e) && !IsCoverageStep(e)
    requires NoneMissed(s) && Announces(s)
    ensures NoneMissed(Next(s, e)) && Announces(Next(s, e))
  {
    if IsExplorerStep(e) {
      QuietExplorer(s, e);
    } else if IsCallbackStep(e) {
      QuietLost(s, e);
    } else {
      QuietExpiry(s, e);
    }
    var s' := Next(s, e);
    hide Next, Enabled, Locks, Roles;
    forall i, id | 0 <= i < |s'.callbacks| && s'.callbacks[i].steady && id in s'.pool
      ensures Covered(s', i, id)
    {
      assert Covered(s, i, id);
    }
  }

  // ---------------------------------------------------------------- steps that show

  /** The devices that were covered stay so. */
  lemma StillCovered(s: State, t: State)
    requires NoneMissed(s)
    requires t.callbacks == s.callbacks && t.pool == s.pool && s.shown <= t.shown
    requires forall i, id | 0 <= i < |s.callbacks| && AnnouncePending(s, i, id) && id in s.pool ::
               AnnouncePending(t, i, id) ||
               (s.callbacks[i].steady ==> Visit(s.callbacks[i].id, id, s.pool[id]) in t.shown)
    requires forall reg, id | TraversalPending(s, reg, id) && id in s.pool ::
               TraversalPending(t, reg, id) || (reg.steady ==> Visit(reg.id, id, s.pool[id]) in t.shown)
    ensures NoneMissed(t)
  {
    forall i, id | 0 <= i < |t.callbacks| && t.callbacks[i].steady && id in t.pool
      ensures Covered(t, i, id)
    {
      assert Covered(s, i, id);
    }
  }

  /** A new entry, be it for the same description: nobody has been shown it, everybody will. */
  lemma StoreCoverage(s: State, e: Event)
    requires Roles(s) && Enabled(s, e) && e.Store? && NoneMissed(s) && Announces(s) && WellNumbered(s)
    ensures NoneMissed(Next(s, e)) && Announces(Next(s, e))
    ensures var s', id := Next(s, e), At(s, EXPLORER).id;
            && id in s'.pool && (forall v | v in s'.shown :: v.entry != s'.pool[id])
            && forall i: nat :: AnnouncePending(s', i, id)
  {
    var s' := Next(s, e);
    forall i, id | 0 <= i < |s'.callbacks| && s'.callbacks[i].steady && id in s'.pool
      ensures Covered(s', i, id)
    {
      if id != At(s, EXPLORER).id {
        assert Covered(s, i, id);
      }
    }
  }

  /** The announcement goes through the callbacks in order. */
  lemma AnnounceCoverage(s: State, e: Event)
    requires Locks(s) && Enabled(s, e) && NoneMissed(s) && Announces(s)
    requires e.LockToAnnounce? || e.Announce? || e.EndAnnounce?
    ensures NoneMissed(Next(s, e)) && Announces(Next(s, e))
  {
    assert OwnLocks(s, EXPLORER);
    hide NoneMissed, Locks;
    StillCovered(s, Next(s, e));
  }

  /** A new callback: the traversal of its registration is pending for every device. */
  lemma AddCoverage(s: State, e: Event)
    requires Roles(s) && Enabled(s, e) && e.AddCallback? && NoneMissed(s) && Announces(s) && WellNumbered(s)
    ensures NoneMissed(Next(s, e)) && Announces(Next(s, e))
    ensures var s', n := Next(s, e), |s.callbacks|;
            && |s'.callbacks| == n + 1 && (forall v | v in s'.shown :: v.reg != s'.callbacks[n].id)
            && forall id :: TraversalPending(s', s'.callbacks[n], id)
  {
    var s' := Next(s, e);
    forall i, id | 0 <= i < |s'.callbacks| && s'.callbacks[i].steady && id in s'.pool
      ensures Covered(s', i, id)
    {
      if i < |s.callbacks| {
        assert s'.callbacks[i] == s.callbacks[i];
        assert Covered(s, i, id);
      }
    }
  }

  lemma TraverseCoverage(s: State, e: Event)
    requires Locks(s) && Roles(s) && Enabled(s, e) && NoneMissed(s) && Announces(s)
    requires e.StartTraverse? || e.Traverse? || e.EndTraverse?
    ensures NoneMissed(Next(s, e)) && Announces(Next(s, e))
  {
    var a := ActorOf(e);
    assert OwnLocks(s, a);
    assert a != EXPLORER;
    hide NoneMissed, Locks;
    StillCovered(s, Next(s, e));
  }

  /** No announcement or traversal is under way when a callback goes. */
  lemma DelCoverage(s: State, e: Event)
    requires Locks(s) && Enabled(s, e) && e.DelCallback? && NoneMissed(s) && Announces(s)
    ensures NoneMissed(Next(s, e)) && Announces(Next(s, e))
  {
    var s' := Next(s, e);
    assert OwnLocks(s, EXPLORER);
    forall i, id | 0 <= i < |s'.callbacks| && s'.callbacks[i].steady && id in s'.pool
      ensures Covered(s', i, id)
    {
      assert Covered(s, if i < e.index || e.index >= |s.callbacks| then i else i + 1, id);
    }
  }

  lemma CoverageStep(s: State, e: Event)
    requires Locks(s) && Roles(s) && Enabled(s, e) && NoneMissed(s) && Announces(s) && WellNumbered(s)
    ensures NoneMissed(Next(s, e)) && Announces(Next(s, e))
  {
    hide Locks, Roles, NoneMissed, Announces, WellNumbered, Next, Enabled;
    if !IsCoverageStep(e) {
      QuietCoverage(s, e);
    } else if e.Store? {
      StoreCoverage(s, e);
    } else if e.LockToAnnounce? || e.Announce? || e.EndAnnounce? {
      AnnounceCoverage(s, e);
    } else if e.AddCallback? {
      AddCoverage(s, e);
    } else if e.DelCallback? {
      DelCoverage(s, e);
    } else {
      TraverseCoverage(s, e);
    }
  }
}
