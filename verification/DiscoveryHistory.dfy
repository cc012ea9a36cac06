/** The device pool against the tasks queued and the devices expired. */
module DiscoveryHistory {
  import opened Options
  import opened DeviceDescription
  import opened DiscoverySystem

  // ---------------------------------------------------------------- the pool follows its history

  function Applied(pool: Pool, c: Change): Pool {
    if c.Seen? then pool[c.id := c.entry] else pool - {c.id}
  }

  /** The pool after a sequence of changes. */
  function Replay(changes: seq<Change>): Pool {
    if changes == [] then map[] else Applied(Replay(changes[..|changes| - 1]), changes[|changes| - 1])
  }

  /** The last thing that happened to a device. */
  function LastChange(changes: seq<Change>, id: string): Option<Change> {
    if changes == [] then None
    else
      var n := |changes| - 1;
      if changes[n].id == id then Some(changes[n]) else LastChange(changes[..n], id)
  }

  /** A device is in the pool exactly when the last thing that happened to it was that it was seen
      alive, and its entry is the one made then. */
  lemma {:induction false} InPoolIff(changes: seq<Change>, id: string)
    ensures var last := LastChange(changes, id);
            if last.Some? && last.value.Seen? then id in Replay(changes) && Replay(changes)[id] == last.value.entry
            else id !in Replay(changes)
    decreases |changes|
  {
    if changes != [] {
      InPoolIff(changes[..|changes| - 1], id);
    }
  }

  lemma ReplayOneMore(changes: seq<Change>, c: Change)
    ensures Replay(changes + [c]) == Applied(Replay(changes), c)
  {
    assert (changes + [c])[..|changes|] == changes;
  }

  // ---------------------------------------------------------------- ... and its tasks

  /** A device seen alive, with its description, at some time, and for how long; or gone. */
  datatype Sighting = Sighting(device: DeviceDesc, at: int, expires: int)

  datatype Effect = Effect(id: string, sighting: Option<Sighting>)

  /** A task whose description does not parse has no effect. */
  function EffectOf(task: Task, at: int): seq<Effect> {
    match task
    case Byebye(id) => [Effect(id, None)]
    case Alive(id, device, expires) => if device.ok then [Effect(id, Some(Sighting(device, at, expires)))] else []
  }

  /** ... of tasks and the times they were taken. */
  function Effects(tasks: seq<Task>, times: seq<int>): seq<Effect>
    requires |tasks| <= |times|
  {
    if tasks == [] then []
    else
      var n := |tasks| - 1;
      Effects(tasks[..n], times) + EffectOf(tasks[n], times[n])
  }

  function ChangeEffect(c: Change): seq<Effect> {
    match c
    case Seen(id, entry) => [Effect(id, Some(Sighting(entry.device, entry.lastSeen, entry.expires)))]
    case Gone(id) => [Effect(id, None)]
    case Expired(_) => []
  }

  /** The changes that come from tasks. */
  function TaskEffects(changes: seq<Change>): seq<Effect> {
    if changes == [] then [] else TaskEffects(changes[..|changes| - 1]) + ChangeEffect(changes[|changes| - 1])
  }

  /** The explorer has taken a task that has had no effect yet. */
  predicate IsPending(pc: Pc) {
    pc.ByeTaken? || pc.ByeLooked? || pc.ByeTelling? || pc.Parsed?
  }

  predicate PendingOk(pc: Pc, task: Task, at: int) {
    match pc
    case ByeTaken(id) => task == Byebye(id)
    case ByeLooked(id) => task == Byebye(id)
    case ByeTelling(id, _) => task == Byebye(id)
    case Parsed(id, entry) =>
      task == Alive(id, entry.device, entry.expires) && entry.device.ok && entry.lastSeen == at
    case _ => true
  }

  /** The tasks that have had their effect. */
  function Done(s: State): seq<Task> {
    if IsPending(At(s, EXPLORER)) && s.taken != [] then s.taken[..|s.taken| - 1] else s.taken
  }

  /** First in, first out; and the pool is what the changes make of it, which are those of the tasks
      in their order, mixed with expiries. */
  ghost predicate Follows(s: State) {
    && s.accepted == s.taken + s.queue && |s.times| == |s.taken|
    && s.pool == Replay(s.changes)
    && TaskEffects(s.changes) == Effects(Done(s), s.times)
    && (IsPending(At(s, EXPLORER)) ==> 
          s.taken != [] && PendingOk(At(s, EXPLORER), s.taken[|s.taken| - 1], s.times[|s.taken| - 1]))
  }

  lemma EffectsOneMore(tasks: seq<Task>, task: Task, times: seq<int>)
    requires |tasks| < |times|
    ensures Effects(tasks + [task], times) == Effects(tasks, times) + EffectOf(task, times[|tasks|])
    ensures EffectOf(task, times[|tasks|]) == [] ==> Effects(tasks + [task], times) == Effects(tasks, times)
  {
    assert (tasks + [task])[..|tasks|] == tasks;
  }

  /** Later times make no difference. */
  lemma {:induction false} EffectsPrefix(tasks: seq<Task>, times: seq<int>, more: seq<int>)
    requires |tasks| <= |times|
    ensures Effects(tasks, times + more) == Effects(tasks, times)
    decreases |tasks|
  {
    hide EffectOf;
    if tasks != [] {
      EffectsPrefix(tasks[..|tasks| - 1], times, more);
    }
  }

  lemma TaskEffectsOneMore(changes: seq<Change>, c: Change)
    ensures TaskEffects(changes + [c]) == TaskEffects(changes) + ChangeEffect(c)
    ensures ChangeEffect(c) == [] ==> TaskEffects(changes + [c]) == TaskEffects(changes)
  {
    assert (changes + [c])[..|changes|] == changes;
  }

  predicate ChangesPool(e: Event) {
    e.LookForBye? || e.EraseBye? || e.Store? || e.EraseExpired?
  }

  /** Most steps leave the pool and what the explorer holds alone. */
  ghost predicate Quiet(s: State, s': State) {
    && s'.pool == s.pool && s'.changes == s.changes && s'.taken == s.taken && s'.times == s.times
    && s'.queue == s.queue && s'.accepted == s.accepted
    && (IsPending(At(s', EXPLORER)) <==> IsPending(At(s, EXPLORER)))
    && forall task, at :: PendingOk(At(s, EXPLORER), task, at) ==> PendingOk(At(s', EXPLORER), task, at)
  }

  lemma QuietExplorerStep(s: State, e: Event)
    requires Enabled(s, e) && IsExplorerStep(e) && !ChangesPool(e) && !e.Take?
    ensures Quiet(s, Next(s, e))
  {
    hide Ids, CallbackStep, ExpiryStep;
  }

  lemma QuietCallbackStep(s: State, e: Event)
    requires Enabled(s, e) && IsCallbackStep(e)
    ensures Quiet(s, Next(s, e))
  {
    hide Without, ExplorerStep, ExpiryStep;
  }

  lemma QuietExpiryStep(s: State, e: Event)
    requires Enabled(s, e) && !IsExplorerStep(e) && !IsCallbackStep(e) && !ChangesPool(e) && !e.Put?
    ensures Quiet(s, Next(s, e))
  {
    hide Ids, Old, ExplorerStep, CallbackStep;
  }

  lemma QuietStep(s: State, e: Event)
    requires Enabled(s, e) && !ChangesPool(e) && !e.Put? && !e.Take?
    ensures Quiet(s, Next(s, e))
  {
    hide Next, Enabled, Quiet;
    if IsExplorerStep(e) {
      QuietExplorerStep(s, e);
    } else if IsCallbackStep(e) {
      QuietCallbackStep(s, e);
    } else {
      QuietExpiryStep(s, e);
    }
  }

  /** A task is taken: its effect is to come, or it has none. */
  lemma TaskTaken(s: State, t: State, task: Task, at: int)
    requires Follows(s) && !IsPending(At(s, EXPLORER))
    requires t.accepted == s.accepted && t.taken == s.taken + [task] && s.queue == [task] + t.queue
    requires t.times == s.times + [at]
    requires t.changes == s.changes && t.pool == s.pool
    requires if IsPending(At(t, EXPLORER)) then PendingOk(At(t, EXPLORER), task, at) else EffectOf(task, at) == []
    ensures Follows(t)
  {
    hide Replay, TaskEffects, Effects, EffectOf, IsPending, PendingOk;
    EffectsOneMore(s.taken, task, t.times);
    EffectsPrefix(s.taken, s.times, [at]);
    assert s.taken + ([task] + t.queue) == s.taken + [task] + t.queue;
    assert (s.taken + [task])[..|s.taken|] == s.taken;
  }

  lemma TakeFollows(s: State, e: Event)
    requires Follows(s) && Enabled(s, e) && e.Take?
    ensures Follows(Next(s, e))
  {
    hide Follows;
    assert s.queue == [s.queue[0]] + s.queue[1..];
    TaskTaken(s, Next(s, e), s.queue[0], e.now);
  }

  /** The task the explorer holds has its effect. */
  lemma TaskDone(s: State, t: State, c: Change)
    requires Follows(s) && IsPending(At(s, EXPLORER)) && !IsPending(At(t, EXPLORER))
    requires t.accepted == s.accepted && t.taken == s.taken && t.queue == s.queue && t.times == s.times
    requires t.changes == s.changes + [c] && t.pool == Applied(s.pool, c)
    requires ChangeEffect(c) == EffectOf(s.taken[|s.taken| - 1], s.times[|s.taken| - 1])
    ensures Follows(t)
  {
    hide Replay, TaskEffects, Effects, ChangeEffect, EffectOf, Applied;
    var n := |s.taken| - 1;
    assert s.taken == s.taken[..n] + [s.taken[n]];
    EffectsOneMore(s.taken[..n], s.taken[n], s.times);
    TaskEffectsOneMore(s.changes, c);
    ReplayOneMore(s.changes, c);
  }

  lemma EffectFollows(s: State, e: Event)
    requires Follows(s) && Enabled(s, e) && (e.LookForBye? || e.EraseBye? || e.Store?)
    ensures Follows(Next(s, e))
  {
    var pc := At(s, EXPLORER);
    hide Replay, TaskEffects, Effects, Ids;
    if e.LookForBye? && pc.id in s.pool {
    } else {
      assert e.LookForBye? ==> s.pool - {pc.id} == s.pool;
      TaskDone(s, Next(s, e), if e.Store? then Seen(pc.id, Numbered(s, pc.entry)) else Gone(pc.id));
    }
  }

  lemma ExpiryFollows(s: State, e: Event)
    requires Follows(s) && Enabled(s, e) && e.EraseExpired? && !IsPending(At(s, e.a))
    ensures Follows(Next(s, e))
  {
    hide Replay, TaskEffects, Effects, Ids;
    var c := Expired(At(s, e.a).id);
    TaskEffectsOneMore(s.changes, c);
    ReplayOneMore(s.changes, c);
  }

  lemma FollowsStep(s: State, e: Event)
    requires Follows(s) && Enabled(s, e)
    ensures Follows(Next(s, e))
  {
    if e.Put? {
      assert s.taken + s.queue + [e.task] == s.taken + (s.queue + [e.task]);
    } else if e.Take? {
      TakeFollows(s, e);
    } else if e.EraseExpired? {
      ExpiryFollows(s, e);
    } else if ChangesPool(e) {
      EffectFollows(s, e);
    } else {
      QuietStep(s, e);
      hide Next, Enabled, Replay, TaskEffects, Effects;
    }
  }

  lemma StartFollows()
    ensures Follows(START)
  {
  }
}
