/** The wakeup logic of the device event loop: how often services are polled when
    loopWakeup is called at arbitrary times. */
module EventLoop {

  /** The polling period, in clock ticks (1000 ms of a nanosecond clock). */
  const WAIT := 1_000_000_000

  /** What the wait reported. Ends is a request to exit, or a result that is neither of the others. */
  datatype Outcome = TimedOut | Early | Ends

  /** One turn of the loop up to the end of its wait: the clock when the turn began, the clock
      when the wait returned, and what the wait reported. */
  datatype Wake = Wake(start: int, returned: int, outcome: Outcome)

  /** A monotone clock, and timeouts that are never reported too soon. */
  ghost predicate Timeline(wakes: seq<Wake>) {
    && (forall i | 0 <= i < |wakes| :: wakes[i].start <= wakes[i].returned)
    && (forall i | 0 <= i < |wakes| && wakes[i].outcome.TimedOut? :: wakes[i].start + WAIT <= wakes[i].returned)
    && (forall i | 0 < i < |wakes| :: wakes[i - 1].returned <= wakes[i].start)
  }

  /** The loop's memory of its last early pass. */
  datatype Memory = Memory(didEarly: bool, earlyTime: int)

  /** Whether a turn goes on to poll the services. */
  predicate Polls(m: Memory, w: Wake) {
    w.outcome.TimedOut? || !m.didEarly || (w.start + WAIT) - m.earlyTime >= WAIT
  }

  function After(m: Memory, w: Wake): Memory {
    if w.outcome.TimedOut? then m.(didEarly := false)
    else if Polls(m, w) then Memory(true, w.start + WAIT)
    else m
  }

  /** The number of passes that reach the polling code, up to the end of the loop. */
  function Passes(m: Memory, wakes: seq<Wake>): nat
    decreases |wakes|
  {
    if wakes == [] || wakes[0].outcome.Ends? then 0
    else (if Polls(m, wakes[0]) then 1 else 0) + Passes(After(m, wakes[0]), wakes[1..])
  }

  /** The loop, run over the returns of its waits. `count` is the number of passes. */
  method Loop(wakes: seq<Wake>) returns (count: nat)
    ensures count == Passes(Memory(false, 0), wakes)
  {
    count := 0;
    var didearly, earlytime := false, 0;
    var i := 0;
    assert wakes[0..] == wakes;
    while i < |wakes|
      invariant 0 <= i <= |wakes|
      invariant count + Passes(Memory(didearly, earlytime), wakes[i..]) == Passes(Memory(false, 0), wakes)
    {
      var wkuptime := wakes[i].start + WAIT;
      var outcome := wakes[i].outcome;
      assert wakes[i..][1..] == wakes[i + 1..];
      i := i + 1;
      if outcome == Ends {
        break;
      } else if outcome == Early {
        if didearly {
          var sincearly := wkuptime - earlytime;
          if sincearly < WAIT {
            continue;
          } else {
            earlytime := wkuptime;
          }
        } else {
          didearly := true;
          earlytime := wkuptime;
        }
      } else {
        didearly := false;
      }
      count := count + 1;
    }
  }

  /** What p passes since the time `base` can have been, for a loop that is now at time t. */
  ghost predicate Budget(m: Memory, base: int, t: int, p: nat) {
    && base <= t
    && if m.didEarly then
         m.earlyTime - WAIT <= t &&
         if m.earlyTime - WAIT < base then p == 0 else p <= 2 * ((m.earlyTime - WAIT - base) / WAIT) + 1
       else p <= 2 * ((t - base) / WAIT)
  }

  lemma FloorStep(a: int, b: int)
    requires 0 <= a && a + WAIT <= b
    ensures b / WAIT >= a / WAIT + 1
  {
  }

  lemma FloorMonotone(a: int, b: int)
    requires 0 <= a <= b
    ensures a / WAIT <= b / WAIT
  {
  }

  lemma BudgetStep(m: Memory, base: int, t: int, p: nat, w: Wake)
    requires Budget(m, base, t, p) && t <= w.start <= w.returned
    requires w.outcome.TimedOut? ==> w.start + WAIT <= w.returned
    ensures Budget(After(m, w), base, w.returned, p + (if Polls(m, w) then 1 else 0))
  {
    var last := if m.didEarly then m.earlyTime - WAIT else t;
    FloorMonotone(t - base, w.start - base);
    FloorMonotone(w.start - base, w.returned - base);
    if w.outcome.TimedOut? {
      FloorStep(w.start - base, w.returned - base);
    }
    if m.didEarly && last >= base {
      FloorMonotone(last - base, w.start - base);
      if !w.outcome.TimedOut? && Polls(m, w) {
        FloorStep(last - base, w.start - base);
      }
    }
  }

  lemma {:induction false} BudgetRun(m: Memory, base: int, t: int, p: nat, wakes: seq<Wake>, end: int)
    requires Budget(m, base, t, p) && Timeline(wakes)
    requires |wakes| > 0 ==> t <= wakes[0].start
    requires t <= end && forall i | 0 <= i < |wakes| :: wakes[i].returned <= end
    ensures p + Passes(m, wakes) <= 2 * ((end - base) / WAIT) + 1
    decreases |wakes|
  {
    if wakes == [] || wakes[0].outcome.Ends? {
      FloorMonotone(t - base, end - base);
      if m.didEarly && m.earlyTime - WAIT >= base {
        FloorMonotone(m.earlyTime - WAIT - base, end - base);
      }
    } else {
      BudgetStep(m, base, t, p, wakes[0]);
      var q := p + (if Polls(m, wakes[0]) then 1 else 0);
      assert Timeline(wakes[1..]) by { TimelineTail(wakes); }
      BudgetRun(After(m, wakes[0]), base, wakes[0].returned, q, wakes[1..], end);
    }
  }

  lemma TimelineTail(wakes: seq<Wake>)
    requires Timeline(wakes) && |wakes| > 0
    ensures Timeline(wakes[1..])
  {
    var tail := wakes[1..];
    forall i | 0 < i < |tail| ensures tail[i - 1].returned <= tail[i].start {
      assert tail[i - 1] == wakes[i] && tail[i] == wakes[i + 1];
    }
  }

  /** Whatever the pattern of loopWakeup calls, at most 2 * floor(T / 1 s) + 1 passes reach
      the polling code within a time T: from the start of the loop, and likewise from any
      later turn, the last early pass being in the past. */
  lemma PassesAreLimited(m: Memory, wakes: seq<Wake>, period: nat)
    requires Timeline(wakes) && |wakes| > 0
    requires m.didEarly ==> m.earlyTime - 1_000_000_000 <= wakes[0].start
    requires forall i | 0 <= i < |wakes| :: wakes[i].returned <= wakes[0].start + period
    ensures Passes(m, wakes) <= 2 * (period / 1_000_000_000) + 1
  {
    BudgetRun(m, wakes[0].start, wakes[0].start, 0, wakes, wakes[0].start + period);
  }

  /** n periods, each a timeout and an early wakeup right after it. */
  function Busy(n: nat, t: int): seq<Wake> {
    if n == 0 then [] else [Wake(t, t + WAIT, TimedOut), Wake(t + WAIT, t + WAIT, Early)] + Busy(n - 1, t + WAIT)
  }

  /** Its first period, apart. */
  lemma BusyFirst(n: nat, t: int)
    requires n > 0
    ensures var b, rest := Busy(n, t), Busy(n - 1, t + WAIT);
            && |b| == |rest| + 2 && b[0] == Wake(t, t + WAIT, TimedOut) && b[1] == Wake(t + WAIT, t + WAIT, Early)
            && b[1..][1..] == rest && b[1..][0] == b[1] && forall i | 2 <= i < |b| :: b[i] == rest[i - 2]
  {
  }

  lemma {:induction false} BusyTimes(n: nat, t: int)
    ensures |Busy(n, t)| == 2 * n
    ensures forall i | 0 <= i < |Busy(n, t)| :: t <= Busy(n, t)[i].start && Busy(n, t)[i].returned <= t + n * WAIT
  {
    if n > 0 {
      BusyTimes(n - 1, t + WAIT);
      BusyFirst(n, t);
      hide Busy;
    }
  }

  lemma {:induction false} BusyTimeline(n: nat, t: int)
    ensures Timeline(Busy(n, t))
  {
    if n > 0 {
      BusyTimeline(n - 1, t + WAIT);
      BusyTimes(n - 1, t + WAIT);
      BusyFirst(n, t);
      hide Busy;
      var b, rest := Busy(n, t), Busy(n - 1, t + WAIT);
      forall i | 0 < i < |b| ensures b[i - 1].returned <= b[i].start {
        if i > 2 {
          assert b[i - 1] == rest[i - 3] && b[i] == rest[i - 2];
        }
      }
    }
  }

  lemma {:induction false} BusyPasses(n: nat, t: int, m: Memory)
    ensures Passes(m, Busy(n, t)) == 2 * n
  {
    if n > 0 {
      BusyFirst(n, t);
      hide Busy;
      var b := Busy(n, t);
      var m1 := After(m, b[0]);
      BusyPasses(n - 1, t + WAIT, After(m1, b[1]));
      assert Passes(m1, b[1..]) == 1 + Passes(After(m1, b[1]), b[1..][1..]);
    }
  }

  /** The limit is reached, for every number of periods. */
  lemma LimitIsReached(n: nat)
    ensures exists wakes: seq<Wake> ::
              && |wakes| > 0 && Timeline(wakes) && wakes[0].start == 0
              && (forall i | 0 <= i < |wakes| :: wakes[i].returned <= n * 1_000_000_000)
              && Passes(Memory(false, 0), wakes) == 2 * n + 1
  {
    var early := Wake(0, 0, Early);
    var rest := Busy(n, 0);
    BusyPasses(n, 0, After(Memory(false, 0), early));
    BusyTimeline(n, 0);
    BusyTimes(n, 0);
    hide Busy;
    var wakes := [early] + rest;
    assert wakes[1..] == rest;
    forall i | 0 < i < |wakes| ensures wakes[i - 1].returned <= wakes[i].start {
      assert wakes[i] == rest[i - 1];
      if i > 1 {
        assert wakes[i - 1] == rest[i - 2];
      }
    }
    assert Timeline(wakes);
  }

  // ---------------------------------------------------------------- no starvation

  /** The memory after some turns. */
  function Recall(m: Memory, wakes: seq<Wake>): Memory
    decreases |wakes|
  {
    if wakes == [] then m else Recall(After(m, wakes[0]), wakes[1..])
  }

  ghost predicate GoesOn(wakes: seq<Wake>) {
    forall i | 0 <= i < |wakes| :: !wakes[i].outcome.Ends?
  }

  lemma {:induction false} PassesSplit(m: Memory, a: seq<Wake>, b: seq<Wake>)
    requires GoesOn(a)
    ensures Passes(m, a + b) == Passes(m, a) + Passes(Recall(m, a), b)
    decreases |a|
  {
    hide After, Polls;
    if a == [] {
      assert a + b == b;
    } else {
      assert (a + b)[1..] == a[1..] + b;
      PassesSplit(After(m, a[0]), a[1..], b);
    }
  }

  /** The last early pass was not after `base`. */
  predicate PassedBy(m: Memory, base: int) {
    m.didEarly ==> m.earlyTime - WAIT <= base
  }

  lemma {:induction false} RecallPast(m: Memory, wakes: seq<Wake>, base: int)
    requires PassedBy(m, base) && forall i | 0 <= i < |wakes| :: wakes[i].start <= base
    ensures PassedBy(Recall(m, wakes), base)
    decreases |wakes|
  {
    if wakes != [] {
      RecallPast(After(m, wakes[0]), wakes[1..], base);
    }
  }

  /** A turn that begins a period or more after all passes of the past is enough. */
  lemma {:induction false} SomePass(m: Memory, wakes: seq<Wake>, base: int)
    requires wakes != [] && GoesOn(wakes) && PassedBy(m, base)
    requires wakes[|wakes| - 1].start >= base + WAIT
    ensures Passes(m, wakes) > 0
    decreases |wakes|
  {
    if !Polls(m, wakes[0]) && |wakes| > 1 {
      SomePass(m, wakes[1..], base);
    }
  }

  lemma {:induction false} StartsInOrder(wakes: seq<Wake>, k: nat, j: nat)
    requires Timeline(wakes) && k <= j < |wakes|
    ensures wakes[k].start <= wakes[j].start
    decreases j
  {
    if k < j {
      StartsInOrder(wakes, k, j - 1);
    }
  }

  /** Whatever the pattern of loopWakeup calls: from any turn on, by the end of the first turn that begins a
      second later or more, the services have been polled. */
  lemma PollingGoesOn(wakes: seq<Wake>, j: nat, i: nat)
    requires Timeline(wakes) && j <= i < |wakes| && GoesOn(wakes[..i + 1])
    requires wakes[i].start >= wakes[j].start + 1_000_000_000
    ensures Passes(Memory(false, 0), wakes[..i + 1]) > Passes(Memory(false, 0), wakes[..j])
  {
    hide Passes, Recall;
    var m, window := Memory(false, 0), wakes[j..i + 1];
    assert wakes[..j] + window == wakes[..i + 1];
    forall k | 0 <= k < j ensures !wakes[k].outcome.Ends? && wakes[k].start <= wakes[j].start {
      assert wakes[..i + 1][k] == wakes[k];
      StartsInOrder(wakes, k, j);
    }
    forall k | 0 <= k < |window| ensures !window[k].outcome.Ends? {
      assert window[k] == wakes[..i + 1][j + k];
    }
    PassesSplit(m, wakes[..j], window);
    RecallPast(m, wakes[..j], wakes[j].start);
    SomePass(Recall(m, wakes[..j]), window, wakes[j].start);
  }
}
