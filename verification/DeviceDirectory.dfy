/** The loops that the directory runs inside its locked sections: visiting a device, traversing the
    pool, announcing a device and expiring old ones. */
module DeviceDirectory {
  import opened DeviceDescription
  import opened DiscoverySystem
  import opened DiscoverySafety

  /** A user's callback. */
  type Visitor = (DeviceDesc, ServiceDesc) -> bool

  datatype Call = Call(device: DeviceDesc, service: ServiceDesc)

  predicate Accepts(visit: Visitor, c: Call) {
    visit(c.device, c.service)
  }

  function ServiceCalls(device: DeviceDesc, services: seq<ServiceDesc>): (r: seq<Call>)
    ensures |r| == |services|
  {
    seq(|services|, i requires 0 <= i < |services| => Call(device, services[i]))
  }

  function EmbeddedCalls(devices: seq<DeviceDesc>): seq<Call> {
    if devices == [] then []
    else
      var n := |devices| - 1;
      EmbeddedCalls(devices[..n]) + ServiceCalls(devices[n], devices[n].services)
  }

  /** All services of a device, then those of its embedded devices. */
  function CallsFor(device: DeviceDesc): seq<Call> {
    ServiceCalls(device, device.services) + EmbeddedCalls(device.embedded)
  }

  predicate AllAccepted(visit: Visitor, calls: seq<Call>) {
    forall c | c in calls :: Accepts(visit, c)
  }

  /** The calls made of those intended: up to the first that is refused, and including it. */
  function Made(visit: Visitor, calls: seq<Call>): (r: seq<Call>)
    ensures r <= calls
    ensures r == calls || (r != [] && !Accepts(visit, r[|r| - 1]))
  {
    if calls == [] then []
    else
      var n := |calls| - 1;
      if AllAccepted(visit, calls[..n]) then calls else Made(visit, calls[..n])
  }

  lemma AllAcceptedAppend(visit: Visitor, a: seq<Call>, b: seq<Call>)
    ensures AllAccepted(visit, a + b) <==> AllAccepted(visit, a) && AllAccepted(visit, b)
  {
    assert forall c :: c in a + b <==> c in a || c in b;
  }

  lemma {:induction false} MadeAll(visit: Visitor, calls: seq<Call>)
    requires AllAccepted(visit, calls)
    ensures Made(visit, calls) == calls
  {
    if calls != [] {
      assert forall c :: c in calls[..|calls| - 1] ==> c in calls;
    }
  }

  /** After a refusal nothing more is called. */
  lemma {:induction false} MadeAppend(visit: Visitor, a: seq<Call>, b: seq<Call>)
    ensures Made(visit, a + b) == if AllAccepted(visit, a) then a + Made(visit, b) else Made(visit, a)
    decreases |b|
  {
    if b == [] {
      assert a + b == a;
      if AllAccepted(visit, a) {
        MadeAll(visit, a);
      }
    } else {
      var n := |b| - 1;
      assert (a + b)[..|a + b| - 1] == a + b[..n];
      AllAcceptedAppend(visit, a, b[..n]);
      MadeAppend(visit, a, b[..n]);
    }
  }

  /** Calling the services of one device, in simpleVisit. */
  method VisitServices(device: DeviceDesc, services: seq<ServiceDesc>, visit: Visitor)
    returns (ok: bool, made: seq<Call>)
    ensures ok <==> AllAccepted(visit, ServiceCalls(device, services))
    ensures made == Made(visit, ServiceCalls(device, services))
  {
    made := [];
    ghost var calls := ServiceCalls(device, services);
    hide Made, AllAccepted, ServiceCalls;
    var n := 0;
    StartOfCalls(visit, calls);
    while n < |services|
      invariant n <= |services| && made == calls[..n] && AllAccepted(visit, made)
    {
      NextCall(device, services, visit, n);
      made := made + [Call(device, services[n])];
      if !visit(device, services[n]) {
        return false, made;
      }
      n := n + 1;
    }
    assert calls[..n] == calls;
    MadeAll(visit, calls);
    ok := true;
  }

  lemma StartOfCalls(visit: Visitor, calls: seq<Call>)
    ensures AllAccepted(visit, calls[..0])
  {
  }

  /** One more call, accepted or refused. */
  lemma NextCall(device: DeviceDesc, services: seq<ServiceDesc>, visit: Visitor, n: nat)
    requires n < |services|
    requires AllAccepted(visit, ServiceCalls(device, services)[..n])
    ensures var calls, c := ServiceCalls(device, services), Call(device, services[n]);
            && calls[..n] + [c] == calls[..n + 1]
            && (Accepts(visit, c) ==> AllAccepted(visit, calls[..n + 1]))
            && (!Accepts(visit, c) ==> !AllAccepted(visit, calls) && Made(visit, calls) == calls[..n + 1])
  {
    var calls, c := ServiceCalls(device, services), Call(device, services[n]);
    assert calls[..n] + [c] == calls[..n + 1];
    AllAcceptedAppend(visit, calls[..n], [c]);
    if !Accepts(visit, c) {
      assert c in [c];
      Refused(visit, calls[..n], c, calls[n + 1..]);
      assert calls[..n] + [c] + calls[n + 1..] == calls;
    }
  }

  /** The first call that is refused is the last. */
  lemma Refused(visit: Visitor, before: seq<Call>, c: Call, after: seq<Call>)
    requires AllAccepted(visit, before) && !Accepts(visit, c)
    ensures Made(visit, before + [c] + after) == before + [c]
    ensures !AllAccepted(visit, before + [c] + after)
  {
    assert c in before + [c];
    assert !AllAccepted(visit, before + [c]);
    AllAcceptedAppend(visit, before + [c], after);
    MadeAppend(visit, before + [c], after);
    assert (before + [c])[..|before + [c]| - 1] == before;
  }

  /** The second loop of simpleVisit, over the embedded devices. */
  method VisitEmbedded(devices: seq<DeviceDesc>, visit: Visitor) returns (ok: bool, made: seq<Call>)
    ensures ok <==> AllAccepted(visit, EmbeddedCalls(devices))
    ensures made == Made(visit, EmbeddedCalls(devices))
  {
    made := [];
    StartOfCalls(visit, made);
    assert EmbeddedCalls(devices[..0]) == [];
    hide Made, AllAccepted, ServiceCalls, EmbeddedCalls;
    var n := 0;
    while n < |devices|
      invariant n <= |devices| && made == EmbeddedCalls(devices[..n]) && AllAccepted(visit, made)
    {
      var more;
      ok, more := VisitServices(devices[n], devices[n].services, visit);
      EmbeddedStep(devices, n, visit);
      made := made + more;
      if !ok {
        return;
      }
      MadeAll(visit, ServiceCalls(devices[n], devices[n].services));
      n := n + 1;
    }
    assert devices[..n] == devices;
    MadeAll(visit, made);
    ok := true;
  }

  /** simpleVisit. */
  method SimpleVisit(device: DeviceDesc, visit: Visitor) returns (ok: bool, made: seq<Call>)
    ensures ok <==> AllAccepted(visit, CallsFor(device))
    ensures made == Made(visit, CallsFor(device))
  {
    hide Made, AllAccepted, ServiceCalls, EmbeddedCalls;
    var own, rest := ServiceCalls(device, device.services), EmbeddedCalls(device.embedded);
    MadeAppend(visit, own, rest);
    AllAcceptedAppend(visit, own, rest);
    ok, made := VisitServices(device, device.services, visit);
    if !ok {
      return;
    }
    MadeAll(visit, own);
    var more;
    ok, more := VisitEmbedded(device.embedded, visit);
    made := made + more;
  }

  lemma EmbeddedStep(devices: seq<DeviceDesc>, n: nat, visit: Visitor)
    requires n < |devices| && AllAccepted(visit, EmbeddedCalls(devices[..n]))
    ensures var sofar, calls := EmbeddedCalls(devices[..n]), ServiceCalls(devices[n], devices[n].services);
            && EmbeddedCalls(devices[..n + 1]) == sofar + calls
            && (AllAccepted(visit, calls) ==> AllAccepted(visit, sofar + calls))
            && (!AllAccepted(visit, calls) ==>
                  !AllAccepted(visit, EmbeddedCalls(devices)) &&
                  Made(visit, EmbeddedCalls(devices)) == sofar + Made(visit, calls))
  {
    hide Made, AllAccepted, ServiceCalls;
    var sofar, calls := EmbeddedCalls(devices[..n]), ServiceCalls(devices[n], devices[n].services);
    assert devices[..n + 1][..n] == devices[..n];
    var rest := EmbeddedAfter(devices, n + 1);
    hide EmbeddedCalls;
    Middle(visit, sofar, calls, rest);
  }

  lemma Middle(visit: Visitor, before: seq<Call>, calls: seq<Call>, rest: seq<Call>)
    requires AllAccepted(visit, before)
    ensures AllAccepted(visit, calls) ==> AllAccepted(visit, before + calls)
    ensures !AllAccepted(visit, calls) ==>
              !AllAccepted(visit, before + calls + rest) &&
              Made(visit, before + calls + rest) == before + Made(visit, calls)
  {
    hide Made, AllAccepted;
    AllAcceptedAppend(visit, before, calls);
    AllAcceptedAppend(visit, before + calls, rest);
    MadeAppend(visit, before, calls);
    MadeAppend(visit, before + calls, rest);
  }

  lemma {:induction false} EmbeddedAfter(devices: seq<DeviceDesc>, n: nat) returns (rest: seq<Call>)
    requires n <= |devices|
    ensures EmbeddedCalls(devices) == EmbeddedCalls(devices[..n]) + rest
    decreases |devices|
  {
    if n == |devices| {
      assert devices[..n] == devices;
      rest := [];
    } else {
      var m := |devices| - 1;
      rest := EmbeddedAfter(devices[..m], n);
      assert devices[..m][..n] == devices[..n];
      rest := rest + ServiceCalls(devices[m], devices[m].services);
    }
  }

  /** A callback that always returns true is called for every service of the device and of its embedded
      devices, once each, in order. */
  lemma SteadySeesAll(visit: Visitor, device: DeviceDesc)
    requires forall d, s :: visit(d, s)
    ensures AllAccepted(visit, CallsFor(device)) && Made(visit, CallsFor(device)) == CallsFor(device)
  {
    MadeAll(visit, CallsFor(device));
  }

  /** How many services these devices have. */
  function ServiceCount(devices: seq<DeviceDesc>): nat {
    if devices == [] then 0 else ServiceCount(devices[..|devices| - 1]) + |devices[|devices| - 1].services|
  }

  lemma {:induction false} EmbeddedCallAt(devices: seq<DeviceDesc>, k: nat, j: nat)
    requires k < |devices| && j < |devices[k].services|
    ensures |EmbeddedCalls(devices)| == ServiceCount(devices) > ServiceCount(devices[..k]) + j
    ensures EmbeddedCalls(devices)[ServiceCount(devices[..k]) + j] == Call(devices[k], devices[k].services[j])
    decreases |devices|
  {
    var n := |devices| - 1;
    EmbeddedLength(devices[..n]);
    if k < n {
      assert devices[..n][..k] == devices[..k];
      EmbeddedCallAt(devices[..n], k, j);
    }
  }

  lemma {:induction false} EmbeddedLength(devices: seq<DeviceDesc>)
    ensures |EmbeddedCalls(devices)| == ServiceCount(devices)
    decreases |devices|
  {
    if devices != [] {
      EmbeddedLength(devices[..|devices| - 1]);
    }
  }

  /** The calls for a device, one by one: first its own services, each with the device itself... */
  lemma OwnCallsFirst(device: DeviceDesc)
    ensures |CallsFor(device)| == |device.services| + ServiceCount(device.embedded)
    ensures forall i | 0 <= i < |device.services| :: CallsFor(device)[i] == Call(device, device.services[i])
  {
    EmbeddedLength(device.embedded);
  }

  /** ...then, after those of the embedded devices before it, the services of each embedded device, each with
      that device. */
  lemma EmbeddedCallsInOrder(device: DeviceDesc, k: nat, j: nat)
    requires k < |device.embedded| && j < |device.embedded[k].services|
    ensures var at := |device.services| + ServiceCount(device.embedded[..k]) + j;
            at < |CallsFor(device)| && CallsFor(device)[at] == Call(device.embedded[k], device.embedded[k].services[j])
  {
    hide EmbeddedCalls;
    EmbeddedCallAt(device.embedded, k, j);
  }

  // ---------------------------------------------------------------- the pool

  /** The calls for all devices of the pool. */
  function PoolCalls(pool: Pool, order: seq<string>): seq<Call>
    requires forall i | 0 <= i < |order| :: order[i] in pool
  {
    if order == [] then []
    else
      var n := |order| - 1;
      PoolCalls(pool, order[..n]) + CallsFor(pool[order[n]].device)
  }

  lemma {:induction false} PoolCallsAfter(pool: Pool, order: seq<string>, n: nat) returns (rest: seq<Call>)
    requires n <= |order| && forall i | 0 <= i < |order| :: order[i] in pool
    ensures PoolCalls(pool, order) == PoolCalls(pool, order[..n]) + rest
    decreases |order|
  {
    if n == |order| {
      assert order[..n] == order;
      rest := [];
    } else {
      var m := |order| - 1;
      rest := PoolCallsAfter(pool, order[..m], n);
      assert order[..m][..n] == order[..n];
      rest := rest + CallsFor(pool[order[m]].device);
    }
  }

  /** Each device of the pool has its calls, after those of the devices before it. */
  lemma TraversalOrder(pool: Pool, order: seq<string>, n: nat) returns (rest: seq<Call>)
    requires n < |order| && forall i | 0 <= i < |order| :: order[i] in pool
    ensures PoolCalls(pool, order) == PoolCalls(pool, order[..n]) + CallsFor(pool[order[n]].device) + rest
    ensures PoolCalls(pool, []) == []
  {
    hide CallsFor;
    rest := PoolCallsAfter(pool, order, n + 1);
    assert order[..n + 1][..n] == order[..n];
    assert PoolCalls(pool, order[..n + 1]) == PoolCalls(pool, order[..n]) + CallsFor(pool[order[n]].device);
  }

  /** simpleTraverse, with the pool in the order of the map. */
  method SimpleTraverse(pool: Pool, order: seq<string>, visit: Visitor) returns (ok: bool, made: seq<Call>)
    requires Enumerates(order, pool.Keys)
    ensures ok <==> AllAccepted(visit, PoolCalls(pool, order))
    ensures made == Made(visit, PoolCalls(pool, order))
  {
    hide Made, AllAccepted, CallsFor;
    made := [];
    var n := 0;
    StartOfCalls(visit, made);
    while n < |order|
      invariant n <= |order| && made == PoolCalls(pool, order[..n]) && AllAccepted(visit, made)
    {
      var device := pool[order[n]].device;
      var more;
      ok, more := SimpleVisit(device, visit);
      assert order[..n + 1][..n] == order[..n];
      var rest := PoolCallsAfter(pool, order, n + 1);
      Middle(visit, made, CallsFor(device), rest);
      made := made + more;
      if !ok {
        return;
      }
      MadeAll(visit, CallsFor(device));
      n := n + 1;
    }
    assert order[..n] == order;
    MadeAll(visit, made);
    ok := true;
  }

  /** The visits of a device by several callbacks, each stopping at its own first refusal. */
  function VisitsBy(visitors: seq<Visitor>, device: DeviceDesc): seq<seq<Call>> {
    seq(|visitors|, i requires 0 <= i < |visitors| => Made(visitors[i], CallsFor(device)))
  }

  /** The loop over a callback vector. */
  method VisitByAll(visitors: seq<Visitor>, device: DeviceDesc) returns (visits: seq<seq<Call>>)
    ensures visits == VisitsBy(visitors, device)
  {
    hide Made, CallsFor;
    visits := [];
    var n := 0;
    while n < |visitors|
      invariant n <= |visitors| && visits == VisitsBy(visitors, device)[..n]
    {
      var _, made := SimpleVisit(device, visitors[n]);
      visits := visits + [made];
      n := n + 1;
    }
  }

  /** One visit each: in full by those that always return true, and in any case in order up to the visitor's
      first refusal, whatever the others answer. */
  lemma VisitOfEach(visitors: seq<Visitor>, device: DeviceDesc, i: nat)
    requires i < |visitors|
    ensures |VisitsBy(visitors, device)| == |visitors|
    ensures var visit, made, calls := visitors[i], VisitsBy(visitors, device)[i], CallsFor(device);
            && made <= calls
            && (forall j | 0 <= j < |made| - 1 :: visit(made[j].device, made[j].service))
            && (made == calls || (made != [] && !visit(made[|made| - 1].device, made[|made| - 1].service)))
            && ((forall c | c in calls :: visit(c.device, c.service)) ==> made == calls)
  {
    hide CallsFor;
    MadeUpToRefusal(visitors[i], CallsFor(device));
    if AllAccepted(visitors[i], CallsFor(device)) {
      MadeAll(visitors[i], CallsFor(device));
    }
  }

  lemma {:induction false} MadeUpToRefusal(visit: Visitor, calls: seq<Call>)
    ensures forall j | 0 <= j < |Made(visit, calls)| - 1 :: Accepts(visit, Made(visit, calls)[j])
  {
    if calls != [] {
      var n := |calls| - 1;
      if AllAccepted(visit, calls[..n]) {
        assert forall j | 0 <= j < n :: calls[j] in calls[..n];
      } else {
        MadeUpToRefusal(visit, calls[..n]);
      }
    }
  }

  /** The visits that an expiry makes, for the old devices in order. */
  function ExpiryVisits(pool: Pool, order: seq<string>, now: int, lost: seq<Visitor>): seq<seq<Call>>
    requires forall i | 0 <= i < |order| :: order[i] in pool
  {
    if order == [] then []
    else
      var n := |order| - 1;
      var entry := pool[order[n]];
      ExpiryVisits(pool, order[..n], now, lost)
      + if now > entry.lastSeen + entry.expires then VisitsBy(lost, entry.device) else []
  }

  /** Each device whose lifetime is over is visited by all lost callbacks, after those before it; no other is. */
  lemma {:induction false} ExpiryOrder(pool: Pool, order: seq<string>, now: int, lost: seq<Visitor>, n: nat)
    returns (rest: seq<seq<Call>>)
    requires n < |order| && forall i | 0 <= i < |order| :: order[i] in pool
    ensures var entry := pool[order[n]];
            ExpiryVisits(pool, order, now, lost) ==
            ExpiryVisits(pool, order[..n], now, lost) +
            (if entry.lastSeen + entry.expires < now then VisitsBy(lost, entry.device) else []) + rest
    ensures ExpiryVisits(pool, [], now, lost) == []
    decreases |order|
  {
    hide VisitsBy;
    var m := |order| - 1;
    if n == m {
      rest := [];
    } else {
      rest := ExpiryOrder(pool, order[..m], now, lost, n);
      assert order[..m][..n] == order[..n];
      var last := pool[order[m]];
      rest := rest + if now > last.lastSeen + last.expires then VisitsBy(lost, last.device) else [];
    }
  }

  function SetOf(order: seq<string>): set<string> {
    set id | id in order
  }

  lemma OneLess(order: seq<string>, n: nat)
    requires n < |order| && forall i, j | 0 <= i < j < |order| :: order[i] != order[j]
    ensures order[n] !in order[n + 1..] && SetOf(order[n..]) == SetOf(order[n + 1..]) + {order[n]}
  {
    assert order[n..] == [order[n]] + order[n + 1..];
  }

  lemma AllLeft(order: seq<string>, pool: Pool, now: int)
    requires Enumerates(order, pool.Keys)
    ensures Surviving(pool, now, SetOf(order)) == pool
  {
  }

  class Directory {
    var devices: Pool
    var callbacks: seq<Visitor>
    var lostCallbacks: seq<Visitor>

    constructor ()
      ensures devices == map[] && callbacks == [] && lostCallbacks == []
    {
      devices, callbacks, lostCallbacks := map[], [], [];
    }

    /** addCallback: the new callback is run over the whole pool. */
    method AddCallback(v: Visitor, order: seq<string>) returns (index: nat, made: seq<Call>)
      requires Enumerates(order, devices.Keys)
      modifies this`callbacks
      ensures callbacks == old(callbacks) + [v] && index == |old(callbacks)| && callbacks[index] == v
      ensures made == Made(v, PoolCalls(devices, order))
    {
      callbacks := callbacks + [v];
      var ok;
      ok, made := SimpleTraverse(devices, order, v);
      index := |callbacks| - 1;
    }

    /** delCallback. */
    method DelCallback(index: nat)
      modifies this`callbacks
      ensures callbacks == Without(old(callbacks), index)
      ensures index >= |old(callbacks)| ==> callbacks == old(callbacks)
      ensures index < |old(callbacks)| ==>
                |callbacks| == |old(callbacks)| - 1 &&
                forall i | 0 <= i < |callbacks| :: callbacks[i] == old(callbacks)[if i < index then i else i + 1]
    {
      if index >= |callbacks| {
        return;
      }
      callbacks := callbacks[..index] + callbacks[index + 1..];
    }

    /** A device seen alive. */
    method Store(id: string, entry: Entry) returns (visits: seq<seq<Call>>)
      modifies this`devices
      ensures devices == old(devices)[id := entry]
      ensures visits == VisitsBy(callbacks, entry.device)
    {
      devices := devices[id := entry];
      visits := VisitByAll(callbacks, entry.device);
    }

    /** A device that says goodbye. */
    method Bye(id: string) returns (visits: seq<seq<Call>>)
      modifies this`devices
      ensures devices == old(devices) - {id}
      ensures visits == if id in old(devices) then VisitsBy(lostCallbacks, old(devices)[id].device) else []
    {
      visits := [];
      if id in devices {
        visits := VisitByAll(lostCallbacks, devices[id].device);
        devices := devices - {id};
      }
    }

    /** expireDevices, with the pool in the order of the map. */
    method ExpireDevices(order: seq<string>, now: int) returns (didSomething: bool, visits: seq<seq<Call>>)
      requires Enumerates(order, devices.Keys)
      modifies this`devices
      ensures forall id :: id in devices <==>
                           id in old(devices) && now <= old(devices)[id].lastSeen + old(devices)[id].expires
      ensures forall id | id in devices :: devices[id] == old(devices)[id]
      ensures visits == ExpiryVisits(old(devices), order, now, lostCallbacks)
      ensures didSomething <==> devices != old(devices)
    {
      ghost var before := devices;
      visits, didSomething := [], false;
      var n := 0;
      AllLeft(order, before, now);
      assert order[0..] == order;
      assert ExpiryVisits(before, order[..0], now, lostCallbacks) == [];
      hide VisitsBy, Surviving, SetOf, ExpiryVisits, Enumerates, AnyOld;
      while n < |order|
        invariant n <= |order| && devices == Surviving(before, now, SetOf(order[n..]))
        invariant visits == ExpiryVisits(before, order[..n], now, lostCallbacks)
        invariant didSomething <==> AnyOld(before, order[..n], now)
      {
        var id := order[n];
        ExpiryTurn(before, order, n, now, lostCallbacks);
        if now - devices[id].lastSeen > devices[id].expires {
          var told := VisitByAll(lostCallbacks, devices[id].device);
          visits := visits + told;
          devices := devices - {id};
          didSomething := true;
        }
        n := n + 1;
      }
      assert order[..n] == order;
      NoneLeft(order);
      AllSeen(before, order, now);
    }
  }

  lemma NoneLeft(order: seq<string>)
    ensures SetOf(order[|order|..]) == {}
  {
  }

  ghost predicate AnyOld(pool: Pool, ids: seq<string>, now: int) {
    exists id :: id in ids && id in pool && !Fresh(pool[id], now)
  }

  lemma AllSeen(before: Pool, order: seq<string>, now: int)
    requires Enumerates(order, before.Keys)
    ensures AnyOld(before, order, now) <==> Surviving(before, now, {}) != before
    ensures forall id :: id in Surviving(before, now, {}) <==>
                         id in before && now <= before[id].lastSeen + before[id].expires
    ensures forall id | id in Surviving(before, now, {}) :: Surviving(before, now, {})[id] == before[id]
  {
    if forall id | id in order :: Fresh(before[id], now) {
      assert Surviving(before, now, {}) == before;
    }
  }

  /** One device checked, and taken out with its visits when it is old. */
  lemma ExpiryTurn(before: Pool, order: seq<string>, n: nat, now: int, lost: seq<Visitor>)
    requires Enumerates(order, before.Keys) && n < |order|
    ensures var id, todo, rest := order[n], SetOf(order[n..]), SetOf(order[n + 1..]);
            var now' := Surviving(before, now, todo);
            && id in now' && now'[id] == before[id]
            && (if !Fresh(before[id], now) then now' - {id} else now') == Surviving(before, now, rest)
    ensures ExpiryVisits(before, order[..n + 1], now, lost) ==
            ExpiryVisits(before, order[..n], now, lost) +
            if !Fresh(before[order[n]], now) then VisitsBy(lost, before[order[n]].device) else []
    ensures AnyOld(before, order[..n + 1], now) <==> AnyOld(before, order[..n], now) || !Fresh(before[order[n]], now)
  {
    hide Surviving, VisitsBy;
    assert order[..n + 1] == order[..n] + [order[n]];
    var id, rest := order[n], SetOf(order[n + 1..]);
    OneLess(order, n);
    SurvivingHas(before, now, SetOf(order[n..]), id);
    assert order[..n + 1][..n] == order[..n];
    if !Fresh(before[id], now) {
      SurvivingErased(before, now, rest, id);
    } else {
      SurvivingKept(before, now, rest, id);
    }
  }

  lemma SurvivingHas(before: Pool, now: int, todo: set<string>, id: string)
    requires id in todo && id in before
    ensures id in Surviving(before, now, todo) && Surviving(before, now, todo)[id] == before[id]
  {
  }

  lemma SurvivingKept(before: Pool, now: int, todo: set<string>, id: string)
    requires id in before && Fresh(before[id], now)
    ensures Surviving(before, now, todo + {id}) == Surviving(before, now, todo)
  {
  }
}