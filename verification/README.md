# libupnpp: a verified model

libupnpp is a C++ layer over a UPnP library. This project models the parts of it that carry closed
logic, and proves what they are meant to guarantee.

- **The work queue** (`WorkQueue*.dfy`). `WorkQueue<T>` is a bounded producer and consumer monitor with
  one mutex and two condition variables. `WorkQueueMonitor` has its fields and its locked sections, each
  as a function on values and as a method of a class that updates the fields. `WorkQueueSystem` interleaves
  these sections for any number of clients and workers; a thread in a wait is asleep, or woken and not
  holding the mutex yet. Spurious wakeups, timeouts and the choice made by `notify_one` are events.
  The other modules prove counters, order, custody of tasks, what each call does to threads and tasks, absence
  of lost wakeups, shutdown, and what the reset at the end of a shutdown can break.
- **The discovery directory** (`Discovery*.dfy`, `DeviceDirectory.dfy`). Callback threads download
  descriptions under a set of URLs in use. One explorer thread takes tasks and updates the device pool;
  user threads register callbacks and expire devices. Two mutexes are taken in nested sections, and each
  step is what a thread does between two points where another can come in.
- **MD5** (`Md5*.dfy`). The streaming context and the unrolled transform against RFC 1321.
- **Base64 and the OpenHome id array** (`Base64.dfy`, `OhIdArray.dfy`), against section 4 of RFC 4648.
- **Device descriptions** (`DeviceDescription.dfy`, `DescriptionParser.dfy`, `DescriptionRoundTrip.dfy`).
  The document that a device builds, and the SAX handlers that read it.
- **Text functions** (`StringUtils.dfy`, `Tokenizer.dfy`, `UrlEscape.dfy`, `HttpRanges.dfy`) and **the device
  event loop** (`EventLoop.dfy`).

Where a wanted property does not hold of the code, the code is kept and the exact condition is proved:

- The queue can get stuck if and only if the low mark is above 1 (`StuckFreeIffLowIsOne`).
- A call of `setTerminateAndWait` keeps the client counter right, through the shutdown and its reset, if and
  only if no client is inside a wait when the call is made (`ResetKeepsCounter`). Over whole runs the counter is
  short by the clients that the last reset found inside a wait, modulo 2^32 (`CounterOverRuns`), and it can end
  at 2^32 - 1 with nobody waiting.
- While a client sleeps in `put`, the free places are all spoken for by clients already woken, if and only if
  there never are free places (no high mark, or one below the low mark) or no call but `put` is made, with a
  flush only when the high mark is 1 (`SignalsRoomIff`). `waitIdle` calls, shutdowns and flushes each break it.
- The tokenizer inverts its printer if and only if every token is of the kind described by `Good`
  (`RoundTripIff`). The header calls the printer the inverse operation without that restriction.
- Re-escaping keeps the meaning of all well-formed URLs if and only if neither the percent sign nor a hex
  digit is in the configured set (`KeepsMeaningIff`); its output is clean, and the function idempotent, if and
  only if neither the percent sign nor an upper-case hex digit is in the set (`CleanIff`).
- A holder of one of the directory's two mutexes can always go on, except in one situation:
  a thread removing a device waits for the callback mutex while `addCallback` waits for the pool mutex
  (`StuckIffCrossed`), which then lasts (`CrossedLasts`). For all kinds of calls, it never comes up if and only if
  no `addCallback` gets in after the first message when devices can leave or expire, and no message comes during an
  `addCallback` when devices can expire (`NeverCrossesIff`).

Strings are sequences of characters, bytes are bit vectors or bounded integers, and times are integers.

## Model

| member | source | states |
|---|---|---|
| WorkQueueMonitor.WorkQueue.constructor | libupnpp/workqueue.h:66-69 | a new queue is empty, open, without workers or waiters |
| WorkQueueMonitor.WorkQueue.IsOk | libupnpp/workqueue.h:341-350 | ok(): the flag is set, no worker has exited, there are workers |
| WorkQueueMonitor.WorkQueue.CloseShop | libupnpp/workqueue.h:91-93 | only the open flag changes |
| WorkQueueMonitor.WorkQueue.Start | libupnpp/workqueue.h:103-117 | the workers are added to those there are, nothing else changes |
| WorkQueueMonitor.WorkQueue.Put | libupnpp/workqueue.h:123-162 | the part of put up to its first wait or its return has the effect of the section PutEntry: refused when not ok or closed, asleep when full, else queued (after a flush if asked) with one worker notified only when the counter says that one waits |
| WorkQueueMonitor.WorkQueue.PutWoken | libupnpp/workqueue.h:132-142 | after a wait, the counter goes down modulo 2^32 and the loop goes on; ok() is tested again, the open flag is not |
| WorkQueueMonitor.WorkQueue.WaitIdle | libupnpp/workqueue.h:180-196 | waitIdle up to its first wait or its return: sleeps while tasks are queued or a worker is busy |
| WorkQueueMonitor.WorkQueue.WaitIdleWoken | libupnpp/workqueue.h:180-196 | waitIdle after a wait; the result is ok() |
| WorkQueueMonitor.WorkQueue.SetTerminateAndWait | libupnpp/workqueue.h:203-246 | clears the flag and notifies all workers before each wait; with all workers exited, joins them and resets the counters |
| WorkQueueMonitor.WorkQueue.SetTerminateAndWaitWoken | libupnpp/workqueue.h:214-246 | the same from the end of a wait |
| WorkQueueMonitor.WorkQueue.Take | libupnpp/workqueue.h:253-295 | take up to its first wait or its return: sleeps below the low mark, tells all clients when the queue is empty, else pops the front and notifies one client when the counter says that one waits; asks for a task in the queue only where the source would pop an empty one, which needs a low mark of 0 |
| WorkQueueMonitor.WorkQueue.TakeWoken | libupnpp/workqueue.h:260-295 | take after a wait; a timeout is reported as a null task before ok() is looked at (TimedTakeReturns says so by threads) |
| WorkQueueMonitor.WorkQueue.ExitWorker | libupnpp/workqueue.h:327-333 | one more worker has exited, the flag is cleared, all clients are notified |
| WorkQueueSafety.CountedStep | libupnpp/workqueue.h:132-142 | every step keeps the waiter and exit counters equal to the numbers of threads in each wait and of exited workers; the client counter is short, modulo 2^32, by the clients that the last reset found inside a wait |
| WorkQueueSafety.CounterIsRightIff | libupnpp/workqueue.h:239-242 | so the client counter is right if and only if that reset found none |
| WorkQueueSafety.InOrderStep | libupnpp/workqueue.h:123-295 | every step keeps: accepted tasks are the removed ones in order followed by the queue, and the queue is within its positive high mark |
| WorkQueueSafety.CustodyStep | libupnpp/workqueue.h:253-333 | every step keeps: each taken task is held by the worker that took it, or finished, or abandoned, exactly one of the three |
| WorkQueueSafety.ReachableSafe | libupnpp/workqueue.h:123-333 | these three hold in every reachable state, for any interleaving, timeouts, flushes and spurious wakeups |
| WorkQueueSafety.HistoryGrows | libupnpp/workqueue.h:123-295 | what was accepted, removed, finished or abandoned stays so |
| WorkQueueSafety.HeldByOne | libupnpp/workqueue.h:253-295 | no task is delivered twice: in every reachable state two workers that hold the same task are the same |
| WorkQueueSafety.NeverHeldAgain | libupnpp/workqueue.h:253-295 | over every run, a task that was finished, abandoned or flushed is never held by a worker again |
| WorkQueueSafety.WaitIdleMeansIdle | libupnpp/workqueue.h:180-196 | when waitIdle returns true nothing is queued, all workers are inside their wait, and every task accepted so far was flushed, finished by its worker or abandoned by one that aborted |
| WorkQueueSafety.AllExited | libupnpp/workqueue.h:214-219 | when the exit counter reaches the number of workers, each of them has exited and none waits |
| WorkQueueCalls.TimedTakeReturns | libupnpp/workqueue.h:268-271 | in every reachable state, a worker asleep in a timed take can wake and then returns without a task, whatever the queue holds and whether ok() is true; only the count of waiting workers changes |
| WorkQueueCalls.TakeFailsOrSleeps | libupnpp/workqueue.h:253-281 | from every reachable state, a take, at its call or after a wait without timeout, fails if and only if the queue is not working (flag cleared, no workers, or one exited), and sleeps if and only if it works and holds fewer tasks than the low mark, telling all clients when it is empty |
| WorkQueueCalls.TakeGets | libupnpp/workqueue.h:283-294 | else it gets the oldest task, and one sleeping client is woken exactly when the counter is positive and one sleeps |
| WorkQueueCalls.PutRefusedOrSleeps | libupnpp/workqueue.h:123-142 | a put is refused if and only if the queue is not working, or closed at the call; it sleeps if and only if it is not refused and the queue is at its high mark; tasks and workers stay as they were |
| WorkQueueCalls.PutQueues | libupnpp/workqueue.h:144-161 | else its task is queued last, after a flush if asked, and one sleeping worker is woken if there is any |
| WorkQueueCalls.IdleSleepsIff | libupnpp/workqueue.h:180-193 | waitIdle sleeps if and only if a task is queued and some worker has not exited, or some worker is neither inside its wait nor gone; it changes nothing else |
| WorkQueueCalls.TerminateWaitsForAll | libupnpp/workqueue.h:203-246 | setTerminateAndWait without workers does nothing; it sleeps with all workers awake if and only if some worker has not exited; with all exited it leaves a queue without workers, waiters and exits, with its flag set, its tasks kept, and still closed if it was |
| WorkQueueCalls.ClientCanStep | libupnpp/workqueue.h:123-246 | a client out of the queue can make any call, and one woken can go on, in every state |
| WorkQueueCalls.WorkerHasStep | libupnpp/workqueue.h:253-333 | a worker that has not exited has a step in every state, a timeout among them for a timed wait |
| WorkQueueCalls.ClosedForGood | libupnpp/workqueue.h:91-130 | over every run from a closed queue, restarts included, it stays closed, and the tasks accepted and the clients inside put never grow in sum |
| WorkQueueCalls.ClosedShop | libupnpp/workqueue.h:91-93 | after closeShop at most the tasks of the clients then inside put are still accepted, and none when there was no such client |
| WorkQueueLiveness.ClientStepNoLostWakeup | libupnpp/workqueue.h:144-158 | a client step keeps enough workers awake for the tasks above the low mark, although put notifies only when the counter, which includes workers notified before, is positive |
| WorkQueueLiveness.LiveStep | libupnpp/workqueue.h:123-333 | every step keeps: no lost wakeup, nobody stuck with a low mark of 1, clients released when all workers have exited, no worker asleep during a shutdown |
| WorkQueueLiveness.WakeupsAreNotLost | libupnpp/workqueue.h:123-162 | in every reachable state with ok(), at least min(N, max(0, queue size - low + 1)) workers are not asleep |
| WorkQueueLiveness.StuckFreeAtOne | libupnpp/workqueue.h:260-294 | with a low mark of 1: in every reachable state with ok() where all workers sleep, the queue is empty and no client sleeps in any call |
| WorkQueueLiveness.StuckAboveOne | libupnpp/workqueue.h:260-266 | with a higher low mark a run ends with all workers and a waitIdle caller asleep and a task queued |
| WorkQueueLiveness.StuckFreeIffLowIsOne | libupnpp/workqueue.h:260-294 | the queue never gets stuck if and only if the low mark is 1 |
| WorkQueueThroughput.HarmlessSignals | libupnpp/workqueue.h:283-291 | in all runs of puts without flush (or with one, for a high mark of 1), while a client sleeps in put the free places are all spoken for by clients woken in put, although each take wakes one client only |
| WorkQueueThroughput.NeverRoom | libupnpp/workqueue.h:260-294 | so they are, whatever is called, without a high mark or with one below the low mark |
| WorkQueueThroughput.SecondIsWoken | libupnpp/workqueue.h:180-196 | with waitIdle calls, or with a flushing put and a high mark above 1, a run ends with a client asleep in put, free places and nobody woken |
| WorkQueueThroughput.AfterShortCounter | libupnpp/workqueue.h:239-242 | so does one with a shutdown under a waiting client and a new start, the counter being short |
| WorkQueueThroughput.SignalsRoomIff | libupnpp/workqueue.h:123-295 | for all marks and kinds of calls: the free places are always spoken for if and only if the high mark is 0 or below the low one, or only puts are made, flushing ones for a high mark of 1 only |
| WorkQueueShutdown.ShutdownBegins | libupnpp/workqueue.h:203-219 | once setTerminateAndWait has begun no worker is asleep and none can stay so |
| WorkQueueShutdown.ShutdownIsBounded | libupnpp/workqueue.h:203-246 | from then on, over every run, no worker sleeps, and the number of worker steps is bounded by the sum of the workers' distances to their exit |
| WorkQueueShutdown.WorkerCanStep | libupnpp/workqueue.h:253-258 | a worker that has not exited always has a step of its own |
| WorkQueueShutdown.ExitsOnce | libupnpp/workqueue.h:327-333 | over every run between starts, a worker calls workerExit once if it was running at first and is gone at the end, and never otherwise |
| WorkQueueShutdown.TerminateEndsExactly | libupnpp/workqueue.h:214-246 | the waiting loop ends exactly when every worker has exited; then there are no workers, ok() is false and the queue is as it was |
| WorkQueueShutdown.TerminatorIsAwake | libupnpp/workqueue.h:327-333 | when the last worker has exited, no client, the terminating one included, is left asleep |
| WorkQueueShutdown.ShutdownCanFinish | libupnpp/workqueue.h:203-246 | from every state of a shutdown, steps of the threads alone lead to the return of setTerminateAndWait |
| WorkQueueShutdown.RefusesUntilStart | libupnpp/workqueue.h:239-242 | after the shutdown and until start, put and take refuse, and no task enters or leaves |
| WorkQueueReset.CounterOverRuns | libupnpp/workqueue.h:239-242 | in every reachable state the client counter is the number of waiting clients less those found inside a wait by the last reset, modulo 2^32, and it is right if and only if there were none |
| WorkQueueReset.CalmRunKeeps | libupnpp/workqueue.h:203-246 | with no other client inside a wait, the counter stays right over every run of the shutdown up to its reset, puts included |
| WorkQueueReset.CallLeavesBehind | libupnpp/workqueue.h:203-246 | with a client inside a wait at the call, the shutdown can complete with that client still inside and the counter at 0 |
| WorkQueueReset.ResetKeepsCounter | libupnpp/workqueue.h:203-246 | calling setTerminateAndWait with a right counter: every run of the shutdown and its reset in which no other client calls waitIdle or setTerminateAndWait leaves the counter right, if and only if no client is inside a wait at the call |
| WorkQueueReset.CounterCanUnderflow | libupnpp/workqueue.h:239-242 | for all marks, a reachable state where no client waits and the counter is 2^32 - 1 |
| DiscoveryDownloads.DownloadSet.Insert | libupnpp/control/discovery.cxx:166-172 | inserting tells whether the URL was new, and adds it only |
| DiscoveryDownloads.DownloadSet.Erase | libupnpp/control/discovery.cxx:188-190 | erasing takes out that URL only |
| DiscoveryDownloads.ExactStep | libupnpp/control/discovery.cxx:159-204 | every step keeps: the set is exactly the URLs between insertion and release, each held by one thread |
| DiscoveryDownloads.FromDownloadsStep | libupnpp/control/discovery.cxx:184-204 | every step keeps: a description queued, or about to be, is the result of a finished download of its URL |
| DiscoveryDownloads.BalancedStep | libupnpp/control/discovery.cxx:166-199 | every step keeps: the URLs ever inserted are, with their multiplicities, those released since and those in the set |
| DiscoveryDownloads.DownloadsAreExclusive | libupnpp/control/discovery.cxx:159-204 | all three hold over every run from the start, for any number of callback threads: at most one download per URL, and releases match insertions one by one |
| DiscoveryDownloads.ReleasesItsOwn | libupnpp/control/discovery.cxx:184-199 | a thread that leaves the download, failed or not, takes exactly its own URL out of the set and nobody else's hold changes |
| DiscoveryDownloads.QuietMeansEmpty | libupnpp/control/discovery.cxx:159-204 | over every run, with no thread in the callback the set is empty and every URL inserted was released |
| DiscoveryDownloads.DownloadsIff | libupnpp/control/discovery.cxx:140-173 | an alive message or search result starts a download if and only if its device and service types are empty and no thread holds its URL; else nothing happens |
| DiscoveryDownloads.DownloadIsHandled | libupnpp/control/discovery.cxx:140-199 | over every run in which a thread handles such a message, whatever the others do: after its release it is out of the callback if the download failed, else about to queue a task with the message's own URL, device id and lifetime and the document downloaded |
| DiscoveryDownloads.TaskIsQueued | libupnpp/control/discovery.cxx:201-217 | over every run, such a task, or that of a goodbye, is put on the queue by its thread once, if and only if the queue accepts it, and the thread leaves the callback |
| DiscoveryDownloads.ThreadCanStep | libupnpp/control/discovery.cxx:140-217 | a thread always has its next step, whatever the download gives and the queue says |
| DiscoverySafety.RolesStep | libupnpp/control/discovery.cxx:300-362 | every step keeps: only the explorer handles tasks, and it registers nothing |
| DiscoverySafety.LocksStep | libupnpp/control/discovery.cxx:236-394 | every step keeps: each mutex belongs to the one thread inside a section of it |
| DiscoverySafety.PoolWorkStep | libupnpp/control/discovery.cxx:319-394 | every step keeps, for the thread holding the pool: the device it removes is in the pool, and the pool under an expiry is the one at its start without the old devices checked so far |
| DiscoverySafety.ToldStep | libupnpp/control/discovery.cxx:319-331 | every step keeps: the visits by lost callbacks are one per callback for each removal, in order, and those of the removal under way |
| DiscoveryHistory.InPoolIff | libupnpp/control/discovery.cxx:319-351 | after any sequence of changes, a device is in the pool with an entry if and only if its last change is that it was seen with that entry |
| DiscoveryHistory.FollowsStep | libupnpp/control/discovery.cxx:300-362 | every step keeps: first in, first out; the pool is what its changes make of it; the changes other than expiries are the effects of the tasks, in order |
| DiscoveryCoverage.StoreCoverage | libupnpp/control/discovery.cxx:346-358 | storing a device, be it with a description seen before, leaves nobody shown this entry and its announcement pending for every registered callback; what was covered for others stays so |
| DiscoveryCoverage.AddCoverage | libupnpp/control/discovery.cxx:236-246 | a callback just registered was shown nothing, and its traversal is pending for every device; what was covered for others stays so |
| DiscoveryCoverage.CoverageStep | libupnpp/control/discovery.cxx:236-394 | every step keeps: each callback that always returns true has been shown each device of the pool since it was last stored, or the announcement or its own registration has yet to come to it |
| DiscoveryCoverage.NumberedStep | libupnpp/control/discovery.cxx:236-358 | every step keeps: registrations and stored entries have numbers below the next ones, registrations have numbers of their own, and only what has a number was shown |
| DiscoveryTheorems.ReachableSafe | libupnpp/control/discovery.cxx:236-394 | all these hold in every reachable state |
| DiscoveryTheorems.NoDeviceMissed | libupnpp/control/discovery.cxx:236-246 | in every reachable state each such callback has been shown every device in the pool since the device was last stored, visits made before it left and came back not counting; but for the one stored and not yet announced to it, or while its own addCallback has not come to the device |
| DiscoveryTheorems.NothingMissedWhenQuiet | libupnpp/control/discovery.cxx:346-358 | with the explorer done announcing and no addCallback under way, each such callback has been shown every device in the pool since it was last stored |
| DiscoveryTheorems.EveryStoreIsAnnounced | libupnpp/control/discovery.cxx:346-358 | in every reachable state, a device stored again is new to all callbacks, and its announcement is pending for each of them |
| DiscoveryTheorems.PoolAgreesWithHistory | libupnpp/control/discovery.cxx:319-351 | in every reachable state a device is in the pool if and only if it was last seen alive, with the entry made then; tasks have had their effects, with the time each was taken, its lifetime and its description, in the order they were accepted |
| DiscoveryTheorems.QuietPoolIsUpToDate | libupnpp/control/discovery.cxx:300-362 | with an empty queue and an idle explorer every accepted task has had its effect |
| DiscoveryTheorems.LastSeenWhenTaken | libupnpp/control/discovery.cxx:334-351 | in every reachable state the entry of a device in the pool has the description and lifetime of the last task done that says something of the device, and was last seen when that task was taken |
| DiscoveryTheorems.ExpiryIsExact | libupnpp/control/discovery.cxx:367-394 | over every run of an expireDevices that began at time now, whatever other threads do: at its end a device is in the pool if and only if it was at the beginning and now is at most its last sight plus its lifetime, with the same entry |
| DiscoveryTheorems.ByeIsTold | libupnpp/control/discovery.cxx:319-331 | a device that says goodbye leaves the pool only after one visit of its description by each lost callback, the last visits made |
| DiscoveryTheorems.ExpiryIsTold | libupnpp/control/discovery.cxx:376-388 | a device that expires: all lost callbacks registered when its visits end have been told of its description, and whatever other threads do meanwhile it is erased with these visits the last ones made |
| DiscoveryTheorems.LostCallbackHearsAll | libupnpp/control/discovery.cxx:256-262 | a lost callback, registered while nobody holds the pool, is told of every device removed from then on, over every run in which no lost callback is taken out |
| DiscoveryTheorems.RefusalEndsTraversal | libupnpp/control/discovery.cxx:559-569 | a callback that refuses a device during its own addCallback is shown no other, and both mutexes are released |
| DiscoveryTheorems.FreeThreadCanStep | libupnpp/control/discovery.cxx:236-394 | a thread that holds no mutex can go on as soon as the one it needs is free, and the explorer as soon as there is a task |
| DiscoveryCrossing.StuckIffCrossed | libupnpp/control/discovery.cxx:236-246 | while a mutex is held some holder can go on, except exactly when a removal waits for the callbacks and a registration for the pool |
| DiscoveryCrossing.CrossedLasts | libupnpp/control/discovery.cxx:321-324 | that situation lasts for ever |
| DiscoveryCrossing.LateAndByebye | libupnpp/control/discovery.cxx:319-324 | an addCallback after the first message, and a device that says goodbye: a run that leads to it |
| DiscoveryCrossing.LateAndExpiry | libupnpp/control/discovery.cxx:367-388 | an addCallback after the first message, and an expiry: a run that leads to it |
| DiscoveryCrossing.OverlapAndExpiry | libupnpp/control/discovery.cxx:367-388 | a message during the only addCallback, begun before any message, and an expiry: a run that leads to it |
| DiscoveryCrossing.NoCrossing | libupnpp/control/discovery.cxx:236-246 | with none of these three combinations no reachable state is that situation |
| DiscoveryCrossing.NeverCrossesIff | libupnpp/control/discovery.cxx:236-394 | for all kinds of calls (addCallback late or overlapping messages, goodbyes, expiries): it never comes up if and only if none of the three is made possible |
| DeviceDirectory.MadeAppend | libupnpp/control/discovery.cxx:541-556 | calls are made up to the first refusal and no further |
| DeviceDirectory.SteadySeesAll | libupnpp/control/discovery.cxx:541-556 | a visitor that always returns true is called once for every service of the device and of its embedded devices, in order |
| DeviceDirectory.OwnCallsFirst | libupnpp/control/discovery.cxx:541-546 | the calls intended for a device begin with its own services, in order, each with the device itself, and are as many as its services and those of its embedded devices |
| DeviceDirectory.EmbeddedCallsInOrder | libupnpp/control/discovery.cxx:548-554 | then come the services of each embedded device, each with that device, at the place that the sizes of those before it give |
| DeviceDirectory.VisitEmbedded | libupnpp/control/discovery.cxx:548-554 | the services of the embedded devices, in order, up to the first refusal |
| DeviceDirectory.SimpleVisit | libupnpp/control/discovery.cxx:541-556 | the calls made are those intended up to the first refusal; the result is true when none is refused |
| DeviceDirectory.SimpleTraverse | libupnpp/control/discovery.cxx:559-569 | the same for all devices of the pool, in the order of the map |
| DeviceDirectory.VisitByAll | libupnpp/control/discovery.cxx:354-357 | each callback of the vector visits the device, stopping at its own first refusal |
| DeviceDirectory.TraversalOrder | libupnpp/control/discovery.cxx:559-569 | the calls for a pool have those of each device after those of the devices before it |
| DeviceDirectory.VisitOfEach | libupnpp/control/discovery.cxx:354-357 | of several callbacks each gets its calls in order up to its own first refusal, and all of them if it refuses none, whatever the others answer |
| DeviceDirectory.Directory.AddCallback | libupnpp/control/discovery.cxx:236-246 | the callback is appended, run over the pool, and its index returned |
| DeviceDirectory.Directory.DelCallback | libupnpp/control/discovery.cxx:248-254 | the callback at that index goes, if there is one; the others keep their order |
| DeviceDirectory.Directory.Store | libupnpp/control/discovery.cxx:346-358 | the entry is stored and every callback visits the device |
| DeviceDirectory.Directory.Bye | libupnpp/control/discovery.cxx:319-331 | the device, if in the pool, is visited by every lost callback and erased |
| DeviceDirectory.ExpiryOrder | libupnpp/control/discovery.cxx:376-388 | the visits of an expiry are those of all lost callbacks to each device whose lifetime is over, after those to the devices before it, and no others |
| DeviceDirectory.Directory.ExpireDevices | libupnpp/control/discovery.cxx:367-394 | leaves exactly the devices for which now is at most the last sight plus the lifetime, after the visits of the others in order, and tells whether there were any |
| Md5Transform.RewrittenF | libupnpp/md5.cpp:143-145 | the rewritten F1 is the function F of RFC 1321 |
| Md5Transform.RewrittenG | libupnpp/md5.cpp:143-145 | the rewritten F2 is the function G |
| Md5Transform.ShiftsRotate | libupnpp/md5.cpp:150-151 | the two shifts and the or of MD5STEP are a rotation, for the amount of every line |
| Md5Transform.LineIsOperation | libupnpp/md5.cpp:150-151 | one line of the unrolled code is one table-driven operation of section 3.4 of RFC 1321 |
| Md5Transform.Constants1 | libupnpp/md5.cpp:180-195 | the word, constant and shift of lines 1 to 16 are those of the table |
| Md5Transform.Constants2 | libupnpp/md5.cpp:197-212 | lines 17 to 32 |
| Md5Transform.Constants3 | libupnpp/md5.cpp:214-229 | lines 33 to 48 |
| Md5Transform.Constants4 | libupnpp/md5.cpp:231-246 | lines 49 to 64 |
| Md5Transform.Round1 | libupnpp/md5.cpp:180-195 | the first 16 unrolled lines leave the rest of the table-driven form to do |
| Md5Transform.Round2 | libupnpp/md5.cpp:197-212 | the next 16 |
| Md5Transform.Round3 | libupnpp/md5.cpp:214-229 | the next 16 |
| Md5Transform.Round4 | libupnpp/md5.cpp:231-246 | the last 16 |
| Md5Transform.LoadWords | libupnpp/md5.cpp:163-173 | a block as 16 words, low-order byte first |
| Md5Transform.WordIsNumber | libupnpp/md5.cpp:163-173 | the number of a word is made of its four bytes as digits to the base 256, the first one lowest |
| Md5Transform.Transform | libupnpp/md5.cpp:158-252 | for every state and block, the unrolled transform is the step of section 3.4 of RFC 1321 |
| Md5Stream.Context.Init | libupnpp/md5.cpp:64-72 | a context for the empty message |
| Md5Stream.Context.Update | libupnpp/md5.cpp:78-111 | the message grows by the input: state, buffer and the count modulo 2^64 stay those of the whole message |
| Md5Stream.Context.Final | libupnpp/md5.cpp:117-138 | the digest of the message of RFC 1321, padding across a block boundary included; the context is wiped |
| Md5Stream.BitCount | libupnpp/md5.cpp:85-89 | the bit count modulo 2^64 still tells how full the buffer is |
| Md5Stream.PaddingIsPadded | libupnpp/md5.cpp:124-133 | the two last updates append exactly the padding and length of sections 3.1 and 3.2 |
| Md5Stream.BytesOfCount | libupnpp/md5.cpp:36-45 | the eight bytes of the count are its digits to the base 256, the low-order one first |
| Md5Stream.BytesAreDigits | libupnpp/md5.cpp:135-136 | the four bytes put out for a word are the digits of its number to the base 256, the low-order one first |
| Md5Stream.InitialBytes | libupnpp/md5.cpp:64-72 | the initial registers are the bytes that section 3.3 of RFC 1321 lists |
| Md5Stream.HashPieces | libupnpp/md5.cpp:64-138 | for every split of a message into updates the digest is that of the whole message |
| Md5Stream.HashString | libupnpp/md5.cpp:264-271 | MD5String gives the digest of its data |
| Base64.SymbolOfChar | libupnpp/base64.cxx:51-88 | the decoding table inverts the alphabet |
| Base64.CharOfSymbol | libupnpp/base64.cxx:51-88 | no other character has a value; the pad is the equals sign, and the six white space characters are skipped |
| Base64.Alphabet | libupnpp/base64.cxx:87-89 | the 64 characters of the alphabet, one by one, and the pad |
| Base64.OutsAreSextets | libupnpp/base64.cxx:232-235 | the four shifts of the encoder are the 6-bit groups of section 4 of RFC 4648 |
| Base64.Encode | libupnpp/base64.cxx:216-270 | the encoder gives the encoding of section 4 of RFC 4648, padding included |
| Base64.UnpackedAppend | libupnpp/base64.cxx:91-211 | patching the last byte in place for one more value is unpacking one more value |
| Base64.Decode | libupnpp/base64.cxx:91-211 | exactly which inputs decode, and to what: the values before the first pad, which must make whole bytes or end with two or three of a group when a pad follows; all that comes after the first pad, and the bits left over, are ignored; on failure the bytes decoded so far are left |
| Base64.DecodesIff | libupnpp/base64.cxx:91-211 | told by characters: a text of the alphabet with white space anywhere decodes if and only if it makes whole groups; with a pad and anything after it, if and only if two or three characters are left over; with another character, never |
| Base64.ReadEncoded | libupnpp/base64.cxx:91-211 | reading an encoding yields the bytes first, and stops at a pad exactly when the length is not a multiple of 3 |
| Base64.RoundTrip | libupnpp/base64.cxx:91-270 | for every byte string, its encoding with white space inserted anywhere decodes to it |
| OhIdArray.IdArrayToVec | libupnpp/upnpavutils.cxx:71-84 | appends the big-endian words of the decoded text; leaves the vector alone when it does not decode |
| OhIdArray.IdIsNumber | libupnpp/upnpavutils.cxx:71-84 | an id is the number of its four bytes, the first one highest |
| OhIdArray.IdsRoundTrip | libupnpp/upnpavutils.cxx:71-84 | any 32-bit ids written big-endian, encoded, and with white space added come back as they were |
| DeviceDescription.UpnpDevice.constructor | libupnpp/device/device.cxx:168-180 | a device without properties, services or embedded devices |
| DeviceDescription.UpnpDevice.Embed | libupnpp/device/device.cxx:209-215 | an embedded device gets empty fragments under its id |
| DeviceDescription.IdsAreTheKeys | libupnpp/device/device.cxx:560-565 | after any services added, the list of service ids has each id once, and has those of the service map |
| DeviceDescription.MapHasLast | libupnpp/device/device.cxx:560-560 | the service map has the service added last under each id |
| DeviceDescription.IdsInOrder | libupnpp/device/device.cxx:561-565 | the ids are listed in the order in which their services were last added |
| DeviceDescription.UpnpDevice.AddService | libupnpp/device/device.cxx:531-588 | for a root device: appends the service element to the fragment, reads the properties the first time, keeps the service map and the list of ids, and fails without effect for unreadable properties |
| DeviceDescription.UpnpDevice.AddEmbeddedService | libupnpp/device/device.cxx:531-588 | for an embedded device: the same on the fragments the root device holds for it; fails without effect for a device the root does not know |
| DeviceDescription.UpnpDevice.Start | libupnpp/device/device.cxx:272-310 | the fragments make the whole document of the root device and its embedded devices |
| DescriptionParser.UPnPDeviceParser.StartElement | libupnpp/expatmm.h:241-252 | the element is pushed on the path, text is kept |
| DescriptionParser.UPnPDeviceParser.CharacterData | libupnpp/control/description.cxx:96-103 | text is appended, but for a chunk that starts with a null character |
| DescriptionParser.UPnPDeviceParser.EndElement | libupnpp/control/description.cxx:46-94 | the handler has the effect of Closed on the trimmed text, for the root or the embedded device by whether a device list is on the path |
| DescriptionParser.UPnPDeviceParser.Dispatch | libupnpp/expatmm.h:241-265 | one event of the XML library; a closing tag pops the path after its handler |
| DescriptionParser.UPnPDeviceParser.Parse | libupnpp/expatmm.h:241-265 | all events of a document |
| DescriptionParser.MakeDeviceDesc | libupnpp/control/description.cxx:112-138 | the parsed data and the raw text, completed only when the document is well formed: own URL, base URL, flags, and those of the embedded devices |
| DescriptionRoundTrip.NamesOfKinds | libupnpp/control/description.cxx:61-91 | each of the thirteen element names selects its own case, and no other name does |
| DescriptionRoundTrip.DeviceListIff | libupnpp/control/description.cxx:54-57 | a name counts as a device list if and only if it is devicelist in any mix of cases |
| DescriptionRoundTrip.TrimIgnoresBlanks | libupnpp/control/description.cxx:48-48 | white space left from between elements does not change a field |
| DescriptionRoundTrip.EventsRun | libupnpp/control/description.cxx:46-103 | white space between elements and the way texts are split into chunks make no difference; a chunk that starts with a null character is not heard |
| DescriptionRoundTrip.RunService | libupnpp/control/description.cxx:61-79 | a service element adds exactly its five trimmed fields to the device, whatever was there before, and leaves no field behind |
| DescriptionRoundTrip.RunProps | libupnpp/control/description.cxx:79-91 | a properties fragment of elements nested at will: of the elements of one name the last counts, wherever it is; only elements named as services, devices or device lists are excluded |
| DescriptionRoundTrip.UnknownPropertyIsIgnored | libupnpp/control/description.cxx:61-91 | a nested property with no name that means something, such as an icon list, has no effect |
| DescriptionRoundTrip.RunDevice | libupnpp/control/description.cxx:65-69 | an embedded device is added to the root device with its own data, and leaves nothing behind |
| DescriptionRoundTrip.ParserInvertsDocument | libupnpp/control/description.cxx:46-103 | for every root device with any properties, services and embedded devices, the events of the built document give back each device's data: of each field the trimmed text of the last element of that field's name, and the services in order, with nothing of one device in another |
| DescriptionRoundTrip.DescriptionReadBack | libupnpp/control/description.cxx:112-138 | the same through the constructor: one base URL for all devices, the last one stated or else that of the document's own URL |
| DescriptionRoundTrip.BaseUrlIsAuthority | libupnpp/upnpplib.cxx:476-488 | the base of a URL with a path is its scheme and authority, with a slash |
| DescriptionRoundTrip.BaseUrlWithoutPath | libupnpp/upnpplib.cxx:476-488 | a URL without a path is its own base |
| StringUtils.FindFrom | libupnpp/smallut.cpp:1120-1124 | the first position of a character from a given one on |
| StringUtils.FindText | libupnpp/smallut.cpp:1113-1116 | the first position of a nonempty string |
| StringUtils.FirstOccurrence | libupnpp/smallut.cpp:1113-1116 | the search finds an occurrence when there is one, and none comes before it |
| StringUtils.TrimString | libupnpp/smallut.cpp:456-461 | trimming at both ends |
| StringUtils.RTrimString | libupnpp/smallut.cpp:463-472 | trimming at the end |
| StringUtils.LTrimString | libupnpp/smallut.cpp:474-479 | trimming at the start |
| StringUtils.TrimsBlanks | libupnpp/smallut.cpp:456-479 | trimming removes blanks around a string that has none at its ends, and only those |
| Tokenizer.StringToStrings | libupnpp/smallut.cpp:161-267 | the four-state loop computes the scan of its input, fails exactly on an open quote, and leaves the tokens read before it |
| Tokenizer.StringsToString | libupnpp/smallut.cpp:269-296 | the printer: quotes around tokens with blanks, escaped quotes, one space between tokens |
| Tokenizer.GoodToken | libupnpp/smallut.cpp:161-267 | the printed form of a good token is read as that token |
| Tokenizer.BadToken | libupnpp/smallut.cpp:161-267 | the printed form of any other token, except one made of carriage returns, makes the result differ whatever follows |
| Tokenizer.CrTail | libupnpp/smallut.cpp:201-212 | a list that starts with a token made of carriage returns is not read back |
| Tokenizer.RoundTripIff | libupnpp/smallut.cpp:161-296 | reading the printed tokens gives them back if and only if each is empty, or free of white space and quotes, or has a blank and no backslash |
| Tokenizer.GoodMeans | libupnpp/smallut.cpp:161-296 | that class of tokens by characters |
| Tokenizer.SeparatorsSplit | libupnpp/smallut.cpp:224-248 | for every set of additional separators and every sequence of words, separators and quoted texts: outside quotes a separator is a token of its own and ends the word before it without white space, inside quotes it is text |
| Tokenizer.BackslashInQuotes | libupnpp/smallut.cpp:188-222 | inside quotes a backslash is dropped and takes the meaning from the next character that is not white space, be it a quote, a backslash or a separator; white space in between is text |
| UrlEscape.PcDecode | libupnpp/smallut.cpp:1080-1108 | percent-decoding; a percent sign without two hex digits is kept with the two characters after it |
| UrlEscape.HexValues | libupnpp/smallut.cpp:1070-1078 | the hex digits of both cases and their values |
| UrlEscape.DecodedOther | libupnpp/smallut.cpp:1090-1107 | a percent sign without two digits is kept with the two characters after it, and so are the last two characters |
| UrlEscape.ReSanitizeURL | libupnpp/upnpplib.cxx:623-637 | every control, space, non-ASCII or listed character is escaped, others are kept |
| UrlEscape.SanitizedChar | libupnpp/upnpplib.cxx:623-637 | a character above the space and below 0x7f that is not listed is kept; any other becomes a percent sign and two upper-case digits |
| UrlEscape.KeepsMeaning | libupnpp/upnpplib.cxx:623-637 | re-escaping a well-formed URL does not change what it decodes to |
| UrlEscape.KeepsMeaningIff | libupnpp/upnpplib.cxx:623-637 | it never does if and only if neither the percent sign nor a hex digit is listed |
| UrlEscape.CleanIff | libupnpp/upnpplib.cxx:623-637 | the output never has a character at or below the space, at or above 0x7f, or listed, and the function is idempotent, if and only if neither the percent sign nor a decimal or upper-case hex digit is listed |
| HttpRanges.Int64Digits | libupnpp/smallut.cpp:715-739 | 64-bit numbers have at most 19 digits |
| HttpRanges.ToDecimal | libupnpp/smallut.cpp:715-739 | lltodecstr gives decimal notation and stays inside its 30-byte buffer |
| HttpRanges.DecimalRoundTrip | libupnpp/smallut.cpp:715-739 | a printed number is read back, after any white space, with a plus sign or none, and with anything but a digit after it |
| HttpRanges.SideOfNumber | libupnpp/smallut.cpp:1125-1131 | either side of a range is the number written there, negative ones too, whatever blanks are around it |
| HttpRanges.ParseHTTPRanges | libupnpp/smallut.cpp:1110-1143 | exactly which headers parse, and to which ranges; on failure the ranges read before it are left |
| HttpRanges.ContinuedStep | libupnpp/smallut.cpp:1118-1140 | one turn of the loop reads one range and leaves the rest of the list |
| HttpRanges.RangesRoundTrip | libupnpp/smallut.cpp:1110-1143 | every nonempty list of ranges with at least one side each, printed in the form of section 14.1.2 of RFC 9110 with blanks around the numbers, parses to itself |
| HttpRanges.HeaderStart | libupnpp/smallut.cpp:1113-1117 | text before the first bytes= is ignored, and a header without it fails |
| HttpRanges.EmptyItemFails | libupnpp/smallut.cpp:1120-1133 | a list without a dash fails, and so does one that starts with an item without numbers, whatever follows |
| HttpRanges.CommaBeforeDash | libupnpp/smallut.cpp:1124-1139 | for every list with a comma before its first dash: the text up to the dash, comma included, is the left side, all the rest of the header is the right side, and reading goes on after the comma |
| EventLoop.Loop | libupnpp/device/device.cxx:661-711 | the number of passes that reach the polling code, until an exit is asked for or a wait returns an unexpected value |
| EventLoop.PassesAreLimited | libupnpp/device/device.cxx:674-709 | at most 2 floor(T / 1000 ms) + 1 passes within T of any turn of the loop, for every pattern of wakeups, a monotone clock, and timeouts that are never early |
| EventLoop.PollingGoesOn | libupnpp/device/device.cxx:674-709 | for every pattern of wakeups: between any turn and the end of the first turn that begins 1000 ms later or more, the services are polled at least once |
| EventLoop.LimitIsReached | libupnpp/device/device.cxx:674-709 | that number is reached, for every number of periods |

## Left out

- WorkQueueMonitor.WorkQueue.Start: does not model a thread creation that fails, and counts workers without a limit of its own.
- WorkQueueMonitor.WorkQueue.SetTerminateAndWait: does not model the status values of the joined threads, only that they are joined.
- HttpRanges.ToDecimal: leaves out the most negative 64-bit number, as negating it is undefined.
- HttpRanges.ParseHTTPRanges: models atoll for numbers that fit, as its result is undefined for others.
- DescriptionRoundTrip.RunProps: leaves out texts before an opening tag inside a property, and properties that hold services, devices or device lists, which the parser takes for the device's own.
- DeviceDescription.UpnpDevice.AddService: does not model the service description file put in the virtual directory.
- DeviceDescription.UpnpDevice.AddEmbeddedService: the same; models one device object for each embedded id.
- EventLoop.Loop: models one device; the time variables are static in the source and shared by all devices.
- DiscoverySystem: the explorer's exit on a terminated queue and the search started after an expiry are left out. The queue is first in, first out, as proved for the work queue.
- Work queue: `waitminsz`, which shares a condition variable under another predicate, the task deleter, statistics and logging; low marks of 0 in the protocol, where take can pop an empty queue; workers that do not follow the loop of the explorer.
- A worker that exits on its own does not wake its sleeping siblings, so the claims on sleeping workers before a shutdown are for states with `ok()`.
- The XML library's text parsing, attributes and well-formedness; descriptions are sequences of tags and texts. XML quoting is left out.
- Downloads, the network, clocks and the UPnP library are parameters of events; curl and the library's own threads are not part of this model.
- Map order: loops over a map take its order as a parameter, and hold for every order.
- Base64 lengths are unbounded, and byte 255, missing from the source's table, is invalid like its neighbours.
- The re-entrancy of callbacks that call the directory, and the lookup functions that wait for a device.
- SOAP service wrappers, volume scaling, the control-side subscription table, the virtual directory, CSV and duration formatting, URL joining, regular expressions: little state, or foreign code, or rounding.
