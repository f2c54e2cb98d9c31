# docknap, modelled and verified in Dafny

docknap is one process that starts containers on demand and stops them when they are idle. Request goroutines, timer
callbacks, a sync loop and ready-waiters share a handful of lock-protected maps. This project models how those pieces
interleave, and the stateful structures beside them, and proves what they keep in every run.

`dafny verify dfyconfig.toml` checks everything.

## How the pieces fit

- `IdleTimers` is the table of idle timers together with the runtime's timer heap, as a step machine. `Lifecycle` is the
  whole start and stop protocol: one step per critical section or Docker call, any number of threads, and an environment
  that kills, freezes and removes containers and makes every Docker call fail at will. `LifecycleSafety`,
  `LifecycleAccounting`, `LifecycleTimers` and `ProxiedRequests` prove its properties over all runs. `LockOrder` and
  `HandlerPrograms` hold the locking skeleton of the handlers, with the semaphore, the mutexes, the read locks, the wait
  groups and the work that is done under each lock; `HandlerWork` compares them with the bare work, and
  `HandlerGuarantees` says what the locks protect. `LifecyclePrograms` proves that lifecycle threads and these programs
  are two views of the same code.
- `Reconcile` compares the incremental sync with the rebuild of discovery, `SyncTimers` says which timers a sync arms,
  `EventHistory` and `ReadySignals` are the event log and the one-shot ready channels. `Docknap` has the class `Process`
  with the shared maps as fields. Its timer methods are steps of `IdleTimers`, its channel methods steps of
  `ReadySignals`, its syncs and discoveries passes of `Reconcile`. `ProcessRefinement` proves that its stops, timer
  callbacks, starts, ready-waiters, lock lookups, resets and syncs are runs of `Lifecycle` that log what the process
  records; the small setters (boot origins, addresses, runtime state) have no step of their own there.
- `LabelKeys`, `StringOrder`, `Metrics` and `Exposition` are the metrics registry; `RateLimiter` and `Sessions` the two
  pruned stores of the login; `LogFrames`, `LogHub` and `Webhooks` the log stream, its viewers, and the webhook queue.
- A class carries a ghost log of everything that was done to it. Its `Valid` predicate ties the fields to a plain
  function of that log, and the lemmas are about that function.

## What is false of the code

Each of these is proved with the exact condition under which the property holds, or by a run that shows the failure.

- A timer can fire too early after shutdown has emptied the table and before it has stopped the handles: a pending timer
  can do so without a further shutdown if and only if shutdown has taken it out and its timeout is positive
  (`IdleTimers.FiresEarlyIffDoomed`; a run from the start is `IdleTimers.ShutdownWindowFiresEarly`).
- A sync that sees a container disappear deletes its start lock, and single flight can break. From a state in which nothing
  of the kind is under way, deleting the entry lets some run issue a start on the running container if and only if a
  thread heads for its start at that moment, from the lock lookup to the Docker call
  (`LifecycleSafety.DeletionIsHarmful`; a run from the start is `LifecycleSafety.DeletedLockBreaksSingleFlight`).
- A sync is not a rebuild when labels change. A relabelled container keeps its old subdomain as well, and the new settings
  of a running service are ignored, although CHANGELOG.md:39 says that label changes are picked up immediately
  (`Reconcile.SyncRoutesAsRebuild`, `Reconcile.RelabelledRun`, `Reconcile.SettingsPickedUp`).
- A second sync can still change something: exactly if the first one has left a service whose container is gone, as it does
  when a relabelled container vanishes (`Reconcile.SecondSyncChangesNothing`, `Reconcile.SharedContainerNeedsTwoSyncs`).
- A sync does not give every running service its timer: a service that was already registered is armed under the empty
  container name (`SyncTimers.AllTimedAfterSync`, `SyncTimers.NamelessTimer`).
- A log page whose viewer stays can be without a running tail: a service has one if and only if some opening of its page was
  followed by no departure of a viewer, no shutdown, and not the end of its own tail. So the first of two viewers to
  leave stops the tail of the other one, and a viewer who stays while the container stops sees nothing of its next
  start (`LogHub.TailedIffStands`, `LogHub.SecondViewerStarves`, `LogHub.LoneViewerStarves`).
- A label value with a NUL byte is not recovered (`LabelKeys.KeyRoundTrip`): a failed login on a path with `%00` in it is
  reported with the part in front as the path and the part behind as the reason (`LabelKeys.PathIsCut`).

## Model

| member | source | states |
|---|---|---|
| IdleTimers.TimerOwnership | timers.go:10-66 | over every run of arm, reset, stop, sync, fire and shutdown steps: a pending timer that shutdown has not taken out is exactly the stored one of its container, and a container has at most one |
| IdleTimers.OperationEffects | timers.go:16-66 | a reset leaves exactly one new pending timer, a stop leaves none and frees the key, an arm adds one only to a free key; a new timer has the configuration the operation was given and the time of the operation; no operation touches the timers of another container |
| IdleTimers.TimerOrigin | timers.go:10-54 | over every run: each timer was made by an arm or a reset of the run, for that step's configuration and at the time of that step |
| IdleTimers.NoPrematureFiring | timers.go:19-60 | a timer that fires was made by an arm or a reset at least the idle timeout of that step's configuration ago, and, outside the shutdown window, that long after the last reset of its container |
| IdleTimers.ShutdownWindowFiresEarly | main.go:159-170 | a run in which a reset in the shutdown window does not keep the old timer from firing |
| IdleTimers.HaltedWasTaken | main.go:159-170 | over every run only shutdown stops handles from outside the table, and only those it has taken out of it |
| IdleTimers.FiresEarlyIffDoomed | main.go:159-170 | in every reachable state a pending timer can fire within its timeout of a reset, without a further shutdown, if and only if shutdown has taken it out of the table and its timeout is positive |
| LifecycleTimers.TimelineIsLegal | timers.go:10-78 | every lifecycle run contains a legal run of the timer machine that ends in the same timer table |
| LifecycleTimers.TimerOrigin | proxy.go:104 | over every lifecycle run: each timer was made by an arm, or by a proxied request that reset it, for the configuration of that request |
| LifecycleTimers.LifecycleTimersSound | timers.go:10-78 | in every reachable state of the whole lifecycle, with all threads interleaved: ownership, and firing no sooner than the idle timeout of the request or arm that made the timer allows |
| ProxiedRequests.ProxyKeepsAwake | proxy.go:87-104 | over every lifecycle run: a proxied request that has ended saw the port open and reset the timer, or saw it closed and headed for a start, and never both; the reset leaves exactly one pending timer of the container, made at that moment for its configuration, unless its idle stop is disabled or shutdown is under way |
| LifecycleSafety.SingleFlight | docker.go:293-331 | in every reachable state a start is issued only on a stopped container and an unpause only on one that does not run, with one thread between inspection and start, unless the lock entry was deleted under threads heading for the start and some still do |
| LifecycleSafety.StartsMatchDepartures | docker.go:293-331 | over every run the successful starts that change something are the departures from running, plus one if the container runs now, minus one if it ran at first; and no start is wasted on a running container unless its lock entry is deleted under a thread heading for its start |
| LifecycleSafety.Exclusion | docker.go:370-379 | in every reachable state two threads are not both between inspection and start of one container, as long as its entry is not torn |
| LifecycleSafety.DeletionIsHarmful | docker.go:166 | from a reachable state with whole entries, deleting a container's entry lets some run issue a start on it while it runs if and only if a thread heads for its start; without the deletion no run does |
| LifecycleSafety.DeletedLockBreaksSingleFlight | docker.go:166 | a run in which a request goes on to start a running container because a sync has deleted its lock |
| LifecycleSafety.SomeThreadSteps | docker.go:293-331 | in every reachable lifecycle state with an unfinished thread some thread can step |
| LifecycleAccounting.StartConservation | docker.go:307-367 | in every reachable state: counted starts are failed, in flight, or waiters that wait, are ready or gave up; ready events are the waiters that made it; observations are ready events plus those about to be recorded |
| LifecycleAccounting.StopConservation | timers.go:60-112 | in every reachable state: each idle stop has exactly one stopped, paused or failed event with reason idle or is under way, each stop request that has got as far has exactly one with reason manual, and the stops counter agrees with the events, reason by reason |
| LifecycleAccounting.QuiescentCounts | docker.go:307-367 | at quiescence every counter and the start-duration count agree with the events ever recorded |
| LifecycleAccounting.GivingUpIsShutdown | docker.go:333-342 | over every run a waiter gives up only after shutdown has begun |
| LockOrder.DeadlockFree | docker.go:370-379 | any system of threads that acquire in rank order has a step in every reachable state with an unfinished thread, writers waiting in front of readers included |
| LockOrder.LocksExclude | handlers_actions.go:65-86 | at most eight threads hold slots of a semaphore, whoever holds a lock for writing is its only holder, no thread holds two start locks |
| HandlerPrograms.HandlersDisciplined | handlers_actions.go:52-127 | every control path of every listed handler acquires slot, start lock, shared mutex, registry and leaf mutexes in that order, gives everything back, works on shared data and starts or probes containers only under the lock for it, and joins only what it spawned |
| HandlerWork.HandlersWork | handlers_actions.go:13-187 | each listed handler, on each of its control paths, reads, writes, probes, calls and notifies exactly what the source does, in its order |
| HandlerPrograms.DocknapDeadlockFree | handlers_actions.go:52-187 | whatever listed handlers run, on whatever paths and lock objects, they never deadlock |
| HandlerPrograms.DocknapLocksExclude | proxy.go:87-104 | the exclusion of slots, mutexes and start locks for every process made of these handlers |
| HandlerGuarantees.EightAtATime | handlers_actions.go:65-84 | in every reachable state each worker of a bulk request that has begun and not ended holds a slot of its semaphore, so at most eight are busy however many services there are |
| HandlerGuarantees.DockerUnderLock | docker.go:293-331 | in every reachable state a thread that probes for a request, inspects or starts a container on behalf of a start lock holds that lock, and no other thread does |
| HandlerGuarantees.NoDataRace | docker.go:154-200 | in every reachable state, while a thread is about to write what a mutex protects, no other thread is about to read or write it |
| HandlerGuarantees.BulkWaits | handlers_actions.go:67-88 | a bulk request is about to answer only when all of its workers have ended |
| LifecyclePrograms.EveryWalkIsAStretch | proxy.go:87-104 | whatever a lifecycle thread meets, from its first step to its last it locks, does and spawns exactly what a stretch of the program of a handler of its role says |
| LifecyclePrograms.EveryStretchIsAWalk | handlers_actions.go:71-84 | and every such stretch is what some lifecycle thread of that role does |
| LifecyclePrograms.FinishedThreads | docker.go:293-367 | over every lifecycle run every thread that has come to its end has performed the stretch of a handler's program |
| Reconcile.SyncIsRebuild | docker.go:131-205 | while labels do not change, a sync from any reachable registry leaves exactly the configurations that discovery would build from nothing on the same list, and a second sync changes nothing |
| Reconcile.SyncRoutesAsRebuild | docker.go:131-205 | for any labels: a sync routes subdomains as a rebuild does if and only if every registered service that no listed container claims is dropped |
| Reconcile.UnsharedSyncRoutesAsRebuild | docker.go:144-158 | with one service per container the condition is that the containers of the unclaimed services are no longer listed |
| Reconcile.PutAllAt | docker.go:32-45 | discovery: the last listed container whose labels claim a subdomain gets it, under its own name and with every other field as its labels say; every other entry stays |
| Reconcile.RegisterAllRoutes | docker.go:175-185 | a sync: the last listed container that claims a subdomain is the one it is routed to |
| Reconcile.RegisterAllSays | docker.go:175-185 | after the merge a service has the configuration it had, or that of a listed container, field by field as its labels say |
| Reconcile.WinnerIsLast | docker.go:175-185 | there is a winner exactly if somebody claims the subdomain, and nobody behind it does |
| Reconcile.RelabelledRun | docker.go:131-205 | a run of one discovery and one sync after which a relabelled container serves its old and its new subdomain, where a rebuild has only the new one |
| Reconcile.RelabelledStays | docker.go:153-158 | a listed container whose labels no longer claim its subdomain keeps the old configuration routed, where a rebuild would drop it |
| Reconcile.SettingsPickedUp | docker.go:181-185 | a sync gives a claimed service the settings of a rebuild if and only if they are the old ones or another container claims the subdomain |
| Reconcile.SecondSyncChangesNothing | docker.go:131-205 | a second sync changes nothing if and only if the first has left no service whose container is gone |
| Reconcile.OneSyncSettles | docker.go:131-205 | with one service per container that is always so |
| Reconcile.SharedContainerNeedsTwoSyncs | docker.go:142-158 | a run of the code in which the two services of a relabelled container that is gone go in two syncs |
| Reconcile.StatesTrackConfigs | docker.go:26-58 | over every run of discoveries and syncs exactly the registered services have a state |
| Reconcile.StateIsWinners | docker.go:186-190 | after a sync the state of a claimed service is that of the container that serves it |
| Reconcile.StateIsFirst | docker.go:41-43 | discovery notes the state of the first listed claimant of a service that has no state yet, and no other |
| SyncTimers.TimerAfterSync | docker.go:180-203 | after a sync a running container has an entry in the timer table exactly if it had one before or was registered in this pass |
| SyncTimers.AllTimedAfterSync | docker.go:191-203 | every running service has its entry after a sync if and only if those not registered in this pass had theirs before |
| SyncTimers.NamelessTimer | docker.go:180-203 | the empty container name gets an entry if and only if it had one or some running service was already registered |
| SyncTimers.ToArmExactly | docker.go:191-200 | the configurations a sync arms are those of the running entries, under their own name only if newly registered |
| Docknap.SyncedIsSync | docker.go:154-205 | the loops of a sync come to the merge of Reconcile, the timers of SyncTimers and one disappeared event per vanished container, and locks, boot origins and addresses of what is dropped are gone |
| Docknap.SyncedStarted | docker.go:161-196 | a start time after a sync is that of the last listed container that claims the service, is listed as running and whose inspection gives one, or else the old one unless the service is dropped |
| Docknap.SyncIsPass | docker.go:131-205 | registry and states after a sync are those of one pass of Reconcile |
| Docknap.DiscoveryIsPass | docker.go:26-58 | registry and states after discovery are those of one pass, and from nothing the registry is the rebuild; locks, boot origins and addresses stay |
| Docknap.SyncRecordsOnce | docker.go:153-171 | a sync records exactly one disappearance for every service it drops and nothing for any other |
| Docknap.DropEachParts | docker.go:156-172 | dropping containers one by one, in any order, removes all of them at once |
| Docknap.DiscoveryArms | docker.go:46-55 | discovery arms exactly the parsable containers that are listed as running and that the inspection finds running since some time, under their own names and with the settings of their labels |
| Docknap.DiscoveryStarted | docker.go:45-52 | a start time after discovery is that of the last listed container that claims the service, is listed as running and that the inspection finds running, or else the old one |
| Docknap.Process.SyncContainers | docker.go:131-205 | the whole new state of a sync, for every iteration order of the maps, and one more pass on record that the registry follows; without a list nothing changes |
| Docknap.Process.BuildKnown | docker.go:138-144 | the reverse map has every registered container, with one of the services registered to it |
| Docknap.Process.FindListed | docker.go:146-151 | exactly the known containers that are on the list are found |
| Docknap.Process.DropOne | docker.go:155-172 | a disappearance clears every map of the service and its container, stops the timer and records one event |
| Docknap.Process.MergeOne | docker.go:175-200 | one listed container merged; the configuration to arm has its name only if it was registered just now |
| Docknap.Process.Discover | docker.go:26-58 | the whole new state of discovery, existing states kept, and one more pass on record that the registry follows |
| Docknap.Process.ArmIdleTimer | timers.go:10-31 | adds a timer with the given configuration under a free key and changes nothing otherwise; is the arming step of the timer machine and keeps ownership |
| Docknap.Process.ResetIdleTimer | timers.go:33-54 | stores a new timer with the given configuration; is the reset step of the timer machine and keeps ownership |
| Docknap.Process.StopContainer | timers.go:60-112 | the timer goes in any case, exactly one event says how the stop ended, and only a Docker stop that succeeded clears start time and address |
| Docknap.Process.FireTimer | timers.go:19-31 | one idle_stop event, then the stop with its one event and what it clears |
| Docknap.Process.StopAllIdleTimers | main.go:159-170 | if nothing comes in between, every pending timer is stopped, no other one is touched and the table is empty |
| Docknap.Process.ClearServiceRuntimeState | timers.go:114-120 | start time and address go together, nothing else changes |
| Docknap.Process.AcquireStartLock | docker.go:370-379 | the lock object of the lifecycle's table, created exactly on first use |
| Docknap.Process.StartContainer | docker.go:293-331 | a waiter is spawned exactly if the container was seen asleep and Docker obeyed; events and boot origin in each case |
| Docknap.Process.BecomeReady | docker.go:343-367 | what a ready waiter leaves in the maps, its one event, and one signal for everyone subscribed by then |
| Docknap.Process.RecordEvent | registry.go:112-122 | the stored events remain those of the record |
| Docknap.Process.MarkBootStart | registry.go:127-136 | the first caller sets the origin, every later one gets the same |
| Docknap.Process.SetStateIP | registry.go:182-192 | an address and its time are set or removed together |
| Docknap.Process.SubscribeReady | registry.go:207-217 | is the subscription step of the channel machine |
| Docknap.Process.TakeReadyChans | registry.go:219-228 | is the taking step of the channel machine: the list is handed over whole |
| Docknap.Process.BroadcastReady | registry.go:219-235 | every channel that was subscribed is signalled exactly once, and no other one |
| Docknap.Process.ServiceHistory | handlers_status.go:110-133 | a registered service shows the last hundred of all events ever recorded for it, and counts that add up to them |
| ProcessRefinement.StopRefinesLifecycle | timers.go:60-112 | a stop of the process is a run of one lifecycle thread: same timers, same event, the container down or paused exactly if Docker obeyed |
| ProcessRefinement.FireRefinesLifecycle | timers.go:19-31 | a timer's callback is a lifecycle run from the firing on: same timers, idle stop and outcome recorded as logged |
| ProcessRefinement.StartRefinesLifecycle | docker.go:298-331 | a start under its lock is a lifecycle run: same events in each case, and a waiter exactly if one is spawned |
| ProcessRefinement.ReadyRefinesLifecycle | docker.go:343-367 | the end of a waiter is a lifecycle run that logs the ready event the process records |
| ProcessRefinement.AcquireRefinesLifecycle | docker.go:370-379 | the lock lookup is the lifecycle's lookup step: same lock object, same table |
| ProcessRefinement.ResetRefinesLifecycle | timers.go:33-54 | a reset is the lifecycle's reset step of a proxied request |
| ProcessRefinement.SyncRefinesLifecycle | docker.go:131-205 | a sync is one disappearance step and a number of arming steps: same timers, same start locks, nothing logged, nothing else changed |
| ReadySignals.SignalledAtMostOnce | registry.go:207-235 | over every run each channel is in exactly one of: a service's list, a broadcaster's snapshot, signalled, discarded; once there, and signalled at most once |
| ReadySignals.SendNeverFallsThrough | registry.go:229-234 | whichever broadcaster sends next finds an empty buffer, so the default branch is unreachable |
| ReadySignals.SignalsAreReceived | registry.go:207-235 | over every run the signals of a channel are those received from it, plus one that still waits in it or none |
| EventHistory.StoredIsSuffix | docker.go:207-215 | over every run of both recording functions the stored events of a service are the last hundred of all recorded for it |
| EventHistory.EventCounts | handlers_status.go:130-133 | the counting loop is exact for every kind and its counts add up to the number of events |
| LabelKeys.LabelKey | metrics.go:96-105 | the loop builds the key: each value in order, followed by a NUL |
| LabelKeys.SplitNul | metrics.go:132-146 | the scan finds exactly the parts between the NULs, without the empty part after a final one |
| LabelKeys.ParseKeyLoop | metrics.go:118-130 | names and parts are paired by position as far as both go |
| LabelKeys.ParsedByPosition | metrics.go:118-130 | what is read from any key: each name has the part at its place as far as there are parts, no other name has a value |
| LabelKeys.SplitRebuilds | metrics.go:132-146 | writing a NUL after each part rebuilds the key up to one missing final NUL |
| LabelKeys.KeyRoundTrip | metrics.go:96-130 | parsing a key gives the labels back if and only if no value contains a NUL, empty values included |
| LabelKeys.KeyInjective | metrics.go:96-105 | label sets whose values after the first have no NUL, as those of every registered metric, have the same key if and only if they are the same on the names |
| LabelKeys.PathIsCut | auth.go:120-122 | the labels read back for a failed login on a path with a NUL: the part in front as path, the part behind as reason |
| Metrics.MetricData.AddTo | metrics.go:154-159 | after every run the values are the replay of all additions and settings |
| Metrics.MetricData.SetTo | metrics.go:166-171 | the same for a gauge |
| Metrics.CounterIsSum | metrics.go:154-159 | the value of a counter's series is the sum of what was added with these labels |
| Metrics.GaugeIsLastSetting | metrics.go:166-178 | the value of a gauge's series is what it was last set to with these labels, plus what was added since |
| Metrics.HistogramData.Observe | metrics.go:185-201 | after every run the three maps are the replay of all observations, and no two series share a row |
| Metrics.KeysAgree | metrics.go:185-201 | sums, counts and bucket rows have the same keys: those observed |
| Metrics.SeriesAgrees | metrics.go:185-201 | sum and count of a series are those of its observations, and slot i counts those at most bound i |
| Metrics.BucketsCumulative | metrics.go:195-199 | the count for a lower bound is at most that for a higher one and at most the total |
| Metrics.SubdomainSurvives | metrics.go:286-289 | the subdomain read back from a key is the one observed with, whatever further labels there are |
| Metrics.AddSeries | metrics.go:285-292 | summing the series of a subdomain in any order gives the sum and count of exactly the observations made with it |
| StringOrder.ListingUnique | metrics.go:347-363 | a set of keys has one sorted listing, so the output does not depend on the map's iteration order |
| StringOrder.LessExactly | metrics.go:347-363 | the order of the keys is the lexicographic one: the first difference decides, and a proper prefix comes first |
| StringOrder.SortedKeys | metrics.go:347-363 | every key once, in ascending order |
| Exposition.FilteredIsFilter | metrics.go:220-276 | the samples printed for a subdomain are exactly those of the full output that carry it, in the same order |
| Exposition.EachSeriesOnce | metrics.go:236-247 | the series lines of a metric show every label set that was ever touched exactly once, with its replayed value |
| Exposition.EachHistogramOnce | metrics.go:256-270 | every observed label set of a histogram is on the lines of one block and on no other line, and the block ends with its sum and count |
| Exposition.MetricPrinted | metrics.go:224-248 | the text of a metric is its help and type, then one line for every label set that was ever changed and for no other, with the value its log gives, in key order; without labels and changes it shows zero |
| Exposition.HistogramPrinted | metrics.go:250-271 | the text of a histogram is its help and type, then for every observed label set and no other one line for each bound with the number of observations at most that, the infinite one, the sum and the count |
| Exposition.TextIsOutput | metrics.go:220-276 | the output is these blocks in registration order, the metrics first; for a subdomain it is each block filtered by itself, header and samples, and nothing of a metric without that label |
| Exposition.BucketLinesCumulative | metrics.go:262-269 | for ascending bounds the printed buckets never decrease and never exceed the +Inf line |
| Exposition.ReplayedIsPrintable | metrics.go:262-265 | every printed series has a row with one slot per bound, so the indexing is in range |
| Exposition.Registry.WriteTo | metrics.go:220-272 | the loops print the text of the state they started from, which is the output that everything ever added, set and observed calls for |
| Exposition.Registry.Counter | metrics.go:64-70 | a new empty counter at the end with the name, help and labels it was given, the registry stays valid |
| Exposition.Registry.Gauge | metrics.go:72-78 | a new empty gauge at the end with the name, help and labels it was given, the registry stays valid |
| Exposition.Registry.Histogram | metrics.go:80-94 | a new empty histogram at the end, with the name, help, labels and bounds it was given, that shares no row with another one |
| Exposition.Registry.Add | metrics.go:154-159 | an addition through the registry keeps every metric and histogram the replay of its log |
| Exposition.Registry.Set | metrics.go:166-171 | the same for a gauge that is set |
| Exposition.Registry.Observe | metrics.go:185-201 | an observation on one registered histogram leaves every other one alone |
| Exposition.Registry.HistogramStats | metrics.go:278-295 | the sum and count of exactly the observations of that name and subdomain |
| Exposition.Registry.OneNamed | registry.go:86-89 | where one histogram has the name, the statistics are those of its own observations |
| RateLimiter.LoginRateLimiter.Allow | ratelimit.go:19-42 | the pruned store answers as the full history: refused if and only if limit accepted attempts of the key lie strictly within the last window |
| RateLimiter.PruningIsExact | ratelimit.go:25-33 | dropping the stale prefix leaves exactly the accepted attempts of the last window |
| RateLimiter.WindowBound | ratelimit.go:19-42 | no interval of the window's length holds more than limit acceptances of a key, and none at all if the limit is not positive |
| RateLimiter.RefusalsDoNotMatter | ratelimit.go:34-38 | a history without its refused attempts accepts the same: refusals never prolong a block |
| RateLimiter.KeysIndependent | ratelimit.go:19-42 | what a key is granted depends on its own attempts only |
| Sessions.SessionStore.Issue | sessions.go:25-37 | keeps the store faithful to its history even when the clock was read before the lock was taken |
| Sessions.SessionStore.IsValid | sessions.go:39-56 | true if and only if the latest issue of the token is at most ttl old and unrevoked since |
| Sessions.SessionStore.Revoke | sessions.go:58-65 | the token is not valid afterwards, every other one keeps its answer |
| Sessions.SessionStore.Gc | sessions.go:67-79 | removes entries without changing any later answer |
| Sessions.PruningUnobservable | sessions.go:39-79 | two stores that have seen the same issues and revocations accept the same tokens from now on, however they were checked and collected in between |
| LogFrames.Run | logs.go:70-88 | an uncancelled reader publishes exactly the decoded lines, a cancelled one a prefix; each round consumes at least a header |
| LogFrames.DecodeEncode | logs.go:70-88 | decoding a concatenation of frames yields exactly the non-empty payloads, in order, without trailing line breaks |
| LogFrames.TruncationIsPrefix | logs.go:75-85 | for any cut of the bytes the lines are a prefix |
| LogFrames.SizeRoundTrip | logs.go:79 | sizes decode exactly for every payload below 2^32 bytes |
| LogFrames.SizeBits | logs.go:79 | the 32-bit shifts and ors assemble the big-endian number |
| LogFrames.TrimRightSpec | logs.go:86 | only line breaks are cut off, and none is left at the end |
| LogHub.OneTailEach | logs.go:22-51 | over every run of viewers coming and going and tails ending a service has at most one tail whose context is not cancelled |
| LogHub.RunsIffStands | logs.go:22-89 | a tail reads the log of a service if and only if it is that of an opening after which no viewer came or left, nothing was shut down and it did not end |
| LogHub.TailedIffStands | logs.go:22-89 | a service has a running tail if and only if there is such an opening |
| LogHub.SecondViewerStarves | logs.go:146-193 | two viewers, one leaves, no tail |
| LogHub.LoneViewerStarves | logs.go:64-77 | one viewer, whose tail ends with its container: no tail |
| LogHub.Hub.Start | logs.go:22-33 | the running tail of the service is cancelled and replaced |
| LogHub.Hub.Stop | logs.go:35-42 | the tail of the service is cancelled and forgotten |
| LogHub.Hub.StopAll | logs.go:44-51 | the context of every tail is cancelled |
| LogHub.Hub.EndTail | logs.go:64-85 | the tail is over, and its cancel function stays stored |
| LogHub.Hub.Subscribe | logs.go:123-129 | a new empty channel at the end of the list |
| LogHub.Hub.Unsubscribe | logs.go:131-144 | the channel is gone from the list, the others keep their order, no empty list stays |
| LogHub.Hub.Publish | logs.go:106-121 | every viewer of the service with a free slot gets the line last, a full one loses it, nobody else is touched |
| Webhooks.Fifo | webhooks.go:79-111 | over every run the accepted events are those sent, then the one in flight, then the queue of at most 256 |
| Webhooks.AcceptedSubsequence | webhooks.go:79-97 | the accepted events are an in-order subsequence of the enabled notifications |
| Webhooks.DroppedIffFull | webhooks.go:91-96 | an enabled notification is dropped if and only if 256 accepted events have not been taken |
| Webhooks.FlagsSay | webhooks.go:99-111 | the sender is closed exactly after a shutdown, cancelled exactly after that or the end of its parent, and quit exactly after the worker has returned |
| Webhooks.ShutdownKeepsPrefix | webhooks.go:142-149 | after the worker has returned nothing more is sent, and what was sent is a prefix of what was accepted |
| Webhooks.WorkerStopsOnlyWhenAllSent | webhooks.go:99-111 | a worker that has not returned has nothing to do if and only if everything accepted was sent |
| Webhooks.WebhookSender.Notify | webhooks.go:79-97 | queued last if enabled and there is room, otherwise nothing changes |
| Webhooks.WebhookSender.Receive | webhooks.go:99-111 | the worker takes the oldest event, or returns once cancelled, whichever ready case the select picks |
| Webhooks.WebhookSender.Shutdown | webhooks.go:142-149 | terminates with the worker gone; only what is still in the queue was accepted and not sent |

## Left out

- The Docker client, HTTP, TLS, dialling, health probes and the reverse proxy: they are choices of the environment. A
  Docker call that fails is taken to have had no effect on the container, and a paused container that is told to stop is
  taken to go down.
- Label parsing, environment parsing, IP ranges and base64: `parseLabels` is an arbitrary function from labels to an
  optional configuration that does not set the container's name. The leading slash of a container's name is already
  removed, and a listed container has at least one name. The lemmas about timers after a sync and about changed settings
  take the names on one list to be distinct and not empty, as Docker keeps them.
- Configuration fields that only templates and handlers' headers read, and the fixed texts and extra fields of events.
- Pages, redirects, cookies, CSRF checks, loggers and pprof: single checks or library calls. The listed handlers are those
  that take a lock of docknap's own; the logger's mutex, held for one write, is part of the calls.
- HandlerGuarantees.NoDataRace: does not cover reads under no mutex at all: the size of the registry that a sync puts into
  a gauge (docker.go:204), which only the sync itself changes, and what main logs at start-up (main.go:113-120).
- The printed form of the metrics: the output is a sequence of structured lines; label values are printed unquoted, so
  nothing is claimed about reading the text back. The number of bytes written is not modelled.
- Floats are reals and 64-bit counters are natural numbers, so rounding, infinities and wrap-around are not modelled.
- Strings are sequences of characters rather than bytes; the metrics' sort order is that of the characters' numbers.
- LogFrames.Run: does not model a platform with 32-bit integers, where a size of 2^31 or more would be negative.
- LogHub.Hub.Unsubscribe: does not model that the removal shifts the elements of a shared backing array; publishing
  copies the list first, so no reader sees it.
- LogHub.Hub.Publish: is one uninterrupted pass; in the source other goroutines may come between two sends, and a viewer
  that has just unsubscribed may still get a line.
- RateLimiter.LoginRateLimiter.Allow: is stated for a clock that does not go backwards, which Go's monotonic clock keeps.
- Sessions.SessionStore.Issue: the token itself is a parameter; that random tokens do not repeat is not needed.
- Docknap.Process.SyncContainers: calls no other method in between; what other goroutines do between the merge and the
  arming, or during a stop or a start, is in the step machines of Lifecycle and IdleTimers.
- Docknap.Process.StartContainer: is the part that runs under the start lock, and its waiter is the caller's to run.
- Webhooks.WebhookSender.Shutdown: a second shutdown closes a closed channel and panics; it is excluded. The webhook's
  event list is a given set; the default list leaves out stop_error, which docknap does notify.
- The startup-failure counter and the startup_timeout event of waiting pages, which no law connects with anything.
- The state gauge, the proxy's own metrics, admin login and the poll and event loops that trigger a sync.
- Claims the code does not keep and that are not stated: that no idle stop happens within the timeout of the last request
  (a reset can come after the firing), that one state gauge is 1 per service, and that the keys of the start times, boot
  origins and addresses stay within the registered services (a waiter can write after a disappearance).
