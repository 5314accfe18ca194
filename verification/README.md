# Verified model of large-model-proxy

large-model-proxy starts model servers on demand, shares a fixed budget of named resources between
them, and stops the least recently used one when a new one does not fit. This project models the
protocol behind that, with every goroutine and every lock, and proves what holds of each reachable
state and of each run. `dafny verify dfyconfig.toml` checks it.

## How the model is organised

The lifecycle and the resource ledger are one step machine:

- `Model.dfy`: the values behind the manager's mutexes (configuration, ledger, registry of running
  services, one record per `RunningService`, both waiter registries, their capacity-1 channels, the
  connection counters) and the operations on them. An instance is named by its birth number.
- `Machine.dfy`: one program counter per goroutine (client connection, starter, stopper, process
  monitor, idle timer) and one step per `serviceMutex` critical section. Waiting for a `manageMutex`
  is a visible state. The resource monitors, new clients and timers are the environment. A choice
  that the scheduler, the clock, the network or the operating system makes is an argument of the step.
- `Invariant.dfy`, `Operations.dfy`, `Steps.dfy`, `Ledger.dfy`, `Reachable.dfy`: what each goroutine may
  rely on at its program counter, what its steps may do to the others, the ledger as sums, and the
  proof that every state of every run satisfies all of it.
- `LedgerTheorems.dfy`, `WaiterTheorems.dfy`, `WakeupTheorems.dfy`, `EvictionTheorems.dfy`,
  `EvictionBound.dfy`, `StatusTheorems.dfy`: the results for runs.
- `Records.dfy`: what every step does to each field of every instance. With it `Recency.dfy` and `Stages.dfy` read
  off the labels of a run when a service was last used, how far its start has come and whether its idle timer is
  set, and `Admission.dfy` says what a pass decides in terms of the instances and the goroutines.
- `FailedKills.dfy`, `Scenarios.dfy`: runs that show what the program does not promise.
- `Deadlock.dfy`: the manageMutexes; `LockOrder.dfy`: the other mutexes; `AllLocks.dfy`: both together.

The same operations exist as the program has them, updating maps in place:

- `Manager.dfy`: the class `ResourceManager`; each method is a critical section with its loops, proved
  equal to the operation of `Model.dfy`. It also holds the loops of `/status`.
- `Scheduling.dfy`: a goroutine among the others. `Others` stands for whatever the other goroutines do
  before its next critical section; it promises that what the goroutine relies on there survives, that a name
  is registered as before or to an instance born since, and that births stay below a number `limit`, which is
  arbitrary but finite. `Goroutines` is the same for a monitor.
  `Interference.dfy` proves that every stretch of the step machine's runs keeps these promises.
- `Stopping.dfy`: `stopService`, which blocks on the victim's manageMutex and on the end of its process.
- `Eviction.dfy`, `Reservation.dfy`: the loop of `reserveResources`, which keeps the step machine's facts
  at every program counter it passes, and ends. The others move before each of its critical sections and
  each of a stop's. Exact values are stated for a goroutine that is `alone`.
- `Lifecycle.dfy`: `startService` with every way out. `HealthCheck.dfy`: the healthcheck loop.
- `Monitoring.dfy`: one run of a resource monitor.

The byte and line paths are separate:

- `Pipe.dfy`, `PipeMachine.dfy`: `bufferedPipe` as a class, and any number of readers and writers on it.
- `Replay.dfy`: a client's bytes from the capturing connection through the replay to the stream, and which
  of them belong to the request that is forwarded.
- `LineWriter.dfy`, `LineTheorems.dfy`: `serviceLoggingWriter`, and what it logs of a whole stream.

The modelled states are those before shutdown is requested. A valid configuration is a precondition:
required resources are declared, amounts are not negative. A service's name is its identity.

History: `committed` and `since` of an instance, `checks`, the key of a channel, the byte histories of the
pipe and what the HTTP server has not served are not in the program; no decision reads them. An
over-approximation: a monitor may run its CheckCommand at any time, an idle timer may fire at any time after
it was created, a `TryLock` may fail although the mutex is free, and a use of a registered service may be
recorded for any instance of it, as the look-up may have come earlier. What is proved of every state, step or
run therefore holds for the program's narrower behaviour. The results that say that a step or a run exists use
only steps the program has: `Deadlock.NeverWedged`, `AllLocks.NeverWedged` and `WaiterTheorems.ReceiveEnabled`
name the next critical section of a goroutine that nothing blocks, and the runs of `FailedKills.dfy` and
`Scenarios.dfy` use kills that fail, a process that ends before its start does, idle timers that fire while
their service is idle, and CheckCommands that print the same number again.

Findings:

- The comment at management_api.go:62-64 says that `connectionStatsMutex` and `serviceMutex` are never
  held together. `canBeStopped` takes the first while `findEarliestLastUsedServiceUsingResource` and the
  idle timer callback hold the second. The model follows the code; the order is still consistent
  (`LockOrder.SectionsOrdered`).
- The log of a stream depends on where it is cut: a CRLF split between two writes is logged as an extra
  empty line. `LineTheorems.ExactUnlessSplit` says exactly when the log equals the split of the whole
  stream and by how many lines it differs otherwise; `LineTheorems.SplitExample` is a concrete input.
- Evictions are bounded by what happens meanwhile. In any stretch of any run a goroutine chooses at most as
  many victims as services were registered, kills of its own failed and services were started
  (`EvictionBound.EvictionsBounded`). A kill that fails leads back to the same shortage and the same victim,
  for a measured resource when the monitors measure what they measured before
  (`FailedKills.FailedKillRepeats`), so the number of failed kills has no bound
  (`FailedKills.FailedKillsUnbounded`). Two services that fit alone but not together are enough for it, from
  the initial state on (`Scenarios.EvictedForEver`).
- A release announced between a pass and the registration that follows it is lost: the registration makes a
  new channel. A waiter is woken exactly by the broadcasts on its resource after it registered
  (`WakeupTheorems.WokenExactly`); until the next one all it can do is give up
  (`WakeupTheorems.EarlySignalsLost`), even when everything it needs is free
  (`WakeupTheorems.ReleaseBeforePark`). The same two services are enough (`Scenarios.ReleaseLost`).
- The bytes replayed to the service are not always those of the forwarded request. At the reset that follows a
  request, let `left` be what the server has read and not consumed, and `own` the rest of that request, read
  or not. When every later request has a handler, the replay is right if and only if `own` is as long as
  `left` (`Replay.ResetDecides`). A handler knows `own` when the length of the body is known, which it is not
  with chunked transfer coding; `left` is known to net/http only. With `own` shorter, a pipelined request has
  begun to arrive and loses those bytes (`Replay.PipelinedExample`). With `own` longer, the handler ended before
  the body had come, the server reads and drops it, and it is replayed in front (`Replay.UnreadBodyExample`). A
  request that net/http answers without a handler is replayed in front too
  (`Replay.BypassExample`). `Replay.WholeRequest` is the condition and the difference for every run.
- An idle timer can outlive its instance. The clean-up clears the timer, but when the process ends and is cleaned
  up before the start does, the start sets a timer that nobody clears. An idle timer that fires stops the service if
  and only if its instance ended its start well and was not cleaned up since, nobody manages it and nothing is
  forwarded; the instance is then a registered one if and only if it was not cleaned up before the start ended
  (`Stages.IdleStops`). Otherwise the stop goes by name, after whichever instance is registered by then
  (`Scenarios.StaleTimer`).
- The branches that log "already being reserved", "not the same instance" and "Negative connection
  count" are unreachable (`WaiterTheorems.ReturnsClean`, `Operations.CleanUpSame`,
  `LedgerTheorems.NeverClamps`).

## Model

| member | source | states |
|---|---|---|
| Reachable.RunInv | service.go:72-212 | every state of every run satisfies the invariant: registry, waiters, goroutine facts, ledger sums, counters |
| Reachable.InitInv | main.go:135-175 | the tables `main` builds satisfy the invariant |
| Reachable.NextInv | main.go:17-52 | every step of every goroutine and of the environment keeps it |
| Steps.StepOk | service.go:13-212 | a step changes only what its goroutine owns and establishes the facts of its next program counter |
| Ledger.StepBalanced | resources.go:350-364 | a step moves the ledger and the counters exactly as it moves its own instance and program counter |
| Invariant.StayOk | main.go:34-52 | what a goroutine relies on survives every step of every other goroutine |
| LedgerTheorems.OneInstancePerName | service.go:80-90 | a name has at most one unreleased instance and it is the registered one |
| LedgerTheorems.FreeMeansStarted | service.go:102-125 | a registered instance with a free manageMutex holds its reservation and has its command |
| LedgerTheorems.InUseConserved | resources.go:41-44 | `resourcesInUse[r]` is the sum of the requirements of the committed and unreleased instances |
| LedgerTheorems.CapacitySafe | resources.go:167-186 | in every state 0 <= in use, and in use <= amount for a resource without a CheckCommand |
| LedgerTheorems.IdleMeansFree | service_process.go:311-313 | when no service is registered nothing is in use: each commit was undone, and only once |
| LedgerTheorems.ReservedConserved | resources.go:355-364 | `resourcesReserved[r]` is what the starts between commit and end owe; with none it is 0 |
| LedgerTheorems.OnlyCommitsAdd | resources.go:34-46 | in use grows only in the step of a pass that commits |
| Operations.CleanUpSame | service_process.go:293-321 | the instance cleaned up is the registered one, so the error branch is not taken |
| LedgerTheorems.ConnectionsCounted | connection.go:190-207 | `waiting` and `proxied` are the numbers of the service's connections in each phase |
| LedgerTheorems.NeverClamps | main.go:80-88 | no counter would become negative, so the clamp is never taken |
| LedgerTheorems.StoppableMeansUnused | resources.go:338-348 | `canBeStopped` says yes if and only if nobody manages the instance and no goroutine forwards a connection to the service |
| LedgerTheorems.ZeroIsAnnounced | main.go:93-100 | a step that brings both counters to 0 goes on to broadcast the service's resources |
| WakeupTheorems.OnlyZeroIsAnnounced | main.go:93-100 | and only such a step does |
| LedgerTheorems.AnnouncementHeard | monitor_resources.go:140-161 | that broadcast leaves a signal in the channel of every waiter on those resources |
| WaiterTheorems.OneReservation | service.go:80-92 | two goroutines never reserve for the same service at once |
| WaiterTheorems.ReturnsClean | resources.go:34-114 | no registration of the service is left when the reservation returns, nor when it is about to register |
| WaiterTheorems.ChangeOwner | resources.go:85-91 | a change registration belongs to the one goroutine that waits with that channel |
| WaiterTheorems.FirstOwner | resources.go:192-200 | a first-check registration belongs to the one goroutine that awaits that check |
| WaiterTheorems.WakeupRetained | monitor_resources.go:181-198 | once registered, any broadcast on the resource leaves the waiter's channel full until it receives |
| WaiterTheorems.ReceiveEnabled | resources.go:93-94 | a waiter whose channel is full can take its receive step; in the wait for first checks, once all channels still awaited are full |
| WakeupTheorems.WokenExactly | monitor_resources.go:163-198 | while a goroutine listens on a channel that was empty, the channel is full if and only if a broadcast on its resource has addressed it since |
| WakeupTheorems.SignalCause | monitor_resources.go:140-161 | no step fills a waiter's channel but a broadcast on the resource it waits for; a goroutine tells it to measure anew, a monitor to trust the new amount |
| WakeupTheorems.ReleaseHeard | service_process.go:293-321 | whatever step releases an instance leaves a signal in the channel of every waiter on a resource that the instance required |
| WakeupTheorems.EarlySignalsLost | resources.go:77-112 | after registering, and until the next broadcast on the resource, the only step of a waiter is to give up |
| WakeupTheorems.ReleaseBeforePark | resources.go:67-91 | a clean-up that frees all that is missing right before the registration leaves the waiter on an empty channel |
| WaiterTheorems.MeasuredCommit | resources.go:29-76 | a commit without a pending recheck has, for every measured resource, a check completed since the call began and since its last eviction |
| Admission.PassDecides | resources.go:150-214 | for every pass of every run: it can reserve if and only if what the committed instances leave of each static resource, and the last measurement less what unfinished starts owe of each measured one, suffice and nothing is to be measured; it asks if and only if it is to measure and the static ones suffice; it reports a resource if and only if that one does not suffice |
| Admission.CommitFits | resources.go:292-319 | after a commit the shares of all unfinished starts together fit the last measurement of each measured resource, and the committed instances fit the amount of each other one |
| Admission.RefusedAfterWaiting | resources.go:93-113 | a reservation is refused only after its goroutine gave up a wait for a change or for measurements, with nothing else in between |
| Admission.GivingUpRefuses | service.go:92-101 | and whoever gives up a wait is refused: its instance is released and its connection given up |
| Deadlock.RankGrows | service_process.go:165-184 | along waits for a manageMutex, start attempts blocked in an eviction wait on strictly later births |
| Deadlock.NoCycle | resources.go:67-76 | in no reachable state is there a cycle of goroutines waiting for each other's manageMutex |
| Deadlock.NeverWedged | connection.go:269-295 | every chain of waits ends in a goroutine that can take a step |
| LockOrder.SectionsOrdered | resources.go:188-200 | every critical section takes the other mutexes in one order, for any number of resources and services, and waits for a manageMutex only without them |
| LockOrder.NeverWedged | main.go:35-49 | whenever a goroutine is inside a section, one inside a section can take its next lock operation; whoever waits for a manageMutex holds none of these mutexes |
| AllLocks.NeverWedged | main.go:34-52 | with both kinds of mutexes: whenever a goroutine waits for one or is inside a section, some goroutine can go on |
| EvictionTheorems.EvictionRemoves | resources.go:67-76 | from the choice of a victim to the next pass, with the others moving at every step, the victim leaves the registry and nothing enters it, unless a kill fails or a service is started |
| EvictionBound.EvictionsBounded | resources.go:31-77 | in any stretch of any run a goroutine chooses at most as many victims as services were registered at its start, own kills failed and services were started in it |
| Records.StepDevelops | main.go:17-29 | each field of each record changes by one kind of action only: a recorded use of it, its own start, a clean-up of it, the return of its own eviction |
| Records.ReleasedBy | service_process.go:251-291 | a step releases an instance if and only if it is the clean-up by its own refused or unspawned start, by a stop that holds it, or by the monitor of its process when the service counts as stopped on exit |
| Recency.LastUsedIsLastUse | resources.go:321-336 | in every state `lastUsed` is the time of the last step that inserted the instance or recorded that a connection to its service uses it |
| Recency.UsesRecorded | connection.go:205-231 | a connection records a use before it is counted as forwarded and before it ends: of the registered instance of its service, or of one released meanwhile, unless none is registered |
| Recency.VictimIsOldest | resources.go:118-148 | every victim is registered, uses the resource that the goroutine's last pass found missing, is managed by nobody and has no forwarded connection; nobody else of whom that holds was last used before it |
| Recency.WaitMeansNobody | resources.go:77-91 | a goroutine registers to wait only after a search in which everybody else who uses the resource was managed by somebody, had a forwarded connection or was last used no earlier than the search |
| Stages.Origin | service.go:13-62 | a start confirms what it reserved, spawns, records its command and goes on only after a probe and then a connection that succeeded, and is aborted only after one that failed; a connection comes to the service by its own start, or by the look-up, the mutex and a dial that succeeded; it restarts a service only if that is configured, and gives up only where its dial, its start, its place in the queue or the insertion failed |
| Stages.StageIsHistory | service.go:102-178 | an instance waits for resources until its start confirms the reservation, and is ready from the section that ends its start |
| Stages.TimerIsHistory | service.go:180-209 | the idle timer is set if and only if the start ended well and the instance was not cleaned up since |
| Stages.IdleStops | service.go:180-209 | a timer that fires stops the service if and only if the timer is set, nobody manages the instance and nothing is forwarded; the instance is unreleased if and only if it was when its start ended |
| FailedKills.FailedKillRepeats | service_process.go:226-238 | a stop whose kill fails leads back to the same shortage, static or measured, and the same victim |
| FailedKills.FailedKillsUnbounded | resources.go:31-77 | for every n a run that got there can go on with n evictions of that victim, all of whose kills fail |
| Scenarios.EvictedForEver | resources.go:31-77 | for two services that fit alone but not together, and every n, a run from the initial state with n evictions of one for the other |
| Scenarios.ReleaseLost | resources.go:67-91 | for the same services, a run from the initial state after which one waits on an empty channel although all it needs is free |
| Scenarios.StaleTimer | service.go:180-209 | for a service that fits alone and counts as stopped when its process ends, a run from the initial state in which the timer of an instance that is gone sends a stop after the next instance, which is still starting |
| Scenarios.CompeteExample | config.go:111-135 | two services that both need all of one resource are such a pair |
| StatusTheorems.StatusAgrees | management_api.go:74-152 | free = amount - in use >= 0, in use <= the sum of the usages, and equal when every registered service had its reservation confirmed |
| StatusTheorems.ServiceReported | management_api.go:112-140 | for every run: the counts are the numbers of connections that wait and that are forwarded; stopped if and only if not registered, running if and only if its start ended well, waiting if and only if its reservation is not confirmed; the time is that of the last use |
| StatusTheorems.ResourceReported | management_api.go:76-99 | for every run: reserved is what unfinished starts owe, in use what is committed, free what is left of the amount or was measured last, and the usages are the requirements of the registered services |
| StatusTheorems.AvailableIsMeasured | monitor_resources.go:84-92 | the cached amount is the last one measured, 0 before |
| Manager.ResourceManager.constructor | main.go:135-166 | the tables start at zero, with a first-check table for measured resources only: the initial state of the machine |
| Manager.ResourceManager.ReleaseResources | resources.go:350-354 | subtracts every amount from the amounts in use |
| Manager.ResourceManager.ReleaseReservedResources | resources.go:360-364 | subtracts every amount from the reserved amounts |
| Manager.ResourceManager.SendSignalToChannels | monitor_resources.go:181-198 | fills every empty channel, leaves full ones as they are, and never blocks |
| Manager.ResourceManager.BroadcastResourceChanges | monitor_resources.go:140-161 | signals exactly the change waiters of the given resources |
| Manager.ResourceManager.ResourceHasWaiters | monitor_resources.go:107-111 | true if and only if some service is registered for the resource in either registry |
| Manager.ResourceManager.CacheAmount | monitor_resources.go:84-92 | the amount is cached, and the result says whether it changed |
| Manager.ResourceManager.BroadcastAmount | monitor_resources.go:94-101 | signals the first-check waiters, and the change waiters if the amount changed; the result says whether anybody is registered |
| Monitoring.CheckResourceAvailability | monitor_resources.go:65-102 | with the others moving in between: caches the amount, then broadcasts to those registered at that moment, to the change waiters exactly if the amount differed; a failed or unreadable run changes nothing; the result says whether anybody was registered at the broadcast |
| Interference.MonitorUndisturbed | monitor_resources.go:84-100 | between two steps of a monitor nobody else changes its cached amount or what it still has to broadcast |
| Manager.ResourceManager.CleanUpStoppedService | service_process.go:293-321 | releases, unregisters and announces once; nothing the second time or when not asked to release |
| Manager.ResourceManager.CanBeStopped | resources.go:338-348 | true if and only if the manageMutex is free and nothing is proxied; the mutex is given back |
| Manager.ResourceManager.IncrementConnection | main.go:76-101 | the new counters, and a broadcast exactly when both are 0 |
| Manager.ResourceManager.FindFirstMissingResource | resources.go:150-214 | a pass: which resource is missing, or new registrations for every measured resource, or nothing missing |
| Manager.ResourceManager.FindStaticShortage | resources.go:167-186 | a static resource that does not suffice, or the proof that all do |
| Manager.ResourceManager.FindMeasuredShortage | resources.go:292-319 | a measured resource whose cached amount, less the reserved one, does not suffice, or the proof that all do |
| Manager.ResourceManager.AskForMeasurements | resources.go:194-200 | one new empty channel and one registration for every measured resource, and no other change |
| Manager.ResourceManager.CommitReservation | resources.go:34-44 | adds all amounts to both ledgers and drops the change registrations |
| Manager.ResourceManager.FindEarliestLastUsed | resources.go:118-148 | a least recently used eligible service, or the proof that none is eligible |
| Manager.ResourceManager.SnapshotConnections | management_api.go:62-72 | the counters of exactly the listed services, 0/0 for one that has none |
| Manager.ResourceManager.HandleStatus | management_api.go:76-151 | one status per service and one usage per resource, of the locked snapshot |
| Manager.ResourceManager.RegisterForChange | resources.go:85-91 | a new empty channel under the resource and the service |
| Reservation.ReserveResources | resources.go:10-116 | with the others moving before every critical section, it ends; commits in a pass where everything suffices or adds nothing; no registration is left; every victim used the missing resource and was least recently used, and every wait had nobody to evict; it refuses only where a required resource did not suffice and then nobody could be stopped, or where the monitors were asked and did not answer; evictions and what stays registered are at most what was registered and what was started meanwhile. Alone: with nothing to measure and enough left of everything it reserves at once; otherwise each victim was least recently used of those left who use a resource that does not suffice without it, until everything fits, or something does not and all who use it and could be stopped are gone |
| Reservation.SoloShortest | resources.go:31-77 | alone and short of one static resource it evicts exactly the shortest sufficient prefix of the LRU order, or all of it before it is refused |
| Reservation.Pursue | resources.go:67-113 | a round with a missing resource: a justified victim is removed, survives a failed kill or holds the stop up, or nobody is eligible and the loop waits |
| Reservation.Chase | resources.go:67-113 | the same, entered in the log: each victim leaves one service less registered, not counting those started meanwhile, a round without a victim adds none, and giving up has its grounds; alone, each victim is the next to go |
| Reservation.WaitForFirstCheckCommands | resources.go:222-249 | true only after a signal from every channel; the registrations are dropped on every way out; false when nobody else moves |
| Reservation.AwaitChange | resources.go:85-113 | registers, waits for a signal, the deadline or a disconnect, and deregisters |
| Reservation.TryReserve | resources.go:32-49 | check and commit in one hold of the mutex, as the step machine has it |
| Reservation.ChooseVictim | resources.go:67-78 | a least recently used eligible service, or nobody eligible and the loop goes on to wait |
| Reservation.Evict | resources.go:69-76 | with the others moving and starting services before and during the stop, the victim's name is unregistered or taken by an instance born since when the stop succeeds, and the loop is back before a pass that rechecks |
| Stopping.StopService | service_process.go:165-247 | with the others moving before every critical section: every instance the service had is released, and its name is unregistered or taken by an instance born since; or the kill failed; or the manageMutex is still awaited; the goroutine it works for has all its facts at its next program counter |
| Stopping.AwaitManage | service_process.go:178-184 | the manageMutex is awaited while others have it and may release the instance |
| Stopping.Kill | service_process.go:205-246 | a successful kill ends with the instance released, also when the process monitor released it first; a failed one changes nothing |
| Reservation.StopFrees | service_process.go:311-313 | a stop gives back exactly the victim's amounts |
| Reservation.StopUnregisters | service_process.go:314-319 | a stop takes exactly the victim out of the registry |
| Eviction.PicksArePrefix | resources.go:124-146 | picking the least recently used eligible service again and again yields a prefix of the LRU order |
| Eviction.PrefixIsShortest | resources.go:31-77 | with a shortage before every pick, the picks are the shortest prefix that frees enough, or all |
| Eviction.OrderExists | resources.go:138-144 | the LRU order exists when no two eligible services were used at the same time |
| Interference.OthersUndisturbed | resources.go:85-113 | what the other goroutines do in any stretch of a run is within what the methods allow for: what the goroutine relies on survives, and a name is registered as before or to an instance born in it |
| Lifecycle.StartService | service.go:72-212 | rejected exactly when the service is registered, and then nothing changes; it succeeds only if the command runs, the health check ends well and the service takes a connection, and alone with enough of everything it then does; on success its instance is ready; on failure the instance is released and unregistered unless a kill failed; alone, its share of the reserved amounts was returned exactly once |
| Lifecycle.Abort | service.go:135-168 | unlock, stop by name, return the share: whichever instance the stop finds, this start's own is released in the end, unless the kill failed |
| Lifecycle.FailSpawn | service.go:107-114 | a command that does not run returns the share and cleans up |
| Lifecycle.Refuse | service.go:92-101 | a refused reservation cleans up and returns no share |
| Lifecycle.Ready | service.go:170-210 | the share is returned, the instance is ready, the mutex is given back |
| HealthCheck.PerformHealthCheck | service.go:214-321 | no command is started at or after the deadline; at most timeout over interval, rounded up, are started; healthy if and only if the last run exited with 0, and all runs before it failed |
| Pipe.BufferedPipe.Write | connection.go:77-96 | in the state it last got the mutex in: refused if closed, blocked without room, appended otherwise; order, conservation and bound are kept |
| Pipe.BufferedPipe.Read | connection.go:120-135 | takes the oldest bytes, as many as are buffered and fit; without any, end of file only when the writer is done and everything accepted was read |
| Pipe.BufferedPipe.CloseWrite | connection.go:104-109 | sets the flag and nothing else |
| Pipe.BufferedPipe.CloseRead | connection.go:113-118 | sets the flag and nothing else |
| Pipe.NoWrap | connection.go:84 | the unsigned 64-bit sum of two slice lengths does not wrap, so the guard is the plain comparison |
| PipeMachine.NoSleepWithoutCause | connection.go:84-131 | a writer sleeps only without room on an open pipe, a reader only on an open pipe with nothing buffered and more to come |
| PipeMachine.NeverBothBlocked | connection.go:84-131 | a blocked reader and a blocked writer never coexist |
| PipeMachine.ConservedAndBounded | connection.go:93-133 | bytes read, then buffered, are the accepted writes in order; the backlog is at most the limit or the largest write |
| PipeMachine.EofIsEnd | connection.go:123-126 | end of file is reported only after `closeWrite` and with everything accepted read |
| PipeMachine.ReadsUnblockWriters | connection.go:132-133 | after as many reads that get the mutex on a non-empty pipe as bytes were buffered, and no write, no writer is blocked |
| PipeMachine.BacklogShrinks | connection.go:132-133 | the backlog is the measure: each of them shortens it |
| PipeMachine.ReadTakes | connection.go:132-133 | a read that gets the mutex on a non-empty pipe takes the oldest bytes, as many as are buffered and fit |
| PipeMachine.ReadFindsNone | connection.go:120-131 | one on an empty pipe takes nothing; it ends when no more can come and otherwise sleeps |
| PipeMachine.WriteDecides | connection.go:77-96 | a write that gets the mutex is refused when the read end is closed, sleeps while there is no room, and is appended as a whole otherwise |
| PipeMachine.ClosedRefuses | connection.go:113-118 | after `closeRead` nothing is accepted any more |
| Replay.RawCaptureConnection.Read | openai_api.go:48-58 | what is read is captured while capturing is on, in order |
| Replay.RawCaptureConnection.HandOver | openai_api.go:270-271 | what was captured is handed over and capturing stops |
| Replay.RawCaptureConnection.ResetConnectionBuffer | openai_api.go:208-217 | the buffer is empty and capturing is on |
| Replay.RawCaptureConnection.StopBuffering | openai_api.go:64-69 | the buffer is dropped and capturing is off |
| Replay.WholeRequest | openai_api.go:208-272 | in every run, the bytes to replay are the request the server has not served if and only if what was left at the last reset is the rest of the request then answered and the requests answered without a handler since; otherwise exactly the difference is missing or repeated in front |
| Replay.ResetDecides | openai_api.go:208-217 | when every later request has a handler, that is decided at the reset: what is left must be as long as the rest of the request being answered |
| Replay.FirstRequest | openai_api.go:219-272 | the first request of a connection is always replayed as it is |
| Replay.RequestComesFirst | connection.go:164-180 | in that case the request comes in front of everything sent to the service |
| Replay.PipelinedExample | openai_api.go:208-217 | two requests in one segment: nothing of the second is replayed |
| Replay.UnreadBodyExample | openai_api.go:166-175 | a handler that ends before the body has come: the body is replayed in front of the second request |
| Replay.BypassExample | openai_api.go:48-58 | a request that gets no handler is replayed in front of the next one |
| Replay.SentIsPrefix | connection.go:209-229 | at every step the bytes sent to the service are a prefix of those read since the last reset |
| Replay.NothingLost | connection.go:164-180 | while forwarding, sent, copied, buffered and held bytes are what was read since the last reset, in order |
| Replay.ReplayIsComplete | openai_api.go:266-272 | the replayed bytes are all that was read up to the handover, and what is read later follows them |
| LineWriter.ServiceLoggingWriter.Write | service_process.go:52-80 | logs the complete lines of the carried text and the chunk, and carries the rest |
| LineWriter.ServiceLoggingWriter.FinalFlush | service_process.go:28-39 | logs what is carried, if anything, and carries nothing |
| LineWriter.FindLowerIndexThatIsNotMinusOne | service_process.go:40-51 | the lower of the indices that exist, -1 if and only if neither does |
| LineWriter.Located | service_process.go:58-66 | the cut the writer makes is the end of the first line of the greedy split |
| LineTheorems.LogOutput | service_process.go:28-80 | a stream written in chunks and flushed logs what the specification says |
| LineTheorems.ChunkIndependent | service_process.go:52-80 | for every chunking, the non-empty lines and the flush are the maximal stretches without CR and LF; the carried buffer has neither |
| LineTheorems.ExactUnlessSplit | service_process.go:61-78 | the whole list is the greedy split of the stream if and only if no boundary cuts a CRLF; each cut adds one line |
| LineTheorems.SplitExample | service_process.go:61-78 | a concrete stream whose CRLF is cut and whose log has an extra empty line |
| LineTheorems.RunsKeepText | service_process.go:73-78 | the stretches put together are the stream without its CRs and LFs |

## Left out

- Shutdown (`interrupted`): its paths deliberately skip unlocks and releases.
- Sockets, HTTP, JSON, templates, process control, log text, the dashboard and the test server: they are outcomes of steps or parameters of methods.
- Configuration parsing and validation: a valid configuration is a precondition.
- The pokes and timers of the resource monitors: a monitor may run at any time, so nothing is claimed about when it does.
- The dial retries and their back-off: a dial succeeds or fails.
- Signals dropped behind a buffered one: the waiter wakes on the first, so nothing is claimed about the second.
- `channelMutex` as an object: a manageMutex is the goroutine that took its token.
- Reservation.ReserveResources: the loop has no bound of its own, so the method is given one for each thing that keeps it going: kills that fail, services that others start, wake-ups before the deadline, looks at a taken manageMutex. Each bound is arbitrary; `EvictionBound.dfy` and `Deadlock.dfy` have none.
- Reservation.Pursue: the same bounds, for one round.
- Reservation.Chase: the same bounds, for one round.
- Reservation.Evict: it looks at the victim's taken manageMutex a bounded number of times and then reports that it still waits.
- Stopping.StopService: it looks at a taken manageMutex a bounded number of times and then reports that it still waits; `Deadlock.dfy` has the wait without bound.
- Stopping.AwaitManage: the same bound.
- Lifecycle.StartService: its reservation and its stop have the bounds of `ReserveResources` and `StopService`.
- net/http, which reads the requests and drops unread bodies: it is the acts `Serve`, `Answer` and `Bypass` of `Replay.dfy`.
- Manager.ResourceManager.HandleStatus: the listen port and the service URL of each entry are copied from the configuration and not reported.
- Pipe.BufferedPipe.Write: waits for a bounded number of wake-ups; the machine of `PipeMachine.dfy` has no bound.
- Pipe.BufferedPipe.Read: waits for a bounded number of wake-ups; the machine of `PipeMachine.dfy` has no bound.
- Memory aliasing of slices (`append(w.buf, b...)`, `buffer.Bytes()`): texts and buffers are values.
