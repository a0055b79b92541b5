# Verification of the cratond control loop

`cratond` supervises the services of one machine: a single-writer state machine turns events
into commands, and a small executor carries the commands out and feeds their effects back.
This project models that loop together with the policies and data structures it rests on, and
proves what it keeps over whole runs. `dafny verify dfyconfig.toml` checks everything.

## How the model is built

- **Values and functions.** `Model`, `Schedule`, `Breaker`, `Lease`, `History`, `Graph`, `Recovery`,
  `BackupPolicy` and `Reducer` give the domain types, and for every operation a function that
  says what it does to a value of the daemon's state (`View`) and which commands it emits.
- **The daemon in its own form.** What the daemon does in place is a class with fields:
  `History.RingBuf`, `Lease.LeaseArbiter`, `DaemonState.State` (the reducer and its handlers),
  `Executor.Daemon` (the recursive executor), `Outbox.Outbox`, `Outbox.DedupCache` and
  `Notifier.NotifyConsumer`. `GraphBuild`, `Graph`, `Recovery` and `Disk` keep the worklists and
  loops as methods. Every method is proved against the function or protocol that specifies it, so
  the theorems about the functions are theorems about the methods.
- **Runs.** `Runtime.ExecOne` executes one command. `World` takes runs apart: an event is
  delivered when the command queue is empty, the executor takes one command off the queue, the
  process crashes and starts again on what is on disk. A process delivers the results of its startup
  probes first, once; the results of later probes come from executed probe commands only, as in
  `src/runtime.rs:503-546`. Events, clock readings, probe outcomes, job results and spawn failures are
  arbitrary; a clock reading below an earlier one counts as the earlier one.
  `World.ExecutorFlattens` proves that the recursive executor of the daemon does what these single
  steps do, so a cut between two steps is a cut of the real command list. `OutboxDelivery` does the
  same for the notifier.

## What is proved, in short

- **Backups** (`BackupScripts`, `BackupConsistency`, `BackupLifecycle`, `BackupFailures`, `CrashSafety`,
  `RecoveryScripts`, `LeaseSafety`, `LeaseProtection`): exactly when a backup starts and which services it stops;
  after every executed event memory and disk agree and a job is pending exactly
  while a run is active; only the pending completion moves the lifecycle; a run ends within three
  completions; one start per calendar date; a crash anywhere after the snapshot is persisted loses no
  service, and an interrupted recovery ends in the same state as an uninterrupted one and has
  unlocked the repository before it resets the phase; a lease is the
  run's own exactly if it was not refused, and a lease of its own keeps probes off the service.
- **Restarts** (`ProbeCycle`, `ServiceSteps`, `ServiceRuns`, `Maintenance`, `RestartPacing`, `RestartLimit`): the
  outcome of a probe cycle for every service, and exactly when it restarts one; an hour of maintenance; how the bounded history stands for an unbounded one; what an open
  breaker, the cooldown and the severity bound over a run; exactly when the limit per window holds.
- **Dependency graph** (`Graph`, `GraphBuild`): the build succeeds exactly on acyclic, closed
  relations; failures are classified into root causes and services blocked behind one.
- **Remediation** (`Remediation`, `RateLimit`): over a run, one record and its own acknowledgement per
  delivered request, and what each admitted one does; exactly when the 50-entry log limits as the whole log would, on logs and on runs.
- **Alerts** (`Outbox`, `OutboxDelivery`, `Notifier`): compaction against its closed form;
  at-least-once delivery with a crash between any two actions; what was sent and marked is not sent again;
  every eviction of an alert is reported
  by the process that did it.
- **Other events** (`Tasks`): due tasks in any combination, disk samples, startup results, shutdown.
- **Disk forecast** (`Disk`): the unique least-squares line, and exactly when there is a forecast.

Some claims one would expect are false of the code. Each is stated with the condition under which it holds
and a run on which it fails; `Rounds`, `RestartLimit`, `RateLimit` and `Witnesses` build such runs from a process
start, startup probes included: those of `Witnesses` for every configuration with a stop service and a schedule that
is due.

- A crash before the snapshot is persisted finds nothing to restore on disk, although services are already
  stopped (`src/reduce.rs:357-374`). `CrashSafety.InterruptedRecoveryIsExact` says which services stay down;
  `Witnesses.CutBeforeSnapshotLosesService` is a run on which a healthy service does, and the same run cut later, on
  which recovery starts it again.
- Leases of stop services that were not running are acquired but not released (`src/reduce.rs:421-430`).
  `LeaseSafety.LeasesAtRest` says which leases remain and whose they are; `Witnesses.LeaseOutlivesBackup` is a run
  that leaves one.
- A refused lease is not noticed, and the service is stopped all the same (`src/runtime.rs:488-491`).
  `LeaseSafety.StopsUnderLease` says under whose lease a service is stopped, `LeaseProtection.StartProtects` that a
  lease free at the start protects; on the run of `Witnesses.RefusedLeaseDoesNotProtect` a probe restarts a service
  while the backup that stopped it is active. That is no ordinary event: its two backups are due on two dates but
  start within 7200 seconds of monotonic time, and as the daily windows of a schedule lie more than 23 hours apart,
  this takes a wall clock that was set or a suspension that the monotonic clock did not count.
- A worker that fails to spawn leaves the run active until the process restarts (`src/runtime.rs:364-375`).
  `BackupLifecycle.FailedSpawnWedges` says so of every such state, and `Witnesses.FailedSpawnIsReached` reaches one.
- The limit on restarts per window is not what the breaker keeps, since an expired open breaker is not set again by
  a restart (`src/breaker.rs:41`). `RestartLimit.LimitHoldsExactly`: it holds on every run if and only if the window
  is shorter than the limit times the cooldown. The default and the example configuration (3 in 3600 seconds,
  60 seconds apart) do not meet that.
- A limit above 20 never trips a closed breaker (`src/state.rs:12`). `ServiceRuns.ClosedTripsExactly` gives the exact
  condition, `RestartLimit.LimitBeyondHistoryNeverTrips` a run on which the true count reaches the limit.
- Requests of an unlimited kind lift every rate limit, since the log forgets (`src/state.rs:16`).
  `RateLimit.VerdictsAgreeExactly` and `RateLimit.RateHoldsExactly`: the verdicts are those of the whole log, and the
  limits hold on every run, with at most k records of any kind in the window if and only if k is at most 50.
  `RateLimit.FloodLiftsLimits` is a run with 51: a Docker restart, fifty unlock requests and another Docker restart in
  one second are all granted, and likewise for the other limited actions.
- An alert whose id was last recorded as delivered, at the same instant or later, is forgotten by the collapse on
  load (`src/notify.rs:341-351`). `OutboxDelivery.StampDecides` gives the exact condition on the stamp,
  `OutboxDelivery.StaleStampForgets` what follows when it fails, `OutboxDelivery.EarlierStampForgets` a run.

## Model

| member | source | states |
|---|---|---|
| `History.RingBuf.constructor` | src/history.rs:24-31 | An empty buffer of a positive capacity |
| `History.RingBuf.Push` | src/history.rs:33-39 | A push leaves the newest items of the old contents and the new one, at most the capacity |
| `History.RingBuf.Clear` | src/history.rs:57-59 | Nothing is left |
| `History.PushedIsNewest` | src/history.rs:33-39 | A buffer fed item by item always holds the newest items ever pushed |
| `History.BoundedCountIsCapped` | src/state.rs:130-138 | With non-decreasing times the count in a window over the newest records is the true count, capped at the capacity |
| `Lease.LeaseArbiter.constructor` | src/lease.rs:32-37 | Nothing is held at first |
| `Lease.LeaseArbiter.Acquire` | src/lease.rs:39-78 | Refused exactly while another holder's lease is unexpired; otherwise the caller holds it; the result names the holder that remains or was evicted; no other resource moves |
| `Lease.LeaseArbiter.ForceRelease` | src/lease.rs:82-85 | Exactly the given resource is released, whoever holds it |
| `Graph.OrderedGraphIsAcyclic` | src/graph.rs:136-191 | An order with dependencies first leaves no cycle |
| `Graph.EntangledSetHasCycle` | src/graph.rs:181-188 | A non-empty set whose members each depend on a member contains a cycle |
| `Graph.RootCauseIsReached` | src/graph.rs:101-126 | The walk from an unhealthy service follows unhealthy dependencies and ends in a root cause |
| `Graph.ClassificationPartitions` | src/graph.rs:75-98 | Root causes and blocked services partition the unhealthy set; root causes are exactly those without an unhealthy direct dependency; each blocked service maps to a root cause at the end of a chain of failures |
| `Graph.FindRootCause` | src/graph.rs:101-126 | The walk terminates by depth in the order and its guard against cycles is never taken |
| `Graph.ClassifyFailures` | src/graph.rs:75-98 | The computed root causes and blocked map are those of the classification |
| `GraphBuild.DependentsMirrorDependencies` | src/graph.rs:153-162 | A service occurs among the dependents of another as often as the other among its dependencies |
| `GraphBuild.ReverseMap` | src/graph.rs:153-162 | The reverse map lists the dependents of every service |
| `GraphBuild.Release` | src/graph.rs:169-178 | Each degree falls by the number of released edges, the saturating subtraction never saturates, and exactly the services that reach zero are queued, once |
| `GraphBuild.OrderFront` | src/graph.rs:166-179 | One turn of the worklist keeps: ordered and queued services are distinct, dependencies are ordered first, every degree counts the dependencies left |
| `GraphBuild.TopologicalSort` | src/graph.rs:136-191 | Ok gives an order of every service once, after its dependencies; an error names a non-empty set whose members each depend on a member |
| `GraphBuild.CheckDependencies` | src/graph.rs:33-46 | The first dependency that is unknown or the service itself, and none exactly if all are known and other services |
| `GraphBuild.Build` | src/graph.rs:24-56 | Ok exactly when every dependency is a service and no chain of dependencies returns to its start; otherwise the error names the first bad dependency in configuration order, or a set of services each of which depends on another of it |
| `Recovery.CollectUnhealthy` | src/policy/recovery.rs:52-59 | The unhealthy services of the results |
| `Recovery.FindDockerRoot` | src/policy/recovery.rs:63-77 | Docker is to blame when two Docker services are root causes, or its virtual daemon is |
| `Recovery.DecisionIsVerdict` | src/policy/recovery.rs:79-100 | A decision for exactly the configured, tracked and probed services, and it answers the last result |
| `Recovery.Decide` | src/policy/recovery.rs:79-100 | The loop computes the decisions of the policy |
| `Recovery.Evaluate` | src/policy/recovery.rs:43-108 | The plan of a probe cycle: decisions over the classified failures, and whether Docker is restarted |
| `BackupPolicy.CrashCompensation` | src/policy/backup.rs:29-61 | Unlock, restart of the services the snapshot found running, and reset, by the persisted phase |
| `RecoveryScripts.RecoveryIsExact` | src/reduce.rs:935-973 | Phase by phase: the repository is unlocked first exactly if restic may have held it, exactly the services the snapshot found running are started under their units and in order, an unrecorded stop is reported, and then the phase is reset and an alert sent |
| `RecoveryScripts.UnlockedBeforeReset` | src/policy/backup.rs:37-39 | However often recovery is cut, a phase in which restic may have held the repository leaves the disk only after an executed unlock |
| `DaemonState.State.constructor` | src/state.rs:49-80 | The state a process starts with |
| `DaemonState.State.AllocCmdId` | src/state.rs:83-87 | Ids are issued upwards and nothing else moves |
| `DaemonState.State.HandleStartupProbes` | src/reduce.rs:106-147 | Startup results set statuses only: healthy, unhealthy, or blocked by a root cause |
| `DaemonState.State.HandleProbes` | src/reduce.rs:149-186 | A probe cycle as specified, commands in order |
| `DaemonState.State.ApplyDecisions` | src/reduce.rs:188-286 | Every decision applied in the order of the services |
| `DaemonState.State.StartBackup` | src/reduce.rs:318-380 | Nothing while the repository is leased; else the start script and the running phase |
| `DaemonState.State.FinalizeBackup` | src/reduce.rs:529-573 | Idle in memory and on disk, the repository released, the outcome reported |
| `DaemonState.State.HandleBackupFailure` | src/reduce.rs:478-527 | The failure counted, the services restored, the run finalized, an incident from the third failure on |
| `DaemonState.State.HandleBackupEffect` | src/reduce.rs:400-476 | What the end of each job does |
| `DaemonState.State.HandleEffectCompleted` | src/reduce.rs:384-398 | Only the pending id is accepted, once |
| `DaemonState.State.HandleStartupRecovery` | src/reduce.rs:935-973 | The compensation as commands, the phase reset, one alert |
| `DaemonState.State.HandleTick` | src/reduce.rs:57-104 | Every due task in order |
| `DaemonState.State.IsRateLimited` | src/reduce.rs:649-677 | Whether the log holds as many requests in the window as are allowed |
| `DaemonState.State.HandleRemediation` | src/reduce.rs:679-807 | A request checked, carried out and logged |
| `DaemonState.State.Reduce` | src/reduce.rs:29-55 | The reducer on every event, and nothing once shutting down |
| `Runtime.ProbesAreQuiet` | src/reduce.rs:149-186 | A probe cycle moves services only, emits no probe command, and never touches phases, leases or jobs |
| `Runtime.NestedCommandsAreQuiet` | src/runtime.rs:503-519 | Only a probe command re-enters the reducer, and what it emits never probes again |
| `Executor.Daemon.StartJob` | src/runtime.rs:334-376 | A job gets the next id; the pending id is cleared if the worker does not spawn |
| `Executor.Daemon.Perform` | src/runtime.rs:207-499 | The effect of each command on state, disk and services |
| `Executor.Daemon.ExecuteCommands` | src/runtime.rs:207-499 | The recursion terminates and has the meaning of executing the list in order, nested cycles first |
| `Executor.Daemon.ExecRunProbes` | src/runtime.rs:503-519 | A probe command reduces its results and executes what that emits |
| `World.ExecutorFlattens` | src/runtime.rs:207-519 | The recursive executor refines single steps on a queue, so it can be cut between any two commands |
| `BackupMoves.EventMoves` | src/reduce.rs:29-55 | Every event leaves the lifecycle alone, starts one run from Idle on a new day with the repository free, or completes the pending job; each with its script of lifecycle commands |
| `BackupMoves.TickMoves` | src/reduce.rs:57-104 | However many tasks are due, at most one backup starts |
| `BackupScripts.StartIsExact` | src/reduce.rs:318-380 | A backup start leases and stops exactly the services configured for it, each once, under its unit and in configuration order, between the persisted lock and the persisted snapshot of what was running |
| `BackupScripts.BackupStartsExactly` | src/policy/backup.rs:11-25 | A step of a run starts a backup if and only if its event asks for one, none is running, the repository is not leased, and the schedule is due |
| `BackupScripts.DueIsDueNow` | src/schedule.rs:92-129 | Due within five minutes from the hour and minute of the rule, on its weekday or on an odd day, unless run on this day of the month |
| `BackupScripts.BackupStopsExactly` | src/reduce.rs:341-367 | Once a step of a run starts a backup, its queue stops and leases exactly the services configured to be stopped, under their units |
| `BackupScripts.TriggerIsCarriedOut` | src/reduce.rs:728-731 | An HTTP trigger and an admitted request emit the same start script, exactly if a backup may start |
| `BackupScripts.RestoreIsExact` | src/reduce.rs:421-430 | Exactly the services found running are started again, under their units and in order, each released right after |
| `BackupScripts.CompletionReports` | src/reduce.rs:529-573 | The completion that ends a run, and no other, reports it, as done well exactly if its job succeeded |
| `BackupScripts.LifecycleRestores` | src/policy/backup.rs:78-134 | The lifecycle's lists to start and to verify hold exactly the services found running, in order and untried |
| `BackupRuns.ExecStep` | src/runtime.rs:207-499 | A command outside the lifecycle leaves the lifecycle as it is; the others take effect in order |
| `BackupConsistency.ConsistentStep` | src/runtime.rs:136-200 | Kept by every step: the queue brings the disk to the phase in memory, and an active run has exactly one job, queued, pending or not spawned |
| `BackupConsistency.ConsistentRun` | src/runtime.rs:45-200 | The same at every point of every run |
| `BackupLifecycle.EventsLeaveAgreement` | src/reduce.rs:384-476 | After every executed event the phase is Idle, ResticRunning, RetentionRunning or Verifying and equals the phase on disk; a job is pending, under an issued id, exactly when a run is active and its workers spawned |
| `BackupLifecycle.StrayCompletionIsIgnored` | src/reduce.rs:384-398 | At any later point of a run the completion of an id spent before, or of one not issued yet, leaves state, disk, leases and services as they are |
| `BackupLifecycle.FailedSpawnWedges` | src/runtime.rs:364-375 | After a failed spawn the run stays active and no backup starts until the process restarts |
| `BackupLifecycle.RunEndsInRankCompletions` | src/reduce.rs:409-473 | Every accepted completion lowers the rank of the phase, so a run is Idle within three |
| `BackupLifecycle.TransitionsFollowLifecycle` | src/policy/backup.rs:78-134 | The reducer's transitions are the lifecycle iterated 4, 3, 1 and 1 times with the same run, snapshots and verify flag |
| `BackupLifecycle.OneBackupPerDate` | src/schedule.rs:92-129 | Under a calendar that never goes back, one process starts at most one backup per date, whoever asks |
| `BackupLifecycle.BackupStartsAlone` | src/policy/backup.rs:11-25 | A backup starts only from Idle in memory and on disk, with no job pending |
| `BackupFailures.CountIsFailuresInARow` | src/reduce.rs:478-527 | The failure count is the number of failed main jobs and retentions since a main job last succeeded; the completion that brings it to three or more, and no other, writes an incident |
| `CrashSafety.CrashSafeStep` | src/reduce.rs:318-380 | Kept by every step: the queue starts only services the disk covers, stops services only while nothing is promised, and drops a snapshot only when its services are up |
| `CrashSafety.PromisesAreKept` | src/reduce.rs:409-513 | At every point of every run with crashes, the services the last persisted snapshot found running are recorded on disk or up; only such services are started; past the main job they are up |
| `CrashSafety.InterruptedRecoveryIsExact` | src/policy/backup.rs:29-61 | Recovery, cut any number of times before one complete run, ends Idle with exactly those services down that were down at the crash and that the disk did not cover |
| `Witnesses.CutBeforeSnapshotLosesService` | src/reduce.rs:357-374 | A run from a process start, cut after the first stop, on which a service found healthy is down and stays down after recovery; the same run cut once the snapshot is persisted, on which recovery starts it |
| `Witnesses.FailedSpawnIsReached` | src/runtime.rs:364-375 | A run from a process start to a backup that is active with nothing pending, and stays so on every later run of the process |
| `Witnesses.LeaseOutlivesBackup` | src/reduce.rs:421-430 | A run from a process start to rest with the lease of a stop service, found unhealthy, still held |
| `Witnesses.RefusedLeaseDoesNotProtect` | src/runtime.rs:488-491 | Two backups on two dates 7199 monotonic seconds apart: the second is refused the lease, stops the service, and a second later a probe cycle restarts it |
| `ProbeCycle.EachServiceAlone` | src/reduce.rs:188-286 | Every service is treated once, by its own decision, whatever the others get |
| `ProbeCycle.CycleIsExact` | src/policy/recovery.rs:110-172 | The outcome of a cycle for every service is that of the first reason that applies, written out over results, configuration, clock and leases: healthy, maintenance, a failing dependency, Docker, the breaker, the cooldown, no attempt left, a lease, or a restart |
| `ProbeCycle.BlamedExactly` | src/policy/recovery.rs:63-77 | Docker is blamed exactly if two Docker services fail by themselves or its virtual service does |
| `ProbeCycle.CycleReports` | src/reduce.rs:188-313 | Incidents for exactly the critical services given up, one alert for those given up, one naming in order those well again, and the Docker restart exactly if Docker is blamed |
| `ProbeCycle.CommandsInOrder` | src/reduce.rs:149-186 | The commands of a cycle in order: restarts and incidents service by service, the Docker restart, the alerts, the closing two |
| `ProbeCycle.RestartedExactlyWhen` | src/policy/recovery.rs:110-172 | A cycle restarts a service, once, if and only if it probed unhealthy, no direct dependency is unhealthy, it is out of maintenance, Docker is not to blame, the breaker allows it, the cooldown is over, an attempt is left and its lease is free |
| `ProbeCycle.RestartsDoNotMeet` | src/policy/recovery.rs:43-108 | No two restarted services share a dependency edge; when Docker is to blame the daemon is restarted and none of its services |
| `ProbeCycle.BlockedNamesItsRoot` | src/graph.rs:75-126 | A blocked service changes in its status only, which names a root cause behind a chain of failures |
| `ServiceSteps.ProbesCoverServices` | src/runtime.rs:698-749 | Probing gives each configured service on the list its own verdict, and only those |
| `ServiceSteps.ProbeCommandIsExact` | src/runtime.rs:503-519 | The same outcomes for an executed probe command; a healthy probe closes a half-open breaker |
| `ServiceSteps.RecoveryTickRestarts` | src/reduce.rs:57-104 | From a recovery tick to the restarts: all services are probed, and the restarts queued are exactly those the policy allows for the services found unhealthy |
| `ServiceSteps.ServiceStep` | src/reduce.rs:188-286 | Every step moves each service in one of four ways, emits exactly the restarts of that move, and decides only what the policy has checked |
| `Maintenance.MaintenanceLastsAnHour` | src/reduce.rs:742-755 | After an admitted request for maintenance no probe restarts the service for 3600 seconds, on every run without another such request |
| `Maintenance.MaintenanceEnds` | src/state.rs:123-127 | Until its instant maintenance keeps a failing service as it is; from then on the outcome of a cycle is as without it |
| `ServiceRuns.HistoryRefinesLog` | src/reduce.rs:233-247 | The restart history holds the newest 20 of all probe-driven restarts since the last ClearFlapping, in order of time |
| `ServiceRuns.WindowCountIsCapped` | src/state.rs:130-138 | The restarts counted in a window are the true number, capped at 20 |
| `ServiceRuns.ClosedTripsExactly` | src/breaker.rs:16-43 | A restart trips a closed breaker exactly when the unbounded log reaches the limit in the window, for limits up to 20, and never for greater ones |
| `ServiceRuns.OpenHolds` | src/breaker.rs:71-80 | An open breaker stays as it is and nothing is restarted before its time, but for requests to clear it |
| `ServiceRuns.TripStopsRestarts` | src/breaker.rs:16-80 | After a trip no probe-driven restart before the breaker's cooldown is over, whatever else happens |
| `ServiceRuns.TripCountIsExact` | src/breaker.rs:16-66 | The trip count is one more than the moves from HalfOpen to Open since the breaker was closed |
| `RestartPacing.RestartsArePaced` | src/policy/recovery.rs:141-151 | Consecutive probe-driven restarts are a cooldown apart |
| `RestartPacing.RestartsAreSparse` | src/policy/recovery.rs:141-151 | In an interval of length L at most L / cooldown + 1 of them |
| `RestartPacing.AttemptsAreBounded` | src/model.rs:80-86 | Between outcomes other than Recovering at most as many restarts as the severity allows |
| `RestartLimit.LimitHoldsExactly` | src/breaker.rs:16-43 | On every run of a process no window holds more probe-driven restarts than the limit, if and only if the window is shorter than the limit times the cooldown |
| `RestartLimit.LimitCanBeExceeded` | src/breaker.rs:41-41 | Otherwise a run from a process start has one restart too many in a window |
| `RestartLimit.LimitBeyondHistoryNeverTrips` | src/state.rs:12-12 | On a run with a limit above 20 and one restart per cooldown, the true count reaches the limit and the breaker is closed still |
| `Rounds.OneRestart` | src/policy/recovery.rs:110-172 | From any state between events in which breaker and cooldown let a service be tried, probe cycles over all services in which it fails alone restart it once, whatever its attempts, its kind and its dependencies |
| `Rounds.StartsUp` | src/runtime.rs:521-546 | After the startup probes of a fresh process a service is Healthy exactly if it probed healthy, and nothing but statuses has changed |
| `LeaseSafety.LeasesStep` | src/reduce.rs:357-367 | Kept by every step: what is held once the queue is executed, whose it is, and that stops happen under leases |
| `LeaseSafety.LeasesAtRest` | src/reduce.rs:497-510 | Back in Idle the repository is free, and of the stop services exactly those not found running are still held, by the run if and only if it was not refused the lease when it asked |
| `LeaseSafety.StopsUnderLease` | src/reduce.rs:357-367 | A backup stops a service only after asking for its lease and while it is held, by the run if and only if it was not refused |
| `LeaseProtection.LeaseStands` | src/lease.rs:39-95 | A granted lease stays with its holder until released or 7200 seconds old, and until then no probe restarts the service |
| `LeaseProtection.StartProtects` | src/reduce.rs:318-380 | A backup that starts while the lease of a stop service is free gets it before the stop, and from then on no probe restarts the service before the release or 7200 seconds after the start |
| `Remediation.RequestIsAcknowledged` | src/reduce.rs:679-807 | Every request appends its own record on every path; the acknowledgement is about that record; a refused one emits nothing and changes only the log |
| `Remediation.RequestIsCarriedOut` | src/reduce.rs:696-790 | What each admitted request emits and what it changes in its target, and in nothing else |
| `Remediation.RequestedRestartIsDone` | src/reduce.rs:697-718 | On a run, a delivered request to restart a configured service queues that restart, and once it is executed the service is up |
| `Remediation.EveryRequestIsAnswered` | src/runtime.rs:150-180 | Over every run each delivered request leaves one record in the unbounded log, about itself, and is acknowledged by that record |
| `Remediation.BoundedVerdictIsTrue` | src/reduce.rs:649-677 | With at most 50 records of any kind in the window the bounded log limits as the whole log would |
| `Remediation.LogRefinesRequests` | src/reduce.rs:791-807 | Over a run the log is the newest 50 of all requests answered, in order of time, and only admitted ones are not rejected |
| `Remediation.RequestsAreLimited` | src/reduce.rs:649-677 | Under that condition at most 3, 1, 1 and 5 requests per action and target get through in any window |
| `RateLimit.VerdictsAgreeExactly` | src/reduce.rs:649-677 | On all ordered logs with at most k records of any kind in the window the bounded log gives the verdict of the whole one, if and only if k is at most 50 |
| `RateLimit.RateHoldsExactly` | src/reduce.rs:649-677 | On all runs of a process with at most k records of any kind in the window before each request for an action, no window holds more granted ones than the limit, if and only if k is at most 50 or the request is always refused for its target |
| `RateLimit.FloodLiftsLimits` | src/state.rs:16-16 | A run from a process start with 51 records in the window on which one request more than the limit is granted |
| `Outbox.SortIsStable` | src/notify.rs:379-379 | Sorting keeps the order of entries created at one instant |
| `Outbox.DropNext` | src/notify.rs:383-384 | Removing the first delivered entry is dropping one more of the oldest delivered ones |
| `Outbox.CompactionEvictsOldest` | src/notify.rs:370-397 | Exactly the maximum is kept; undelivered entries go only if there are more than that many, oldest first, and delivered ones oldest first before them |
| `Outbox.Outbox.CompactIfNeeded` | src/notify.rs:373-397 | The loop computes the closed form and reports a loss exactly when more than the maximum were undelivered |
| `Outbox.LatestIsNewest` | src/notify.rs:341-351 | The collapse keeps a newest entry of every id |
| `Outbox.AppendSurvivesCollapse` | src/notify.rs:341-351 | An appended entry survives the collapse if and only if it is strictly newer than every other entry of its id |
| `Outbox.MarkedIsDelivered` | src/notify.rs:364-368 | Marking makes the first entry of the id delivered and changes nothing else |
| `Outbox.MarkedOwes` | src/notify.rs:364-368 | After marking, the id is owing exactly if it was and its first entry is older than its latest |
| `Outbox.CompactionKeepsOwing` | src/notify.rs:370-397 | Unless undelivered entries are lost, an id whose latest entry is undelivered stays so through sorting and eviction |
| `Outbox.LoadKeepsOwing` | src/notify.rs:307-358 | An id's latest entry is undelivered after a load exactly if it was in the file |
| `Outbox.Outbox.Load` | src/notify.rs:307-358 | One entry per id, the latest, ordered by creation time |
| `Outbox.Outbox.Append` | src/notify.rs:360-362 | The entry goes to the end |
| `Outbox.Outbox.MarkDelivered` | src/notify.rs:364-368 | The first entry of the id is marked |
| `Outbox.DedupCache.IsDuplicate` | src/notify.rs:542-547 | Expired keys go, and a key still unexpired is a duplicate |
| `Outbox.DedupCache.Record` | src/notify.rs:549-551 | A sent key expires after the time to live |
| `OutboxDelivery.NothingIsForgotten` | src/notify.rs:163-295 | Over every run with crashes between any two actions, on which every appended alert is new, owed already or stamped later than the latest entry of its id: an alert whose append was persisted was sent since, or its latest entry in file and memory is undelivered, or it was evicted and an overflow reported |
| `OutboxDelivery.LossIsReported` | src/notify.rs:373-397 | Over every run each evicted alert was taken by one append, and from then on until it crashes that very process reports an overflow |
| `OutboxDelivery.SentIsSettled` | src/notify.rs:252-283 | After a successful send and its persisted mark the alert is owing exactly if an older entry of its id was marked instead; if not, the next start does not send it; no other alert is touched |
| `OutboxDelivery.RestartSettles` | src/notify.rs:173-219 | A restart whose sends succeed leaves nothing owing in memory or on disk, and nothing for the next start to send |
| `OutboxDelivery.ReplaySkipsWhatWasSent` | src/notify.rs:188-192 | A replay skips an alert exactly if this process sent it less than the time to live ago, and after a start that never happens |
| `OutboxDelivery.OutboxHolds256` | src/notify.rs:237-250 | An accepted alert is appended, and eviction starts above 256 entries |
| `OutboxDelivery.TriedOncePerDelay` | src/notify.rs:252-276 | A persisted alert is tried once per configured delay until it is sent, then given up |
| `OutboxDelivery.StampDecides` | src/notify.rs:237-250 | With room in the outbox, that condition on the stamp is exact: the alert is remembered once persisted if and only if it holds |
| `OutboxDelivery.StaleStampForgets` | src/notify.rs:341-351 | If it does not hold, the sends fail and the process crashes, the alert is owed still and the next start does not send it |
| `OutboxDelivery.SuppressedWasSent` | src/notify.rs:230-234 | An alert is suppressed only if one of its id was sent less than the time to live ago |
| `OutboxDelivery.SentIsSuppressed` | src/notify.rs:542-551 | An alert this process sent less than the time to live ago is suppressed |
| `OutboxDelivery.RestartClearsDebts` | src/notify.rs:173-219 | After a crash at any point a restart whose sends succeed leaves nothing owed but what a reported overflow took |
| `OutboxDelivery.EarlierStampForgets` | src/notify.rs:341-351 | A run from a start, with the stamp of a clock set back, on which that happens |
| `Notifier.NotifyConsumer.constructor` | src/notify.rs:163-179 | A start, first or after a crash with alerts owed, loads the file and is about to replay what it finds undelivered |
| `Notifier.NotifyConsumer.HandleAlert` | src/notify.rs:222-295 | One pass through the loop is a run of the protocol that begins with the alert's arrival and comes to wait again |
| `Notifier.NotifyConsumer.ReplayUndelivered` | src/notify.rs:173-219 | The replay is a run of the protocol that comes to wait |
| `Tasks.TasksAreExact` | src/reduce.rs:57-104 | However due tasks are combined, each leaves its own command and its own day, and no other task does |
| `Tasks.TasksCompose` | src/reduce.rs:63-101 | Due tasks are handled one after the other, and their commands follow in that order |
| `Tasks.DiskSampleIsExact` | src/reduce.rs:811-868 | A hard cleanup and alert exactly from the critical threshold on, mild ones exactly between the thresholds |
| `Tasks.StartupIsExact` | src/reduce.rs:106-147 | Startup results set each status by the last result: healthy, blocked behind a failure by itself, or unhealthy once |
| `Tasks.StartIsBlank` | src/state.rs:49-80 | What a process starts with: unknown services, closed breakers, the loaded maintenance, and nothing held, logged or counted |
| `Tasks.ShutdownEndsRun` | src/runtime.rs:173-177 | After a shutdown signal the process executes one command and then neither delivers nor changes anything |
| `Tasks.ShutdownIsFinal` | src/runtime.rs:263-266 | Once a shutdown command is executed no event is delivered any more |
| `Tasks.ReloadIsIgnored` | src/reduce.rs:50-50 | A reload signal changes nothing and emits nothing |
| `Tasks.TriggerIsScheduled` | src/reduce.rs:610-637 | A trigger, and nothing else, is acknowledged as scheduled, for its own task; exactly a request without a record is reported as missing one |
| `Disk.LineIsBest` | src/policy/disk.rs:64-86 | The line through the means with slope num / den has a smaller squared residual than every other line |
| `Disk.SpreadIsLarge` | src/policy/disk.rs:72-83 | Three or more samples at whole seconds, not all at one, spread by at least (2/3)/3600², far above the degeneracy threshold |
| `Disk.Predict` | src/policy/disk.rs:53-111 | A forecast exactly from three samples not all of one instant; it follows the unique least-squares line, with a coefficient of determination between 0 and 1 |
| `Disk.ForecastIsOnLine` | src/policy/disk.rs:101-111 | The forecast lies between 0 and 100 and is the value of the line there, or the nearer bound |
| `Disk.ExactLineIsFound` | src/policy/disk.rs:53-111 | Samples on a line are forecast along that line, with coefficient 1 unless they are flat |

## Left out

- HTTP server, command line, signal handling, logging, systemd notification, snapshot JSON and the texts of alerts: rendering and plumbing.
- Subprocesses, probes, statfs and package checks: their answers are inputs of the model; a start or stop sets a flag.
- Executor.Daemon.Perform: leaves out failed starts, stops and persists and the degraded reasons they record, because they are answers of the system; the theorems are about runs on which starts, stops and persists succeed.
- Failures of persisting the maintenance file or the outbox: a persist is atomic and succeeds.
- Configuration parsing: unique service ids are a precondition, a schedule string is an optional rule, and the services are iterated in an arbitrary fixed order.
- The persisted maintenance file: what a start loads from it is an arbitrary input of the crash step.
- Fields of the state that only the snapshot shows (recovery and backup history, degraded reasons, disk samples, flags of pending updates).
- Machine integers: naturals are unbounded, so additions that would overflow a 64-bit or 32-bit counter are not modelled.
- A run is named by the number of its start second and not by the text made of it; an alert is named by its digest, taken as injective.
- The completion the executor sends itself when a worker fails to spawn: it is one of the arbitrary later events.
- The bounded restart history inside a service's state is a value (`Pushed`), not a `RingBuf` object; `History.RingBuf.Push` is proved to compute the same.
- Remediation restarts check no lease and no breaker (`src/reduce.rs:712-716`); the restart theorems are about probe-driven restarts only.
- The bounded channel of the notifier: an alert dropped before it is received is outside the delivery theorem.
- The delays between delivery attempts and the counters of the notifier's health.
- Floating point: `Disk` computes over the reals and stops before the final rounding.
- The texts of the daily summary and of coalesced alerts, and the update checks themselves.
