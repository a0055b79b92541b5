/** Runs from a process start on which an expected property fails: for every configuration
    with a stop service and a schedule that is due. */
module Witnesses {
  import opened Model
  import opened Wrappers
  import opened Schedule
  import opened Lease
  import opened Graph
  import opened Reducer
  import opened Runtime
  import opened World
  import opened BackupMoves
  import opened BackupConsistency
  import opened BackupLifecycle
  import opened CrashSafety
  import opened LeaseSafety
  import opened LeaseProtection
  import opened ServiceRuns
  import opened Rounds

  // ---- Executing a backup start ----

  /** No command of the list starts the service. */
  ghost predicate NoStarts(queue: seq<Command>, id: ServiceId) {
    forall c :: c in queue ==> !(c.RestartService? && c.id == id) && !(c.StartService? && c.id == id)
  }

  lemma {:induction false} ExecutionStops(w: World, r: Reading, n: nat, cfg: Config, g: BuiltGraph, id: ServiceId)
    requires n <= |w.queue| && Plain(w.queue) && r.ctx.mono == 0 && NoStarts(w.queue, id)
    requires id in w.m.stopped || exists c :: c in w.queue[..n] && c.StopService? && c.id == id
    ensures id in Run(w, Execution(r, n), cfg, g).m.stopped
  {
    hide Step;
    if n == 0 {
      assert Execution(r, 0) == [];
    } else {
      var before, c := Run(w, Execution(r, n - 1), cfg, g), w.queue[n - 1];
      ExecuteSome(w, r, n - 1, cfg, g);
      assert Execution(r, n)[..n - 1] == Execution(r, n - 1);
      assert w.queue[..n] == w.queue[..n - 1] + [c] && c in w.queue;
      PlainExec(before, r, cfg, g);
      if !(c.StopService? && c.id == id) {
        ExecutionStops(w, r, n - 1, cfg, g, id);
      }
    }
  }

  // ---- A backup starts ----

  ghost predicate MayStart(w: World, cfg: Config, now: nat, wall: WallClock) {
    && w.queue == [] && w.observed && !w.m.view.shuttingDown && w.m.view.phase.Idle?
    && BackupRepo !in w.m.view.held
    && w.m.clock <= now && cfg.schedule.Some? && IsDue(cfg.schedule.value, wall, w.m.view.lastBackupDay)
  }

  function Trigger(now: nat, wall: WallClock): Action {
    Deliver(HttpCommand(CommandRequest.Trigger(TaskKind.Backup)), Ctx(now, wall))
  }

  function StartQueue(entries: seq<ServiceEntry>, run: RunId, pre: seq<ServiceSnapshot>): seq<Command> {
    [AcquireLease(BackupRepo, run), PersistBackupState(Locked(run)), ResticUnlock]
    + StopCommands(entries, run)
    + [PersistBackupState(ResticRunning(run, pre)), ResticBackup]
  }

  ghost predicate Started(w: World, w1: World, cfg: Config, now: nat, wall: WallClock) {
    var entries := StopEntries(cfg.services);
    var pre := Snapshots(entries, w.m.view.services);
    && w1.m.view == w.m.view.(phase := ResticRunning(now, pre), lastBackupDay := Some(wall.day))
    && w1.queue == StartQueue(entries, now, pre)
    && w1.m == w.m.(view := w1.m.view, clock := now)
    && w1.lastRun == Some(BackupRun(now, pre)) && w1.starts == w.starts + [wall] && w1.observed
  }

  lemma Begin(w: World, cfg: Config, g: BuiltGraph, now: nat, wall: WallClock)
    requires MayStart(w, cfg, now, wall)
    ensures Started(w, Step(w, Trigger(now, wall), cfg, g), cfg, now, wall)
  {
    hide HandleProbes, HandleRemediation, HandleEffect, Observe, IsDue, StopCommands, StopEntries, Snapshots;
    var v, ctx := w.m.view, At(w.m.clock, Ctx(now, wall));
    var due := [TaskKind.Backup];
    assert due[..0] == [];
    assert HandleTick(v, [], cfg, ctx) == Out(v, []);
    assert HandleTick(v, due, cfg, ctx) == RunTask(v, TaskKind.Backup, cfg, ctx);
  }

  lemma {:induction false} StopsBegin(entries: seq<ServiceEntry>, run: RunId)
    requires entries != []
    ensures var k := StopCommands(entries, run);
            |k| >= 2 && k[0] == AcquireLease(Service(entries[0].id), run)
            && k[1] == StopService(entries[0].id, entries[0].unit, ForBackup)
  {
    if |entries| == 1 {
      assert entries[..0] == [];
    } else {
      StopsBegin(entries[..|entries| - 1], run);
    }
  }

  lemma StartQueueIsPlain(entries: seq<ServiceEntry>, run: RunId, pre: seq<ServiceSnapshot>, id: ServiceId)
    ensures var k := StartQueue(entries, run, pre);
            Plain(k) && NoStarts(k, id) && ResticBackup in k && forall c :: c in k ==> !c.ReleaseLease?
  {
    hide StopCommands;
    StopsStartNothing(entries, run);
    var k := StartQueue(entries, run, pre);
    assert k[|k| - 1] == ResticBackup;
  }

  /** A process that has made its startup probes and may start a backup. */
  lemma UpMayStart(cfg: Config, g: BuiltGraph, healthy: set<ServiceId>, wall: WallClock) returns (up: seq<Action>)
    requires cfg.Valid() && cfg.schedule.Some? && IsDue(cfg.schedule.value, wall, None)
    ensures NoCrash(up) && Up(cfg, healthy, Run(Fresh(cfg), up, cfg, g))
    ensures MayStart(Run(Fresh(cfg), up, cfg, g), cfg, 0, wall)
  {
    hide Step, Boot, IsDue;
    up := [Startup(cfg, healthy)];
    StartsUp(cfg, g, healthy);
    RunOne(Fresh(cfg), Startup(cfg, healthy), cfg, g);
  }

  lemma FirstSnapshot(entries: seq<ServiceEntry>, services: map<ServiceId, SvcState>)
    requires entries != []
    ensures SnapshotOf(entries[0], services) in Snapshots(entries, services)
  {
    assert Snapshots(entries, services)[0] == SnapshotOf(entries[0], services);
  }

  /** A started backup, executed to the end. */
  lemma Executed(w: World, r: Reading, cfg: Config, g: BuiltGraph, now: nat, wall: WallClock)
    returns (acts: seq<Action>)
    requires MayStart(w, cfg, now, wall) && r.ctx.mono == 0
    ensures NoCrash(acts)
    ensures var w1, w2 := Step(w, Trigger(now, wall), cfg, g), Run(w, acts, cfg, g);
            && Started(w, w1, cfg, now, wall) && acts == [Trigger(now, wall)] + Execution(r, |w1.queue|)
            && w2 == Run(w1, Execution(r, |w1.queue|), cfg, g)
            && SameRun(w1, w2) && w2.queue == [] && w2.m.spawnFailed == (w.m.spawnFailed || !r.spawnOk)
  {
    hide Step, Run, StopEntries, StopCommands, IsDue, Snapshots;
    Begin(w, cfg, g, now, wall);
    var w1 := Step(w, Trigger(now, wall), cfg, g);
    StartQueueIsPlain(StopEntries(cfg.services), now, w1.m.view.phase.pre, "");
    ExecuteSome(w1, r, |w1.queue|, cfg, g);
    assert w1.queue[..|w1.queue|] == w1.queue;
    acts := [Trigger(now, wall)] + Execution(r, |w1.queue|);
    RunOne(w, Trigger(now, wall), cfg, g);
    RunAppend(w, [Trigger(now, wall)], Execution(r, |w1.queue|), cfg, g);
  }

  // ---- A crash before the snapshot is persisted ----

  /** A crash, and the recovery of the next process executed to the end. */
  lemma Recover(cut: World, cfg: Config, g: BuiltGraph) returns (recovery: seq<Action>)
    ensures CrashesAndExecs(recovery) && recovery != [] && recovery[0].Crash?
    ensures var end := Run(cut, recovery, cfg, g);
            end.queue == [] && end.m.disk == Idle && end.m.stopped == cut.m.stopped - Covered(cut.m.disk)
  {
    hide Step, Run, Boot, Covered, StoppedAfter, DiskAfter;
    var crash := Action.Crash(Ctx(0, NOON), map[]);
    var r := Step(cut, crash, cfg, g);
    InterruptedRecoveryIsExact(cut, crash, [], cfg, g);
    RunNothing(r, cfg, g);
    ExecuteSome(r, QUIETLY, |r.queue|, cfg, g);
    var rest := Execution(QUIETLY, |r.queue|);
    recovery := [crash] + rest;
    RunOne(cut, crash, cfg, g);
    RunAppend(cut, [crash], rest, cfg, g);
    InterruptedRecoveryIsExact(cut, crash, rest, cfg, g);
  }

  lemma RunNothing(w: World, cfg: Config, g: BuiltGraph)
    ensures Run(w, [], cfg, g) == w
  {
  }

  lemma LockAndStop(w: World, entries: seq<ServiceEntry>, pre: seq<ServiceSnapshot>)
    requires entries != [] && w.queue == StartQueue(entries, 0, pre)
    ensures |w.queue| >= 5 && DiskAfter(w.m.disk, w.queue[..5]) == Locked(0)
    ensures exists c :: c in w.queue[..5] && c.StopService? && c.id == entries[0].id
    ensures exists c :: c in w.queue[..|w.queue|] && c.StopService? && c.id == entries[0].id
  {
    hide StopCommands, DiskAfter;
    StopsBegin(entries, 0);
    var stop := StopService(entries[0].id, entries[0].unit, ForBackup);
    assert w.queue[..5] ==
           [AcquireLease(BackupRepo, 0), PersistBackupState(Locked(0)), ResticUnlock,
            AcquireLease(Service(entries[0].id), 0), stop];
    assert w.queue[..5][4] == stop == w.queue[..|w.queue|][4];
    LockedFirst(w.m.disk, w.queue[..5], 0);
  }

  lemma LockedFirst(disk: BackupPhase, k: seq<Command>, run: RunId)
    requires |k| == 5 && k[1] == PersistBackupState(Locked(run))
    requires forall i :: 2 <= i < 5 ==> !k[i].PersistBackupState? && !IsJob(k[i])
    ensures DiskAfter(disk, k) == Locked(run)
  {
    assert k == k[..2] + k[2..];
    SummaryAppend(disk, k[..2], k[2..]);
    SummaryOfOthers(Locked(run), k[2..]);
    assert k[..2] == [k[0]] + [k[1]];
    SummaryAppend(disk, [k[0]], [k[1]]);
    DiskAfterOne(DiskAfter(disk, [k[0]]), k[1]);
  }

  /** A backup of services found healthy, executed up to its first stop, and to the end of
      its start: the same service is down either way, and only the second persisted that it
      was running. */
  lemma StopsAHealthyService(cfg: Config, g: BuiltGraph, wall: WallClock)
    returns (early: seq<Action>, late: seq<Action>)
    requires cfg.Valid() && StopEntries(cfg.services) != []
    requires cfg.schedule.Some? && IsDue(cfg.schedule.value, wall, None)
    ensures NoCrash(late) && early <= late
    ensures var id := StopEntries(cfg.services)[0].id;
            var w, w' := Daemon(Idle, {}, 0, map[], early, cfg, g), Daemon(Idle, {}, 0, map[], late, cfg, g);
            && id in w.m.stopped && w.m.disk.Locked? && id in w.m.view.services && w.m.view.services[id].status.Healthy?
            && id in w'.m.stopped && id in Covered(w'.m.disk)
  {
    hide Step, Run, Boot, StopEntries, StopCommands, IsDue, Snapshots, Consistent;
    var entries := StopEntries(cfg.services);
    var e := entries[0];
    StopEntriesAreUnique(cfg.services);
    var up := UpMayStart(cfg, g, cfg.Ids(), wall);
    var w := Run(Fresh(cfg), up, cfg, g);
    var begun := Executed(w, QUIETLY, cfg, g, 0, wall);
    var w1 := Step(w, Trigger(0, wall), cfg, g);
    var pre := w1.m.view.phase.pre;
    StartQueueIsPlain(entries, 0, pre, e.id);
    LockAndStop(w1, entries, pre);
    FirstSnapshot(entries, w.m.view.services);
    ExecuteSome(w1, QUIETLY, 5, cfg, g);
    ExecutionStops(w1, QUIETLY, 5, cfg, g, e.id);
    ExecutionStops(w1, QUIETLY, |w1.queue|, cfg, g, e.id);
    early := up + ([Trigger(0, wall)] + Execution(QUIETLY, 5));
    late := up + begun;
    RunOne(w, Trigger(0, wall), cfg, g);
    RunAppend(w, [Trigger(0, wall)], Execution(QUIETLY, 5), cfg, g);
    RunAppend(Fresh(cfg), up, [Trigger(0, wall)] + Execution(QUIETLY, 5), cfg, g);
    RunAppend(Fresh(cfg), up, begun, cfg, g);
    EventsLeaveAgreement(Idle, {}, 0, map[], late, cfg, g);
  }

  /** A backup cut after the first stop and before the snapshot is persisted: only the lock
      is on disk, recovery finds nothing to restore, and the service, healthy before, stays
      down. Cut once the snapshot is persisted, recovery starts it again. */
  lemma CutBeforeSnapshotLosesService(cfg: Config, g: BuiltGraph, wall: WallClock)
    returns (early: seq<Action>, late: seq<Action>, recovery: seq<Action>, restore: seq<Action>)
    requires cfg.Valid() && StopEntries(cfg.services) != []
    requires cfg.schedule.Some? && IsDue(cfg.schedule.value, wall, None)
    ensures NoCrash(late) && early <= late
    ensures CrashesAndExecs(recovery) && recovery != [] && recovery[0].Crash?
    ensures CrashesAndExecs(restore) && restore != [] && restore[0].Crash?
    ensures var id := StopEntries(cfg.services)[0].id;
            var cut, whole := Daemon(Idle, {}, 0, map[], early, cfg, g), Daemon(Idle, {}, 0, map[], late, cfg, g);
            var lost, kept := Run(cut, recovery, cfg, g), Run(whole, restore, cfg, g);
            && id in cut.m.stopped && id in whole.m.stopped
            && id in cut.m.view.services && cut.m.view.services[id].status.Healthy?
            && lost.queue == [] && lost.m.disk == Idle && id in lost.m.stopped
            && kept.queue == [] && kept.m.disk == Idle && id !in kept.m.stopped
  {
    hide Daemon, Run, StopEntries, IsDue;
    early, late := StopsAHealthyService(cfg, g, wall);
    recovery := Recover(Daemon(Idle, {}, 0, map[], early, cfg, g), cfg, g);
    restore := Recover(Daemon(Idle, {}, 0, map[], late, cfg, g), cfg, g);
  }

  // ---- A worker that does not spawn ----

  const NO_WORKER := Reading(Ctx(0, NOON), {}, false)

  /** A worker that does not spawn leaves the backup active with nothing pending, and no
      further run of the process ends it or starts another. */
  lemma FailedSpawnIsReached(cfg: Config, g: BuiltGraph, wall: WallClock, later: seq<Action>)
    returns (acts: seq<Action>)
    requires cfg.Valid() && cfg.schedule.Some? && IsDue(cfg.schedule.value, wall, None) && NoCrash(later)
    ensures NoCrash(acts)
    ensures var w := Daemon(Idle, {}, 0, map[], acts, cfg, g);
            var end := Run(w, later, cfg, g);
            && w.queue == [] && w.m.view.phase.ResticRunning? && w.m.view.pending == None
            && end.m.view.phase == w.m.view.phase && end.starts == w.starts
  {
    hide Step, Run, Boot, IsDue, Consistent;
    var b := Fresh(cfg);
    var up := UpMayStart(cfg, g, cfg.Ids(), wall);
    var begun := Executed(Run(b, up, cfg, g), NO_WORKER, cfg, g, 0, wall);
    acts := up + begun;
    RunAppend(b, up, begun, cfg, g);
    ConsistentBoot(Idle, {}, Covered(Idle), 0, map[], cfg);
    ConsistentRun(b, acts, cfg, g);
    var w := Run(b, acts, cfg, g);
    WedgedIsActive(w);
    FailedSpawnWedges(w, later, cfg, g);
  }

  // ---- A lease that outlives its backup ----

  /** Between events at the instant `now`, with the service as the startup probes left it. */
  ghost predicate AtRest(w: World, id: ServiceId, now: nat) {
    && w.queue == [] && w.observed && !w.m.view.shuttingDown && w.m.clock == now
    && id in w.m.view.services && w.m.view.services[id] == Seen(w.m.view.services[id].status)
  }

  /** Idle after one backup started on the day of `wall`. */
  ghost predicate Rests(w: World, id: ServiceId, wall: WallClock) {
    AtRest(w, id, 0) && w.m.view.phase.Idle? && w.lastRun.Some? && w.m.view.lastBackupDay == Some(wall.day)
  }

  function Failing(id: nat): Action {
    Deliver(EffectCompleted(id, ExitFailure), Ctx(0, NOON))
  }

  lemma FailureEnds(w: World, cfg: Config, g: BuiltGraph)
    requires w.queue == [] && w.observed && !w.m.view.shuttingDown && w.m.view.phase.ResticRunning?
    requires w.m.view.pending.Some?
    ensures var w' := Step(w, Failing(w.m.view.pending.value), cfg, g);
            && Plain(w'.queue) && w'.m.view.phase.Idle? && w'.m.clock == w.m.clock && w'.lastRun == w.lastRun
            && w'.m.view.services == w.m.view.services && w'.m.view.lastBackupDay == w.m.view.lastBackupDay
            && !w'.m.view.shuttingDown && w'.observed
  {
    hide HandleProbes, HandleTick, HandleRemediation, Observe, RestoreCommands;
    RestoresStartNothing(w.m.view.phase.pre);
  }

  /** A backup whose main job fails, executed to the end. */
  lemma Ended(w: World, cfg: Config, g: BuiltGraph) returns (acts: seq<Action>)
    requires w.queue == [] && w.observed && !w.m.view.shuttingDown && w.m.view.phase.ResticRunning?
    requires w.m.view.pending.Some?
    ensures NoCrash(acts)
    ensures var w' := Run(w, acts, cfg, g);
            && w'.queue == [] && w'.m.view.phase.Idle? && w'.m.clock == w.m.clock && w'.lastRun == w.lastRun
            && w'.m.view.services == w.m.view.services && w'.m.view.lastBackupDay == w.m.view.lastBackupDay
            && !w'.m.view.shuttingDown && w'.observed
  {
    hide Step, Run, Failing;
    var a := Failing(w.m.view.pending.value);
    FailureEnds(w, cfg, g);
    var w1 := Step(w, a, cfg, g);
    ExecuteSome(w1, QUIETLY, |w1.queue|, cfg, g);
    acts := [a] + Execution(QUIETLY, |w1.queue|);
    RunOne(w, a, cfg, g);
    RunAppend(w, [a], Execution(QUIETLY, |w1.queue|), cfg, g);
    NoCrashHere(w.m.view.pending.value, |w1.queue|);
  }

  lemma NoCrashHere(id: nat, n: nat)
    ensures NoCrash([Failing(id)] + Execution(QUIETLY, n))
  {
  }

  lemma LeaseFromTheStart(w: World, denied: set<ResourceId>, r: ResourceId, cfg: Config)
    requires Leases(w, denied, cfg) && w.lastRun.Some? && w.m.clock == 0 && r in w.m.view.held
    ensures w.m.view.held[r] == LeaseEntry(0, 0)
  {
    hide Core, Keeps, StopEntries, Remembers, KeysAfter, StopsLeased, AcquiresFirst;
    assert Owned(w.m.view.held, r, w.lastRun.value.run, Core(w.queue), denied, w.m.clock);
  }

  /** A backup that stops a service found unhealthy, and its failure: with the process at
      rest, the lease of the service is held still. */
  lemma LeaseOutlivesBackup(cfg: Config, g: BuiltGraph, wall: WallClock) returns (acts: seq<Action>)
    requires cfg.Valid() && StopEntries(cfg.services) != []
    requires cfg.schedule.Some? && IsDue(cfg.schedule.value, wall, None)
    ensures NoCrash(acts)
    ensures var id, w := StopEntries(cfg.services)[0].id, Daemon(Idle, {}, 0, map[], acts, cfg, g);
            Rests(w, id, wall) && BackupRepo !in w.m.view.held && Holds(w, Service(id), LeaseEntry(0, 0))
  {
    hide Step, Run, Boot, StopEntries, IsDue, Consistent, Leases, Snapshots, DeniedIn;
    var entries, b := StopEntries(cfg.services), Fresh(cfg);
    var e := entries[0];
    StopEntriesAreUnique(cfg.services);
    var up := UpMayStart(cfg, g, AllBut(cfg, e.id), wall);
    var w := Run(b, up, cfg, g);
    var begun := Executed(w, QUIETLY, cfg, g, 0, wall);
    RunAppend(b, up, begun, cfg, g);
    EventsLeaveAgreement(Idle, {}, 0, map[], up + begun, cfg, g);
    var ended := Ended(Run(w, begun, cfg, g), cfg, g);
    acts := (up + begun) + ended;
    RunAppend(b, up + begun, ended, cfg, g);
    LeasesAtRest(Idle, {}, 0, map[], acts, cfg, g);
    FirstSnapshot(entries, w.m.view.services);
    DaemonLeases(Idle, {}, 0, map[], acts, cfg, g);
    LeaseFromTheStart(Run(b, acts, cfg, g), DeniedIn(Idle, {}, 0, map[], acts, cfg, g), Service(e.id), cfg);
  }

  // ---- A lease that lapses during the next backup ----

  lemma {:induction false} ExecutionReleases(w: World, r: Reading, n: nat, cfg: Config, g: BuiltGraph, res: ResourceId)
    requires n <= |w.queue| && Plain(w.queue) && r.ctx.mono == 0
    requires forall c :: c in w.queue ==> !c.ReleaseLease?
    ensures NoReleases(w, Execution(r, n), res, cfg, g)
  {
    hide Step, Run;
    if n == 0 {
      assert Execution(r, 0) == [];
    } else {
      ExecutionReleases(w, r, n - 1, cfg, g, res);
      ExecuteSome(w, r, n - 1, cfg, g);
      assert Execution(r, n)[..n - 1] == Execution(r, n - 1);
      assert w.queue[n - 1..][0] == w.queue[n - 1] && w.queue[n - 1] in w.queue;
    }
  }

  function Reload(now: nat): Action {
    Deliver(Signal(ReloadSignal), Ctx(now, NOON))
  }

  lemma ReloadPasses(w: World, cfg: Config, g: BuiltGraph, now: nat)
    requires w.queue == [] && w.observed && !w.m.view.shuttingDown && w.m.clock <= now
    ensures var w' := Step(w, Reload(now), cfg, g);
            w'.queue == [] && w'.m == w.m.(clock := now) && w'.observed
  {
    hide HandleProbes, HandleTick, HandleRemediation, HandleEffect, Observe;
  }

  /** A second backup, started in the last second of the lease the first one left: it is
      refused, and stops the service all the same. */
  lemma RefusedAndStopped(
      prior: seq<Action>, cfg: Config, g: BuiltGraph, wall: WallClock, next: WallClock) returns (acts: seq<Action>)
    requires cfg.Valid() && StopEntries(cfg.services) != [] && NoCrash(prior)
    requires cfg.schedule.Some? && IsDue(cfg.schedule.value, next, Some(wall.day))
    requires var id, w := StopEntries(cfg.services)[0].id, Daemon(Idle, {}, 0, map[], prior, cfg, g);
             Rests(w, id, wall) && BackupRepo !in w.m.view.held && Holds(w, Service(id), LeaseEntry(0, 0))
    ensures NoCrash(acts)
    ensures var id, w := StopEntries(cfg.services)[0].id, Daemon(Idle, {}, 0, map[], acts, cfg, g);
            && AtRest(w, id, 7199) && w.m.view.phase.ResticRunning? && w.m.view.phase.run == 7199
            && Holds(w, Service(id), LeaseEntry(0, 0)) && id in w.m.stopped
  {
    hide Step, Boot, StopEntries, StopCommands, IsDue, Snapshots, NoReleases, Releases, Model.FindIn;
    var entries, b := StopEntries(cfg.services), Fresh(cfg);
    var w := Daemon(Idle, {}, 0, map[], prior, cfg, g);
    var e := entries[0];
    StopEntriesAreUnique(cfg.services);
    var begun := Executed(w, QUIETLY, cfg, g, 7199, next);
    var w1 := Step(w, Trigger(7199, next), cfg, g);
    StartQueueIsPlain(entries, 7199, w1.m.view.phase.pre, e.id);
    StopsBegin(entries, 7199);
    assert w1.queue[4] == StopService(e.id, e.unit, ForBackup) && w1.queue[..|w1.queue|] == w1.queue;
    ExecutionStops(w1, QUIETLY, |w1.queue|, cfg, g, e.id);
    ExecutionReleases(w1, QUIETLY, |w1.queue|, cfg, g, Service(e.id));
    DaemonTracks(Idle, {}, 0, map[], prior, cfg, g, e);
    TracksStep(w, Trigger(7199, next), cfg, g, e);
    LeaseStands(w1, Execution(QUIETLY, |w1.queue|), e.id, LeaseEntry(0, 0), cfg, g, e);
    acts := prior + begun;
    RunAppend(b, prior, begun, cfg, g);
  }

  /** A refused lease does not protect: two backups 7199 seconds apart, and one second later,
      with the second still active and the service stopped, a probe cycle restarts the
      service. Two due dates so close on the monotonic clock take a wall clock that was set,
      or a suspension the monotonic clock did not count. */
  lemma RefusedLeaseDoesNotProtect(cfg: Config, g: BuiltGraph, wall: WallClock, next: WallClock)
    returns (acts: seq<Action>, probe: seq<Action>)
    requires cfg.Valid() && StopEntries(cfg.services) != []
    requires cfg.schedule.Some? && IsDue(cfg.schedule.value, wall, None)
    requires IsDue(cfg.schedule.value, next, Some(wall.day))
    ensures NoCrash(acts) && NoCrash(probe)
    ensures var id, w := StopEntries(cfg.services)[0].id, Daemon(Idle, {}, 0, map[], acts, cfg, g);
            && w.m.view.phase.ResticRunning? && w.m.view.phase.run == 7199 && id in w.m.stopped
            && RestartTimes(w, probe, cfg, g, id) == [7200]
  {
    hide Step, Run, Boot, StopEntries, IsDue, RestartTimes, Model.FindIn;
    var e, b := StopEntries(cfg.services)[0], Fresh(cfg);
    StopEntriesAreUnique(cfg.services);
    var first := LeaseOutlivesBackup(cfg, g, wall);
    var second := RefusedAndStopped(first, cfg, g, wall, next);
    var w := Daemon(Idle, {}, 0, map[], second, cfg, g);
    ReloadPasses(w, cfg, g, 7200);
    acts := second + [Reload(7200)];
    RunAppend(b, second, [Reload(7200)], cfg, g);
    RunOne(w, Reload(7200), cfg, g);
    DaemonTracks(Idle, {}, 0, map[], acts, cfg, g, e);
    probe := OneRestart(Daemon(Idle, {}, 0, map[], acts, cfg, g), cfg, g, e, 7200);
  }
}
