/** The events that are neither probes, backups nor requests: scheduled tasks, disk samples,
    startup results, signals, and what a process starts with. */
module Tasks {
  import opened Model
  import opened Wrappers
  import opened Lease
  import opened Graph
  import opened BackupPolicy
  import opened Recovery
  import opened Reducer
  import opened Runtime
  import opened World
  import opened ProbeCycle
  import opened ServiceSteps
  import opened BackupConsistency
  import opened BackupRuns
  import opened BackupLifecycle

  // ---- Due tasks ----

  lemma StartAsksForNoTask(v: View, cfg: Config, ctx: Ctx, c: Command)
    requires c in StartBackup(v, cfg, ctx).cmds
    ensures c.AcquireLease? || c.PersistBackupState? || c.ResticUnlock? || c.StopService? || c.ResticBackup?
  {
    hide StopCommands, Free;
    StopsStartNothing(StopEntries(cfg.services), ctx.mono);
  }

  /** However the due tasks are combined, each leaves its own command, and its own day, and
      nothing else does. */
  lemma {:induction false} TasksAreExact(v: View, tasks: seq<TaskKind>, cfg: Config, ctx: Ctx)
    ensures var out := HandleTick(v, tasks, cfg, ctx);
            && (forall ids :: RunProbes(ids) in out.cmds <==> Recovery in tasks && ids == cfg.order)
            && (CheckDiskUsage in out.cmds <==> DiskMonitor in tasks)
            && (CheckAptUpdates in out.cmds <==> AptUpdates in tasks)
            && (CheckDockerUpdates in out.cmds <==> DockerUpdates in tasks)
            && (SendAlert(Summary) in out.cmds <==> DailySummary in tasks)
            && (PublishSnapshot in out.cmds <==> DailySummary in tasks)
            && out.view.lastAptDay == (if AptUpdates in tasks then Some(ctx.wall.day) else v.lastAptDay)
            && out.view.lastDockerDay == (if DockerUpdates in tasks then Some(ctx.wall.day) else v.lastDockerDay)
            && out.view.lastSummaryDay == (if DailySummary in tasks then Some(ctx.wall.day) else v.lastSummaryDay)
            && out.view.services == v.services && out.view.held == v.held && out.view.pending == v.pending
            && out.view.failures == v.failures && out.view.nextCmdId == v.nextCmdId
            && out.view.shuttingDown == v.shuttingDown
  {
    if tasks == [] {
    } else {
      hide StartBackup, ShouldStart;
      var rest, last := tasks[..|tasks| - 1], tasks[|tasks| - 1];
      TasksAreExact(v, rest, cfg, ctx);
      var before := HandleTick(v, rest, cfg, ctx).view;
      assert tasks == rest + [last];
      OneTaskIsExact(before, last, cfg, ctx);
    }
  }

  lemma OneTaskIsExact(v: View, task: TaskKind, cfg: Config, ctx: Ctx)
    ensures var out := RunTask(v, task, cfg, ctx);
            && (forall ids :: RunProbes(ids) in out.cmds <==> task.Recovery? && ids == cfg.order)
            && (CheckDiskUsage in out.cmds <==> task.DiskMonitor?)
            && (CheckAptUpdates in out.cmds <==> task.AptUpdates?)
            && (CheckDockerUpdates in out.cmds <==> task.DockerUpdates?)
            && (SendAlert(Summary) in out.cmds <==> task.DailySummary?)
            && (PublishSnapshot in out.cmds <==> task.DailySummary?)
            && out.view.lastAptDay == (if task.AptUpdates? then Some(ctx.wall.day) else v.lastAptDay)
            && out.view.lastDockerDay == (if task.DockerUpdates? then Some(ctx.wall.day) else v.lastDockerDay)
            && out.view.lastSummaryDay == (if task.DailySummary? then Some(ctx.wall.day) else v.lastSummaryDay)
            && out.view.services == v.services && out.view.held == v.held && out.view.pending == v.pending
            && out.view.failures == v.failures && out.view.nextCmdId == v.nextCmdId
            && out.view.shuttingDown == v.shuttingDown
  {
    hide ShouldStart, StopEntries, StopCommands, Snapshots, Free;
    if task.Backup? {
      forall c | c in StartBackup(v, cfg, ctx).cmds
        ensures c.AcquireLease? || c.PersistBackupState? || c.ResticUnlock? || c.StopService? || c.ResticBackup?
      {
        StartAsksForNoTask(v, cfg, ctx, c);
      }
      hide StartBackup;
      StartKeepsDays(v, cfg, ctx);
    }
  }

  lemma StartKeepsDays(v: View, cfg: Config, ctx: Ctx)
    ensures var after := StartBackup(v, cfg, ctx).view;
            after == v.(phase := after.phase, lastBackupDay := after.lastBackupDay)
  {
  }

  /** Due tasks are handled one after the other, and their commands follow in that order. */
  lemma {:induction false} TasksCompose(v: View, a: seq<TaskKind>, b: seq<TaskKind>, cfg: Config, ctx: Ctx)
    ensures var first := HandleTick(v, a, cfg, ctx);
            var second := HandleTick(first.view, b, cfg, ctx);
            HandleTick(v, a + b, cfg, ctx) == Out(second.view, first.cmds + second.cmds)
  {
    hide RunTask, HandleTick;
    TickUnfolds(HandleTick(v, a, cfg, ctx).view, b, cfg, ctx);
    if b == [] {
      assert a + b == a;
    } else {
      var rest := b[..|b| - 1];
      TasksCompose(v, a, rest, cfg, ctx);
      TickUnfolds(v, a + b, cfg, ctx);
      assert (a + b)[..|a + b| - 1] == a + rest && (a + b)[|a + b| - 1] == b[|b| - 1];
    }
  }

  lemma TickUnfolds(v: View, tasks: seq<TaskKind>, cfg: Config, ctx: Ctx)
    ensures HandleTick(v, tasks, cfg, ctx) ==
            if tasks == [] then Out(v, [])
            else
              var before := HandleTick(v, tasks[..|tasks| - 1], cfg, ctx);
              var last := RunTask(before.view, tasks[|tasks| - 1], cfg, ctx);
              Out(last.view, before.cmds + last.cmds)
  {
    hide RunTask;
  }

  // ---- Disk samples ----

  /** A sample starts one cleanup and one alert, hard from the critical threshold on, mild
      between the thresholds, and below them nothing; the state stays as it is. */
  lemma DiskSampleIsExact(v: View, usage: nat, cfg: Config, g: BuiltGraph, ctx: Ctx)
    requires !v.shuttingDown
    ensures var out := Reduce(v, DiskSample(usage), cfg, g, ctx);
            && out.view == v
            && (out.cmds == [] <==> usage < cfg.diskCritical && usage < cfg.diskWarn)
            && (RunDiskCleanup(true) in out.cmds <==> usage >= cfg.diskCritical)
            && (SendAlert(DiskCriticallyFull) in out.cmds <==> usage >= cfg.diskCritical)
            && (RunDiskCleanup(false) in out.cmds <==> cfg.diskWarn <= usage < cfg.diskCritical)
            && (SendAlert(DiskWarning) in out.cmds <==> cfg.diskWarn <= usage < cfg.diskCritical)
            && (out.cmds != [] ==> |out.cmds| == 2 && out.cmds[0].RunDiskCleanup? && out.cmds[1].SendAlert?)
  {
  }

  // ---- Startup results ----

  /** The startup results set the status of each probed service by its last result, to
      healthy, blocked behind a failure, or unhealthy once, and do nothing else. */
  lemma StartupIsExact(
      v: View, results: seq<ProbeResult>, cfg: Config, g: BuiltGraph, ctx: Ctx, id: ServiceId)
    requires !v.shuttingDown && id in v.services
    ensures var out, verdict := Reduce(v, StartupProbeResults(results), cfg, g, ctx), Verdict(results, id);
            && out.cmds == [] && out.view == v.(services := out.view.services) && id in out.view.services
            && var svc, after := v.services[id], out.view.services[id];
            && after == svc.(status := after.status)
            && if verdict.None? then after.status == svc.status
               else if verdict.value then after.status == Status.Healthy(ctx.mono)
               else if Behind(results, g, id) then
                 after.status.BlockedByDep? && RootFailure(results, g, after.status.root)
               else after.status == Unhealthy(ctx.mono, 1)
  {
    hide Observe, Verdict, Behind, RootFailure, UnhealthyIn, IsBlocked, RootCause, RootCauses;
    var unhealthy := UnhealthyIn(results);
    var blocked := Blocked(g, unhealthy);
    ObserveOne(v.services, results, blocked, ctx.mono, id);
    RootsFail(results, g, id);
    VerdictIsResult(results, id);
    if id in blocked {
      ClassificationPartitions(g, unhealthy);
      RootsFail(results, g, blocked[id]);
    }
  }

  // ---- A process starts ----

  /** A process starts with every service unknown, its breaker closed and no history, with
      the maintenance it loaded, and with nothing held, logged, pending or counted. */
  lemma StartIsBlank(
      disk: BackupPhase, stopped: set<ServiceId>, promised: set<ServiceId>, mono: nat,
      maintenance: map<ServiceId, nat>, cfg: Config, e: ServiceEntry)
    requires e in cfg.services
    ensures var w := Boot(disk, stopped, promised, mono, maintenance, cfg);
            var v := w.m.view;
            && e.id in v.services
            && v.services[e.id] ==
               SvcState(Unknown, Closed, [], None, if e.id in maintenance then Some(maintenance[e.id]) else None)
            && (forall id :: id in v.services ==> exists s :: s in cfg.services && s.id == id)
            && v.phase.Idle? && v.held == map[] && v.log == [] && v.pending == None && v.failures == 0
            && v.lastBackupDay == None && v.lastAptDay == None && v.lastDockerDay == None && v.lastSummaryDay == None
            && v.nextCmdId == 1 && !v.shuttingDown && !w.observed
            && w.m.disk == disk && w.m.stopped == stopped && w.m.clock == mono
  {
    hide HandleStartupRecovery;
    BootState(disk, stopped, promised, mono, maintenance, cfg);
  }

  // ---- Signals ----

  /** The rest of a run that is shutting down: nothing but the last command is executed. */
  ghost predicate Winding(w: World, end: World) {
    && end.m.view.shuttingDown && (end.queue == [Shutdown] || end.queue == [])
    && end.m.view == w.m.view.(shuttingDown := true) && end.m == w.m.(view := end.m.view, clock := end.m.clock)
    && end.starts == w.starts && end.lastRun == w.lastRun && end.promised == w.promised
  }

  /** After a shutdown signal the process executes one command, and from then on delivers
      and changes nothing; a reload signal changes nothing at all. */
  lemma {:induction false} ShutdownEndsRun(w: World, ctx: Ctx, acts: seq<Action>, cfg: Config, g: BuiltGraph)
    requires Enabled(w, Deliver(Signal(ShutdownSignal), ctx)) && NoCrash(acts)
    ensures Step(w, Deliver(Signal(ShutdownSignal), ctx), cfg, g).queue == [Shutdown]
    ensures Winding(w, Run(Step(w, Deliver(Signal(ShutdownSignal), ctx), cfg, g), acts, cfg, g))
  {
    hide HandleProbes, HandleTick, HandleRemediation, HandleEffect, Observe;
    if acts == [] {
    } else {
      ShutdownEndsRun(w, ctx, acts[..|acts| - 1], cfg, g);
      assert acts[|acts| - 1] in acts;
    }
  }

  /** Once the executor has executed a shutdown command, no event is delivered any more. */
  lemma ShutdownIsFinal(w: World, r: Reading, e: Event, ctx: Ctx, cfg: Config, g: BuiltGraph)
    requires w.queue != [] && w.queue[0].Shutdown?
    ensures Step(w, Exec(r), cfg, g).m.view.shuttingDown && !Enabled(Step(w, Exec(r), cfg, g), Deliver(e, ctx))
  {
    hide Reduce;
  }

  lemma ReloadIsIgnored(v: View, cfg: Config, g: BuiltGraph, ctx: Ctx)
    ensures Reduce(v, Signal(ReloadSignal), cfg, g, ctx) == Out(v, [])
  {
  }

  // ---- Acknowledging a trigger ----

  /** A trigger is acknowledged as scheduled, with the task it asked for; a remediation
      request without a record is reported as missing one, and none other is. */
  lemma TriggerIsScheduled(request: CommandRequest, task: TaskKind, log: seq<RemediationRecord>)
    ensures HttpResponse(request, log) == Scheduled(task) <==> request == CommandRequest.Trigger(task)
    ensures HttpResponse(request, log).Missing? <==> request.Remediate? && log == []
  {
  }
}
