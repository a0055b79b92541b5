/** The daemon's state, owned by the control loop, and the reducer that updates it in place
    (src/state.rs, src/reduce.rs). */
module DaemonState {
  import opened Model
  import opened Wrappers
  import opened History
  import opened Lease
  import opened Graph
  import opened Recovery
  import opened BackupPolicy
  import opened Reducer
  import Breaker

  class State {
    var services: map<ServiceId, SvcState>
    var backupPhase: BackupPhase
    const leases: LeaseArbiter
    const remediationLog: RingBuf<RemediationRecord>
    var lastBackupDay: Option<nat>
    var lastAptDay: Option<nat>
    var lastDockerDay: Option<nat>
    var lastSummaryDay: Option<nat>
    var backupPendingCmd: Option<nat>
    var consecutiveBackupFailures: nat
    var nextCmdId: nat
    var shuttingDown: bool

    ghost predicate Valid()
      reads this, leases, remediationLog
    {
      leases.maxTtl == LEASE_TTL && remediationLog.Valid() && remediationLog.maxSize == MAX_REMEDIATION_LOG
    }

    ghost function View(): View
      reads this, leases, remediationLog
    {
      Reducer.View(
        services, backupPhase, leases.held, remediationLog.items, lastBackupDay, lastAptDay, lastDockerDay,
        lastSummaryDay, backupPendingCmd, consecutiveBackupFailures, nextCmdId, shuttingDown)
    }

    constructor (cfg: Config)
      ensures Valid() && fresh(leases) && fresh(remediationLog)
      ensures View() == InitialView(cfg, map[])
    {
      services := map id | id in cfg.Ids() :: SvcState(Unknown, Closed, [], None, None);
      backupPhase := Idle;
      leases := new LeaseArbiter(LEASE_TTL);
      remediationLog := new RingBuf(MAX_REMEDIATION_LOG);
      lastBackupDay, lastAptDay, lastDockerDay, lastSummaryDay := None, None, None, None;
      backupPendingCmd, consecutiveBackupFailures := None, 0;
      nextCmdId, shuttingDown := 1, false;
    }

    method AllocCmdId() returns (id: nat)
      requires Valid()
      modifies this
      ensures Valid() && id == old(nextCmdId)
      ensures View() == old(View()).(nextCmdId := id + 1)
    {
      id := nextCmdId;
      nextCmdId := nextCmdId + 1;
    }

    // ---- Probes ----

    method HandleStartupProbes(results: seq<ProbeResult>, g: BuiltGraph, ctx: Ctx) returns (cmds: seq<Command>)
      requires Valid()
      modifies this`services
      ensures Valid() && cmds == []
      ensures services == Observe(old(services), results, Blocked(g, UnhealthyIn(results)), ctx.mono)
    {
      var unhealthy := CollectUnhealthy(results);
      var _, blocked := ClassifyFailures(g, unhealthy);
      for k := 0 to |results|
        invariant services == Observe(old(services), results[..k], blocked, ctx.mono)
      {
        assert results[..k + 1][..k] == results[..k];
        var r := results[k];
        if r.service in services {
          services := services[r.service := services[r.service].(status := ObservedStatus(r, blocked, ctx.mono))];
        }
      }
      assert results[..|results|] == results;
      cmds := [];
    }

    method HandleProbes(results: seq<ProbeResult>, cfg: Config, g: BuiltGraph, ctx: Ctx) returns (cmds: seq<Command>)
      requires Valid()
      modifies this`services
      ensures Valid()
      ensures Out(View(), cmds) == Reducer.HandleProbes(old(View()), results, cfg, g, ctx)
    {
      hide Plan, Reducer.ApplyDecisions;
      var plan := Evaluate(results, services, cfg, g, ctx.mono);
      var recovered, failed;
      cmds, recovered, failed := ApplyDecisions(plan, cfg, ctx);
      ghost var applied := cmds;
      if plan.dockerRestartNeeded {
        cmds := cmds + [RestartDockerDaemon];
      }
      if failed != [] {
        cmds := cmds + [SendAlert(ServicesFailed)];
      }
      if recovered != [] {
        cmds := cmds + [SendAlert(ServicesRecovered(recovered))];
      }
      cmds := cmds + [UpdateLlmContext, NotifyWatchdog];
      assert cmds ==
             applied + (if plan.dockerRestartNeeded then [RestartDockerDaemon] else []) + Alerts(recovered, failed)
             + [UpdateLlmContext, NotifyWatchdog];
    }

    method ApplyDecisions(plan: RecoveryPlan, cfg: Config, ctx: Ctx)
      returns (cmds: seq<Command>, recovered: seq<ServiceId>, failed: seq<ServiceId>)
      requires Valid()
      modifies this`services
      ensures Valid()
      ensures CycleResult(services, cmds, recovered, failed) ==
              Reducer.ApplyDecisions(old(services), plan.decisions, cfg.order, cfg, leases.held, ctx.mono)
    {
      cmds, recovered, failed := [], [], [];
      for k := 0 to |cfg.order|
        invariant Valid()
        invariant CycleResult(services, cmds, recovered, failed) ==
                  Reducer.ApplyDecisions(old(services), plan.decisions, cfg.order[..k], cfg, leases.held, ctx.mono)
      {
        assert cfg.order[..k + 1][..k] == cfg.order[..k];
        var id := cfg.order[k];
        if id in plan.decisions {
          var more, up, down := ApplyOne(id, plan.decisions[id], cfg, ctx);
          cmds, recovered, failed := cmds + more, recovered + up, failed + down;
        }
      }
      assert cfg.order[..|cfg.order|] == cfg.order;
    }

    method ApplyOne(id: ServiceId, d: Decision, cfg: Config, ctx: Ctx)
      returns (cmds: seq<Command>, recovered: seq<ServiceId>, failed: seq<ServiceId>)
      requires Valid()
      modifies this`services
      ensures Valid()
      ensures CycleResult(services, cmds, recovered, failed) ==
              ApplyTo(CycleResult(old(services), [], [], []), id, d, cfg, leases.held, ctx.mono)
    {
      cmds, recovered, failed := [], [], [];
      var entry := cfg.FindService(id);
      if id !in services || entry.None? {
        return;
      }
      var svc := services[id];
      match d {
        case Healthy =>
          if svc.status.IsDegraded() {
            recovered := [id];
          }
          svc := svc.(status := Status.Healthy(ctx.mono), breaker := Breaker.OnHealthyProbe(svc.breaker));
        case Restart(unit, attempt, _) =>
          var free := leases.IsFree(Service(id), ctx.mono);
          if free {
            svc := svc.(status := Recovering(attempt, ctx.mono), lastRestart := Some(ctx.mono));
            var record := RestartRecord(ctx.mono, attempt, false);
            svc := svc.(restartHistory := Pushed(svc.restartHistory, MAX_RESTART_HISTORY, record));
            var restarts := CountSince(svc.restartHistory, SaturatingSub(ctx.mono, entry.value.breakerWindow));
            svc := svc.(breaker := Breaker.RecordRestart(
                          svc.breaker, restarts, entry.value.maxRestarts, entry.value.breakerCooldown, ctx.mono));
            cmds := [RestartService(id, unit, UnhealthyProbe(attempt))];
          }
        case Failed =>
          svc := svc.(status := Status.Failed(ctx.mono));
          failed := [id];
          if entry.value.severity == Critical {
            cmds := [WriteIncident(Some(id))];
          }
        case BlockedByDependency(root) =>
          svc := svc.(status := BlockedByDep(root));
        case BreakerOpen =>
          svc := svc.(breaker := Breaker.MaybeTransition(svc.breaker, ctx.mono));
        case InMaintenance =>
        case DockerRootCause =>
      }
      services := services[id := svc];
    }

    // ---- Backup ----

    method StartBackup(cfg: Config, ctx: Ctx) returns (cmds: seq<Command>)
      requires Valid()
      modifies this
      ensures Valid()
      ensures Out(View(), cmds) == Reducer.StartBackup(old(View()), cfg, ctx)
    {
      var free := leases.IsFree(BackupRepo, ctx.mono);
      if !free {
        return [];
      }
      var run := ctx.mono;
      backupPhase := Locked(run);
      lastBackupDay := Some(ctx.wall.day);
      cmds := [AcquireLease(BackupRepo, run), PersistBackupState(backupPhase), ResticUnlock];
      var entries := StopEntries(cfg.services);
      var pre := seq(|entries|, i requires 0 <= i < |entries| reads this => SnapshotOf(entries[i], services));
      ghost var before := cmds;
      for k := 0 to |entries|
        invariant cmds == before + StopCommands(entries[..k], run)
      {
        assert entries[..k + 1][..k] == entries[..k];
        cmds := cmds + [AcquireLease(Service(entries[k].id), run)];
        cmds := cmds + [StopService(entries[k].id, entries[k].unit, ForBackup)];
        assert cmds == before + StopCommands(entries[..k + 1], run);
      }
      assert entries[..|entries|] == entries;
      backupPhase := ResticRunning(run, pre);
      assert pre == Snapshots(entries, services);
      cmds := cmds + [PersistBackupState(backupPhase)];
      cmds := cmds + [ResticBackup];
    }

    method RestoreServices(pre: seq<ServiceSnapshot>) returns (cmds: seq<Command>)
      ensures cmds == RestoreCommands(pre)
    {
      cmds := [];
      for k := 0 to |pre|
        invariant cmds == RestoreCommands(pre[..k])
      {
        assert pre[..k + 1][..k] == pre[..k];
        if pre[k].wasRunning {
          cmds := cmds + [StartService(pre[k].id, pre[k].unit), ReleaseLease(Service(pre[k].id))];
        }
      }
      assert pre[..|pre|] == pre;
    }

    method FinalizeBackup(success: bool) returns (cmds: seq<Command>)
      requires Valid()
      modifies this`backupPhase
      ensures Valid()
      ensures Out(View(), cmds) == Reducer.FinalizeBackup(old(View()), success)
    {
      backupPhase := Idle;
      return [PersistBackupState(Idle), ReleaseLease(BackupRepo), SendAlert(BackupDone(success)), PublishSnapshot];
    }

    method HandleBackupFailure() returns (cmds: seq<Command>)
      requires Valid()
      modifies this
      ensures Valid()
      ensures Out(View(), cmds) == BackupFailure(old(View()))
    {
      consecutiveBackupFailures := consecutiveBackupFailures + 1;
      cmds := [];
      match backupPhase.PreBackupServices() {
        case Some(pre) => cmds := RestoreServices(pre);
        case None =>
      }
      var done := FinalizeBackup(false);
      cmds := cmds + done;
      if consecutiveBackupFailures >= 3 {
        cmds := cmds + [WriteIncident(None)];
      }
    }

    method HandleBackupEffect(success: bool, cfg: Config) returns (cmds: seq<Command>)
      requires Valid()
      modifies this
      ensures Valid()
      ensures Out(View(), cmds) == BackupEffect(old(View()), success, cfg)
    {
      cmds := [];
      match backupPhase {
        case ResticRunning(run, pre) =>
          if success {
            consecutiveBackupFailures := 0;
            cmds := RestoreServices(pre);
            backupPhase := RetentionRunning(run);
            cmds := cmds + [PersistBackupState(backupPhase), ResticForget];
          } else {
            cmds := HandleBackupFailure();
          }
        case RetentionRunning(run) =>
          if !success {
            cmds := HandleBackupFailure();
          } else if cfg.verify {
            backupPhase := Verifying(run);
            cmds := [PersistBackupState(backupPhase), ResticCheck];
          } else {
            cmds := FinalizeBackup(true);
          }
        case Verifying(_) =>
          cmds := FinalizeBackup(success);
        case _ =>
      }
    }

    method HandleEffectCompleted(cmdId: nat, result: EffectResult, cfg: Config) returns (cmds: seq<Command>)
      requires Valid()
      modifies this
      ensures Valid()
      ensures Out(View(), cmds) == HandleEffect(old(View()), cmdId, result, cfg)
    {
      if backupPendingCmd == Some(cmdId) {
        backupPendingCmd := None;
        cmds := HandleBackupEffect(result.Success?, cfg);
      } else {
        cmds := [NotifyWatchdog];
      }
    }

    method Compensate(actions: seq<CompensationAction>) returns (cmds: seq<Command>)
      modifies this`backupPhase
      ensures cmds == CompensationCommands(actions)
      ensures backupPhase == if ResetToIdle in actions then Idle else old(backupPhase)
    {
      cmds := [];
      for k := 0 to |actions|
        invariant cmds == CompensationCommands(actions[..k])
        invariant backupPhase == if ResetToIdle in actions[..k] then Idle else old(backupPhase)
      {
        assert actions[..k + 1] == actions[..k] + [actions[k]];
        match actions[k] {
          case UnlockRepository => cmds := cmds + [ResticUnlock];
          case RestartStopped(id, unit) => cmds := cmds + [StartService(id, unit)];
          case ReportInvariantViolation => cmds := cmds + [WriteIncident(None)];
          case ResetToIdle =>
            backupPhase := Idle;
            cmds := cmds + [PersistBackupState(Idle)];
        }
      }
      assert actions[..|actions|] == actions;
    }

    method HandleStartupRecovery(persisted: BackupPhase) returns (cmds: seq<Command>)
      requires Valid()
      modifies this`backupPhase
      ensures Valid()
      ensures Out(View(), cmds) == Reducer.HandleStartupRecovery(old(View()), persisted)
    {
      hide Compensation;
      var actions := CrashCompensation(persisted);
      ResetIsLast(persisted);
      cmds := Compensate(actions);
      if cmds != [] {
        cmds := cmds + [SendAlert(CrashRecovered(persisted))];
      }
    }

    // ---- Scheduled tasks ----

    method HandleTick(tasks: seq<TaskKind>, cfg: Config, ctx: Ctx) returns (cmds: seq<Command>)
      requires Valid()
      modifies this
      ensures Valid()
      ensures Out(View(), cmds) == Reducer.HandleTick(old(View()), tasks, cfg, ctx)
    {
      cmds := [];
      ghost var v0 := View();
      for k := 0 to |tasks|
        invariant Valid()
        invariant Out(View(), cmds) == Reducer.HandleTick(v0, tasks[..k], cfg, ctx)
      {
        assert tasks[..k + 1][..k] == tasks[..k];
        var more := RunTask(tasks[k], cfg, ctx);
        cmds := cmds + more;
      }
      assert tasks[..|tasks|] == tasks;
    }

    method RunTask(task: TaskKind, cfg: Config, ctx: Ctx) returns (cmds: seq<Command>)
      requires Valid()
      modifies this
      ensures Valid()
      ensures Out(View(), cmds) == Reducer.RunTask(old(View()), task, cfg, ctx)
    {
      cmds := [];
      match task {
        case Recovery => cmds := [RunProbes(cfg.order)];
        case Backup =>
          if ShouldStart(cfg.schedule, ctx.wall, lastBackupDay, backupPhase) {
            cmds := StartBackup(cfg, ctx);
          }
        case DiskMonitor => cmds := [CheckDiskUsage];
        case AptUpdates =>
          lastAptDay := Some(ctx.wall.day);
          cmds := [CheckAptUpdates];
        case DockerUpdates =>
          lastDockerDay := Some(ctx.wall.day);
          cmds := [CheckDockerUpdates];
        case DailySummary =>
          lastSummaryDay := Some(ctx.wall.day);
          cmds := [SendAlert(Summary), PublishSnapshot];
      }
    }

    // ---- Remediation ----

    method IsRateLimited(a: RemediationAction, target: Option<ServiceId>, now: nat) returns (limited: bool)
      requires Valid()
      ensures limited == OverLimit(remediationLog.items, a, target, now)
    {
      var limit := Limit(a);
      if limit.None? {
        return false;
      }
      var cutoff := SaturatingSub(now, limit.value.0);
      var log, count := remediationLog.items, 0;
      for k := 0 to |log|
        invariant count == CountRequests(log[..k], cutoff, a, target)
      {
        assert log[..k + 1][..k] == log[..k];
        if log[k].mono >= cutoff && log[k].action == a && log[k].target == target {
          count := count + 1;
        }
      }
      assert log[..|log|] == log;
      return count >= limit.value.1;
    }

    method RecordRemediation(a: RemediationAction, target: Option<ServiceId>, source: string, result: Outcome, ctx: Ctx)
      requires Valid()
      modifies remediationLog
      ensures Valid()
      ensures remediationLog.items ==
              Pushed(
                old(remediationLog.items), MAX_REMEDIATION_LOG,
                RemediationRecord(ctx.mono, a, target, source, result))
    {
      remediationLog.Push(RemediationRecord(ctx.mono, a, target, source, result));
    }

    method HandleRemediation(
        a: RemediationAction, target: Option<ServiceId>, source: string, reason: string, cfg: Config, ctx: Ctx)
      returns (cmds: seq<Command>)
      requires Valid()
      modifies this, remediationLog
      ensures Valid()
      ensures Out(View(), cmds) == Reducer.HandleRemediation(old(View()), a, target, source, reason, cfg, ctx)
    {
      var limited := IsRateLimited(a, target, ctx.mono);
      if limited {
        RecordRemediation(a, target, source, Rejected(RateLimited), ctx);
        return [];
      }
      var outcome;
      cmds, outcome := ApplyRemedy(a, target, source, reason, cfg, ctx);
      RecordRemediation(a, target, source, outcome, ctx);
    }

    method ApplyRemedy(
        a: RemediationAction, target: Option<ServiceId>, source: string, reason: string, cfg: Config, ctx: Ctx)
      returns (cmds: seq<Command>, outcome: Outcome)
      requires Valid()
      modifies this
      ensures Valid()
      ensures (Out(View(), cmds), outcome) == Remedy(old(View()), a, target, source, reason, cfg, ctx)
    {
      cmds, outcome := [], Executed;
      match a {
        case RestartUnit =>
          if target.None? {
            return [], Rejected(NoTarget);
          }
          var entry := cfg.FindService(target.value);
          if entry.None? {
            return [], Rejected(UnknownService);
          }
          cmds := [RestartService(target.value, entry.value.unit, FromRemediation(source, reason))];
        case DockerRestart => cmds := [RestartDockerDaemon];
        case UnlockRestic => cmds := [ResticUnlock];
        case TriggerBackup =>
          cmds := HandleTick([Backup], cfg, ctx);
          outcome := Triggered;
        case DiskCleanupNow => cmds := [RunDiskCleanup(false)];
        case ClearBreaker =>
          if target.None? {
            return [], Rejected(NoTarget);
          }
          if target.value in services {
            services := services[target.value := services[target.value].(breaker := Closed)];
          }
        case MarkMaintenance =>
          if target.None? {
            return [], Rejected(NoTarget);
          }
          if target.value in services {
            var svc := services[target.value];
            services := services[target.value := svc.(maintenance := Some(ctx.mono + MAINTENANCE_SECS))];
          }
          cmds := [PersistMaintenance];
        case ClearMaintenance =>
          if target.None? {
            return [], Rejected(NoTarget);
          }
          if target.value in services {
            services := services[target.value := services[target.value].(maintenance := None)];
          }
          cmds := [PersistMaintenance];
        case ClearFlapping =>
          if target.None? {
            return [], Rejected(NoTarget);
          }
          if target.value in services {
            services := services[target.value := services[target.value].(breaker := Closed, restartHistory := [])];
          }
      }
    }

    // ---- The reducer ----

    method HandleHttpCommand(request: CommandRequest, cfg: Config, ctx: Ctx) returns (cmds: seq<Command>)
      requires Valid()
      modifies this, remediationLog
      ensures Valid()
      ensures Out(View(), cmds) ==
              match request
              case Trigger(task) => Reducer.HandleTick(old(View()), [task], cfg, ctx)
              case Remediate(a, target, source, reason) =>
                Reducer.HandleRemediation(old(View()), a, target, source, reason, cfg, ctx)
    {
      match request {
        case Trigger(task) => cmds := HandleTick([task], cfg, ctx);
        case Remediate(a, target, source, reason) => cmds := HandleRemediation(a, target, source, reason, cfg, ctx);
      }
    }

    method Reduce(e: Event, cfg: Config, g: BuiltGraph, ctx: Ctx) returns (cmds: seq<Command>)
      requires Valid()
      modifies this, remediationLog
      ensures Valid()
      ensures Out(View(), cmds) == Reducer.Reduce(old(View()), e, cfg, g, ctx)
    {
      cmds := [];
      if shuttingDown {
        return;
      }
      match e {
        case Tick(tasks) => cmds := HandleTick(tasks, cfg, ctx);
        case StartupProbeResults(results) => cmds := HandleStartupProbes(results, g, ctx);
        case ProbeResults(results) => cmds := HandleProbes(results, cfg, g, ctx);
        case DiskSample(usage) => cmds := DiskCommands(usage, cfg);
        case EffectCompleted(id, result) => cmds := HandleEffectCompleted(id, result, cfg);
        case HttpCommand(request) => cmds := HandleHttpCommand(request, cfg, ctx);
        case Signal(kind) =>
          if kind == ShutdownSignal {
            shuttingDown := true;
            cmds := [Shutdown];
          }
        case StartupRecovery(persisted) => cmds := HandleStartupRecovery(persisted);
      }
    }
  }

  /** Whatever is compensated, the phase is reset. */
  lemma ResetIsLast(persisted: BackupPhase)
    ensures Compensation(persisted) != [] <==> ResetToIdle in Compensation(persisted)
  {
  }
}
