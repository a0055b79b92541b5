/** The reducer as a function: what each event does to the daemon's state and which
    commands it emits (src/reduce.rs). The class in State.dfy is proved against it. */
module Reducer {
  import opened Model
  import opened Wrappers
  import opened History
  import opened Lease
  import opened Graph
  import opened Recovery
  import opened BackupPolicy
  import Breaker

  const MAX_RESTART_HISTORY := 20
  const MAX_REMEDIATION_LOG := 50
  const LEASE_TTL := 7200
  const MAINTENANCE_SECS := 3600

  /** The value of the daemon's state. */
  datatype View = View(
    services: map<ServiceId, SvcState>,
    phase: BackupPhase,
    held: Held,
    log: seq<RemediationRecord>,
    lastBackupDay: Option<nat>,
    lastAptDay: Option<nat>,
    lastDockerDay: Option<nat>,
    lastSummaryDay: Option<nat>,
    pending: Option<nat>,
    failures: nat,
    nextCmdId: nat,
    shuttingDown: bool)

  datatype Out = Out(view: View, cmds: seq<Command>)

  // ---- Probe cycles ----

  function Restarted(svc: SvcState, entry: ServiceEntry, attempt: nat, now: nat): SvcState {
    var history := Pushed(svc.restartHistory, MAX_RESTART_HISTORY, RestartRecord(now, attempt, false));
    var inWindow := CountSince(history, SaturatingSub(now, entry.breakerWindow));
    svc.(status := Recovering(attempt, now),
         lastRestart := Some(now),
         restartHistory := history,
         breaker := Breaker.RecordRestart(svc.breaker, inWindow, entry.maxRestarts, entry.breakerCooldown, now))
  }

  function ApplyDecision(svc: SvcState, entry: ServiceEntry, d: Decision, leaseFree: bool, now: nat): SvcState {
    match d
    case Healthy => svc.(status := Status.Healthy(now), breaker := Breaker.OnHealthyProbe(svc.breaker))
    case Restart(_, attempt, _) => if leaseFree then Restarted(svc, entry, attempt, now) else svc
    case Failed => svc.(status := Status.Failed(now))
    case BlockedByDependency(root) => svc.(status := BlockedByDep(root))
    case BreakerOpen => svc.(breaker := Breaker.MaybeTransition(svc.breaker, now))
    case InMaintenance => svc
    case DockerRootCause => svc
  }

  function DecisionCommands(id: ServiceId, entry: ServiceEntry, d: Decision, leaseFree: bool): seq<Command> {
    match d
    case Restart(unit, attempt, _) => if leaseFree then [RestartService(id, unit, UnhealthyProbe(attempt))] else []
    case Failed => if entry.severity == Critical then [WriteIncident(Some(id))] else []
    case _ => []
  }

  datatype CycleResult = CycleResult(
    services: map<ServiceId, SvcState>, cmds: seq<Command>, recovered: seq<ServiceId>, failed: seq<ServiceId>)

  function ApplyTo(c: CycleResult, id: ServiceId, d: Decision, cfg: Config, held: Held, now: nat): CycleResult {
    var entry := cfg.FindService(id);
    if id !in c.services || entry.None? then c
    else
      var svc, leaseFree := c.services[id], Free(held, LEASE_TTL, Service(id), now);
      CycleResult(
        c.services[id := ApplyDecision(svc, entry.value, d, leaseFree, now)],
        c.cmds + DecisionCommands(id, entry.value, d, leaseFree),
        c.recovered + if d.Healthy? && svc.status.IsDegraded() then [id] else [],
        c.failed + if d.Failed? then [id] else [])
  }

  function ApplyDecisions(
    services: map<ServiceId, SvcState>, decisions: map<ServiceId, Decision>, order: seq<ServiceId>,
    cfg: Config, held: Held, now: nat): CycleResult
  {
    if order == [] then CycleResult(services, [], [], [])
    else
      var c := ApplyDecisions(services, decisions, order[..|order| - 1], cfg, held, now);
      var id := order[|order| - 1];
      if id in decisions then ApplyTo(c, id, decisions[id], cfg, held, now) else c
  }

  function Alerts(recovered: seq<ServiceId>, failed: seq<ServiceId>): seq<Command> {
    (if failed != [] then [SendAlert(ServicesFailed)] else [])
    + (if recovered != [] then [SendAlert(ServicesRecovered(recovered))] else [])
  }

  ghost function HandleProbes(v: View, results: seq<ProbeResult>, cfg: Config, g: BuiltGraph, ctx: Ctx): Out
  {
    var plan := Plan(results, v.services, cfg, g, ctx.mono);
    var c := ApplyDecisions(v.services, plan.decisions, cfg.order, cfg, v.held, ctx.mono);
    Out(v.(services := c.services),
        c.cmds
        + (if plan.dockerRestartNeeded then [RestartDockerDaemon] else [])
        + Alerts(c.recovered, c.failed)
        + [UpdateLlmContext, NotifyWatchdog])
  }

  function ObservedStatus(r: ProbeResult, blocked: map<ServiceId, ServiceId>, now: nat): Status {
    if r.healthy then Status.Healthy(now)
    else if r.service in blocked then BlockedByDep(blocked[r.service])
    else Unhealthy(now, 1)
  }

  function Observe(
      services: map<ServiceId, SvcState>, results: seq<ProbeResult>, blocked: map<ServiceId, ServiceId>,
      now: nat): map<ServiceId, SvcState> {
    if results == [] then services
    else
      var m, last := Observe(services, results[..|results| - 1], blocked, now), results[|results| - 1];
      if last.service in m then m[last.service := m[last.service].(status := ObservedStatus(last, blocked, now))] else m
  }

  // ---- Backup ----

  function StopEntries(services: seq<ServiceEntry>): seq<ServiceEntry> {
    if services == [] then []
    else
      var last := services[|services| - 1];
      StopEntries(services[..|services| - 1]) + if last.backupStop then [last] else []
  }

  function SnapshotOf(e: ServiceEntry, services: map<ServiceId, SvcState>): ServiceSnapshot {
    ServiceSnapshot(e.id, e.id in services && services[e.id].status.Healthy?, e.unit)
  }

  function Snapshots(entries: seq<ServiceEntry>, services: map<ServiceId, SvcState>): seq<ServiceSnapshot> {
    seq(|entries|, i requires 0 <= i < |entries| => SnapshotOf(entries[i], services))
  }

  function StopCommands(entries: seq<ServiceEntry>, run: RunId): seq<Command> {
    if entries == [] then []
    else
      var e := entries[|entries| - 1];
      StopCommands(entries[..|entries| - 1], run)
          + [AcquireLease(Service(e.id), run), StopService(e.id, e.unit, ForBackup)]
  }

  function StartBackup(v: View, cfg: Config, ctx: Ctx): Out {
    if !Free(v.held, LEASE_TTL, BackupRepo, ctx.mono) then Out(v, [])
    else
      var run := ctx.mono;
      var entries := StopEntries(cfg.services);
      var running := ResticRunning(run, Snapshots(entries, v.services));
      Out(v.(phase := running, lastBackupDay := Some(ctx.wall.day)),
          [AcquireLease(BackupRepo, run), PersistBackupState(Locked(run)), ResticUnlock]
          + StopCommands(entries, run)
          + [PersistBackupState(running), ResticBackup])
  }

  function RestoreCommands(pre: seq<ServiceSnapshot>): seq<Command> {
    if pre == [] then []
    else
      var snap := pre[|pre| - 1];
      RestoreCommands(pre[..|pre| - 1])
      + if snap.wasRunning then [StartService(snap.id, snap.unit), ReleaseLease(Service(snap.id))] else []
  }

  function FinalizeBackup(v: View, success: bool): Out {
    Out(v.(phase := Idle),
        [PersistBackupState(Idle), ReleaseLease(BackupRepo), SendAlert(BackupDone(success)), PublishSnapshot])
  }

  function BackupFailure(v: View): Out {
    var v' := v.(failures := v.failures + 1);
    var pre := v.phase.PreBackupServices();
    var done := FinalizeBackup(v', false);
    Out(done.view,
        (if pre.Some? then RestoreCommands(pre.value) else [])
        + done.cmds
        + (if v'.failures >= 3 then [WriteIncident(None)] else []))
  }

  function BackupEffect(v: View, success: bool, cfg: Config): Out {
    match v.phase
    case ResticRunning(run, pre) =>
      if success then
        Out(v.(failures := 0, phase := RetentionRunning(run)),
            RestoreCommands(pre) + [PersistBackupState(RetentionRunning(run)), ResticForget])
      else BackupFailure(v)
    case RetentionRunning(run) =>
      if !success then BackupFailure(v)
      else if cfg.verify then Out(v.(phase := Verifying(run)), [PersistBackupState(Verifying(run)), ResticCheck])
      else FinalizeBackup(v, true)
    case Verifying(_) => FinalizeBackup(v, success)
    case _ => Out(v, [])
  }

  function HandleEffect(v: View, cmdId: nat, result: EffectResult, cfg: Config): Out {
    if v.pending == Some(cmdId) then BackupEffect(v.(pending := None), result.Success?, cfg)
    else Out(v, [NotifyWatchdog])
  }

  function CompensationCommand(a: CompensationAction): Command {
    match a
    case UnlockRepository => ResticUnlock
    case RestartStopped(id, unit) => StartService(id, unit)
    case ReportInvariantViolation => WriteIncident(None)
    case ResetToIdle => PersistBackupState(Idle)
  }

  function CompensationCommands(actions: seq<CompensationAction>): seq<Command> {
    seq(|actions|, i requires 0 <= i < |actions| => CompensationCommand(actions[i]))
  }

  function HandleStartupRecovery(v: View, persisted: BackupPhase): Out {
    var actions := Compensation(persisted);
    if actions == [] then Out(v, [])
    else
      Out(v.(phase := Idle),
          CompensationCommands(actions) + [SendAlert(CrashRecovered(persisted))])
  }

  // ---- Scheduled tasks ----

  function RunTask(v: View, task: TaskKind, cfg: Config, ctx: Ctx): Out {
    match task
    case Recovery => Out(v, [RunProbes(cfg.order)])
    case Backup =>
      if ShouldStart(cfg.schedule, ctx.wall, v.lastBackupDay, v.phase) then StartBackup(v, cfg, ctx) else Out(v, [])
    case DiskMonitor => Out(v, [CheckDiskUsage])
    case AptUpdates => Out(v.(lastAptDay := Some(ctx.wall.day)), [CheckAptUpdates])
    case DockerUpdates => Out(v.(lastDockerDay := Some(ctx.wall.day)), [CheckDockerUpdates])
    case DailySummary => Out(v.(lastSummaryDay := Some(ctx.wall.day)), [SendAlert(Summary), PublishSnapshot])
  }

  function HandleTick(v: View, tasks: seq<TaskKind>, cfg: Config, ctx: Ctx): Out {
    if tasks == [] then Out(v, [])
    else
      var before := HandleTick(v, tasks[..|tasks| - 1], cfg, ctx);
      var last := RunTask(before.view, tasks[|tasks| - 1], cfg, ctx);
      Out(last.view, before.cmds + last.cmds)
  }

  function DiskCommands(usage: nat, cfg: Config): seq<Command> {
    if usage >= cfg.diskCritical then [RunDiskCleanup(true), SendAlert(DiskCriticallyFull)]
    else if usage >= cfg.diskWarn then [RunDiskCleanup(false), SendAlert(DiskWarning)]
    else []
  }

  // ---- Remediation ----

  /** The window in seconds and the number of requests allowed in it. */
  function Limit(a: RemediationAction): Option<(nat, nat)> {
    match a
    case RestartUnit => Some((3600, 3))
    case DockerRestart => Some((3600, 1))
    case TriggerBackup => Some((86400, 1))
    case MarkMaintenance => Some((3600, 5))
    case _ => None
  }

  function CountRequests(
      log: seq<RemediationRecord>, cutoff: nat, a: RemediationAction, target: Option<ServiceId>): nat {
    if log == [] then 0
    else
      var r := log[|log| - 1];
      CountRequests(log[..|log| - 1], cutoff, a, target)
      + if r.mono >= cutoff && r.action == a && r.target == target then 1 else 0
  }

  predicate OverLimit(log: seq<RemediationRecord>, a: RemediationAction, target: Option<ServiceId>, now: nat) {
    var limit := Limit(a);
    limit.Some? && CountRequests(log, SaturatingSub(now, limit.value.0), a, target) >= limit.value.1
  }

  function Update(v: View, id: ServiceId, f: SvcState -> SvcState): View {
    if id in v.services then v.(services := v.services[id := f(v.services[id])]) else v
  }

  /** What an admitted request does, and the outcome recorded for it. */
  function Remedy(
      v: View, a: RemediationAction, target: Option<ServiceId>, source: string, reason: string, cfg: Config,
      ctx: Ctx): (Out, Outcome) {
    match a
    case RestartUnit =>
      if target.None? then (Out(v, []), Rejected(NoTarget))
      else
        var entry := cfg.FindService(target.value);
        if entry.None? then (Out(v, []), Rejected(UnknownService))
        else (Out(v, [RestartService(target.value, entry.value.unit, FromRemediation(source, reason))]), Executed)
    case DockerRestart => (Out(v, [RestartDockerDaemon]), Executed)
    case UnlockRestic => (Out(v, [ResticUnlock]), Executed)
    case TriggerBackup => (HandleTick(v, [Backup], cfg, ctx), Triggered)
    case DiskCleanupNow => (Out(v, [RunDiskCleanup(false)]), Executed)
    case ClearBreaker =>
      if target.None? then (Out(v, []), Rejected(NoTarget))
      else (Out(Update(v, target.value, (s: SvcState) => s.(breaker := Closed)), []), Executed)
    case MarkMaintenance =>
      if target.None? then (Out(v, []), Rejected(NoTarget))
      else
        var until := Some(ctx.mono + MAINTENANCE_SECS);
        (Out(Update(v, target.value, (s: SvcState) => s.(maintenance := until)), [PersistMaintenance]), Executed)
    case ClearMaintenance =>
      if target.None? then (Out(v, []), Rejected(NoTarget))
      else (Out(Update(v, target.value, (s: SvcState) => s.(maintenance := None)), [PersistMaintenance]), Executed)
    case ClearFlapping =>
      if target.None? then (Out(v, []), Rejected(NoTarget))
      else (Out(Update(v, target.value, (s: SvcState) => s.(breaker := Closed, restartHistory := [])), []), Executed)
  }

  function HandleRemediation(
      v: View, a: RemediationAction, target: Option<ServiceId>, source: string, reason: string, cfg: Config,
      ctx: Ctx): Out {
    var (out, outcome) :=
      if OverLimit(v.log, a, target, ctx.mono) then (Out(v, []), Rejected(RateLimited))
      else Remedy(v, a, target, source, reason, cfg, ctx);
    var record := RemediationRecord(ctx.mono, a, target, source, outcome);
    Out(out.view.(log := Pushed(out.view.log, MAX_REMEDIATION_LOG, record)), out.cmds)
  }

  function HttpResponse(request: CommandRequest, log: seq<RemediationRecord>): Response {
    match request
    case Trigger(task) => Scheduled(task)
    case Remediate(_, _, _, _) =>
      if log == [] then Missing
      else
        var outcome := log[|log| - 1].result;
        if outcome.Rejected? then Refused(outcome.why) else Accepted(outcome)
  }

  // ---- The reducer ----

  ghost function Reduce(v: View, e: Event, cfg: Config, g: BuiltGraph, ctx: Ctx): Out
  {
    if v.shuttingDown then Out(v, [])
    else
      match e
      case Tick(tasks) => HandleTick(v, tasks, cfg, ctx)
      case StartupProbeResults(results) =>
        Out(v.(services := Observe(v.services, results, Blocked(g, UnhealthyIn(results)), ctx.mono)), [])
      case ProbeResults(results) => HandleProbes(v, results, cfg, g, ctx)
      case DiskSample(usage) => Out(v, DiskCommands(usage, cfg))
      case EffectCompleted(id, result) => HandleEffect(v, id, result, cfg)
      case HttpCommand(request) =>
        (match request
         case Trigger(task) => HandleTick(v, [task], cfg, ctx)
         case Remediate(a, target, source, reason) => HandleRemediation(v, a, target, source, reason, cfg, ctx))
      case Signal(kind) => if kind.ShutdownSignal? then Out(v.(shuttingDown := true), [Shutdown]) else Out(v, [])
      case StartupRecovery(persisted) => HandleStartupRecovery(v, persisted)
  }

  ghost function InitialView(cfg: Config, maintenance: map<ServiceId, nat>): View {
    View(
      map id | id in cfg.Ids() ::
        SvcState(Unknown, Closed, [], None, if id in maintenance then Some(maintenance[id]) else None),
      Idle, map[], [], None, None, None, None, None, 0, 1, false)
  }
}
