/** The domain types of the daemon: identities, the backup lifecycle, the events the
    reducer consumes and the commands it emits (src/model.rs, src/state.rs). */
module Model {
  import opened Schedule
  import opened Wrappers

  type ServiceId = string

  /** A backup run is named "backup-<monotonic seconds>"; the number stands for the name. */
  type RunId = nat

  datatype ResourceId = Service(id: ServiceId) | DockerDaemon | BackupRepo | DiskCleanup

  datatype ServiceKind = Systemd | DockerSystemd | Virtual

  datatype Severity = Info | Warning | Critical {
    function MaxRestartAttempts(): (n: nat)
    {
      match this
      case Info => 1
      case Warning => 2
      case Critical => 3
    }
  }

  datatype BreakerState =
    | Closed
    | Open(until: nat, tripCount: nat)
    | HalfOpen(probeAttempt: nat, previousTripCount: nat)

  // ---- Backup lifecycle ----

  datatype ServiceSnapshot = ServiceSnapshot(id: ServiceId, wasRunning: bool, unit: string)

  datatype ServiceRestore = ServiceRestore(id: ServiceId, unit: string, attempts: nat, dockerRestarted: bool)

  datatype BackupPhase =
    | Idle
    | Locked(run: RunId)
    | ResticUnlocking(run: RunId)
    | ServicesStopping(run: RunId, pre: seq<ServiceSnapshot>)
    | ResticRunning(run: RunId, pre: seq<ServiceSnapshot>)
    | ServicesStarting(run: RunId, remaining: seq<ServiceRestore>)
    | ServicesVerifying(run: RunId, started: seq<ServiceId>)
    | RetentionRunning(run: RunId)
    | Verifying(run: RunId)
  {
    predicate NeedsServiceRecovery() {
      ServicesStopping? || ResticRunning? || ServicesStarting? || ServicesVerifying?
    }

    predicate NeedsResticUnlock() {
      ResticUnlocking? || ResticRunning?
    }

    function PreBackupServices(): Option<seq<ServiceSnapshot>> {
      if ServicesStopping? || ResticRunning? then Some(pre) else None
    }
  }

  // ---- Per-service state ----

  datatype Status =
    | Unknown
    | Healthy(since: nat)
    | Unhealthy(since: nat, consecutive: nat)
    | Recovering(attempt: nat, since: nat)
    | Failed(since: nat)
    | BlockedByDep(root: ServiceId)
    | Suppressed(until: nat)
  {
    predicate IsDegraded() {
      !Unknown? && !Healthy?
    }
  }

  datatype RestartRecord = RestartRecord(mono: nat, attempt: nat, success: bool)

  datatype SvcState = SvcState(
    status: Status,
    breaker: BreakerState,
    restartHistory: seq<RestartRecord>,
    lastRestart: Option<nat>,
    maintenance: Option<nat>)  // the instant up to which maintenance lasts

  datatype ProbeResult = ProbeResult(service: ServiceId, healthy: bool)

  // ---- Remediation ----

  datatype RemediationAction =
    | RestartUnit | UnlockRestic | DockerRestart | MarkMaintenance | ClearMaintenance
    | ClearFlapping | DiskCleanupNow | TriggerBackup | ClearBreaker

  datatype Rejection = RateLimited | NoTarget | UnknownService

  datatype Outcome = Executed | Triggered | Rejected(why: Rejection)

  datatype RemediationRecord = RemediationRecord(
    mono: nat, action: RemediationAction, target: Option<ServiceId>, source: string, result: Outcome)

  datatype CommandRequest =
    | Trigger(task: TaskKind)
    | Remediate(action: RemediationAction, target: Option<ServiceId>, source: string, reason: string)

  datatype Response = Accepted(result: Outcome) | Scheduled(task: TaskKind) | Refused(why: Rejection) | Missing

  // ---- Events and commands ----

  datatype TaskKind = Recovery | Backup | DiskMonitor | AptUpdates | DockerUpdates | DailySummary

  datatype EffectResult = Success | ExitFailure | Killed | HelperError

  datatype SignalKind = ShutdownSignal | ReloadSignal

  datatype Event =
    | Tick(dueTasks: seq<TaskKind>)
    | StartupProbeResults(results: seq<ProbeResult>)
    | ProbeResults(results: seq<ProbeResult>)
    | DiskSample(usagePercent: nat)
    | EffectCompleted(cmdId: nat, result: EffectResult)
    | HttpCommand(request: CommandRequest)
    | Signal(kind: SignalKind)
    | StartupRecovery(persisted: BackupPhase)

  datatype Cause = UnhealthyProbe(attempt: nat) | FromRemediation(source: string, reason: string) | ForBackup

  datatype AlertSubject =
    | ServicesFailed | ServicesRecovered(ids: seq<ServiceId>) | BackupDone(success: bool)
    | CrashRecovered(phase: BackupPhase) | DiskWarning | DiskCriticallyFull | Summary

  datatype Command =
    | RunProbes(ids: seq<ServiceId>)
    | RestartService(id: ServiceId, unit: string, cause: Cause)
    | StopService(id: ServiceId, unit: string, cause: Cause)
    | StartService(id: ServiceId, unit: string)
    | RestartDockerDaemon
    | ResticUnlock
    | ResticBackup
    | ResticForget
    | ResticCheck
    | SendAlert(subject: AlertSubject)
    | PersistBackupState(phase: BackupPhase)
    | PersistMaintenance
    | PublishSnapshot
    | RunDiskCleanup(aggressive: bool)
    | CheckDiskUsage
    | CheckAptUpdates
    | CheckDockerUpdates
    | WriteIncident(service: Option<ServiceId>)
    | UpdateLlmContext
    | NotifyWatchdog
    | Shutdown
    | AcquireLease(resource: ResourceId, holder: RunId)
    | ReleaseLease(resource: ResourceId)

  /** What the runtime reads from the clocks for one call of the reducer. */
  datatype Ctx = Ctx(mono: nat, wall: WallClock)

  function SaturatingSub(a: nat, b: nat): (r: nat)
  {
    if a >= b then a - b else 0
  }

  function Max(a: nat, b: nat): (r: nat)
  {
    if a >= b then a else b
  }

  // ---- Configuration ----

  datatype ServiceEntry = ServiceEntry(
    id: ServiceId, unit: string, kind: ServiceKind, dependsOn: seq<ServiceId>, severity: Severity,
    restartCooldown: nat, maxRestarts: nat, breakerWindow: nat, breakerCooldown: nat, backupStop: bool)

  /** `order` lists the service ids in the order every map keyed by them is iterated in. */
  datatype Config = Config(
    services: seq<ServiceEntry>, order: seq<ServiceId>, schedule: Option<Rule>, verify: bool,
    diskWarn: nat, diskCritical: nat)
  {
    function FindService(id: ServiceId): (r: Option<ServiceEntry>)
      ensures r.Some? ==> r.value in services && r.value.id == id
      ensures r.None? ==> forall s :: s in services ==> s.id != id
    {
      FindIn(services, id)
    }

    function Ids(): set<ServiceId> {
      set s | s in services :: s.id
    }

    /** What the configuration loader has checked: service ids are unique. */
    ghost predicate Valid() {
      && UniqueIds(services)
      && (forall i, j :: 0 <= i < j < |order| ==> order[i] != order[j])
      && (forall id :: id in order <==> id in Ids())
    }
  }

  function FindIn(services: seq<ServiceEntry>, id: ServiceId): (r: Option<ServiceEntry>)
    ensures r.Some? ==> r.value in services && r.value.id == id
    ensures r.None? ==> forall s :: s in services ==> s.id != id
  {
    if services == [] then None
    else if services[0].id == id then Some(services[0])
    else FindIn(services[1..], id)
  }

  ghost predicate UniqueIds(services: seq<ServiceEntry>) {
    forall i, j :: 0 <= i < j < |services| ==> services[i].id != services[j].id
  }
}
