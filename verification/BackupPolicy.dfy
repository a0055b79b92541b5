/** Backup policy: when to start, how to compensate a crash, how phases follow each other
    (src/policy/backup.rs). */
module BackupPolicy {
  import opened Model
  import opened Wrappers
  import opened Schedule

  datatype CompensationAction =
    | UnlockRepository
    | RestartStopped(id: ServiceId, unit: string)
    | ReportInvariantViolation
    | ResetToIdle

  predicate ShouldStart(schedule: Option<Rule>, wall: WallClock, lastDay: Option<nat>, phase: BackupPhase) {
    phase.Idle? && schedule.Some? && IsDue(schedule.value, wall, lastDay)
  }

  /** The services a snapshot list says were running, with their units, in order. */
  function Running(pre: seq<ServiceSnapshot>): seq<ServiceSnapshot> {
    if pre == [] then []
    else Running(pre[..|pre| - 1]) + if pre[|pre| - 1].wasRunning then [pre[|pre| - 1]] else []
  }

  function Restarts(pre: seq<ServiceSnapshot>): seq<CompensationAction> {
    var running := Running(pre);
    seq(|running|, i requires 0 <= i < |running| => RestartStopped(running[i].id, running[i].unit))
  }

  function Compensation(phase: BackupPhase): seq<CompensationAction> {
    if phase.Idle? then []
    else
      (if phase.NeedsResticUnlock() then [UnlockRepository] else [])
      + (if !phase.NeedsServiceRecovery() then []
         else if phase.PreBackupServices().Some? then Restarts(phase.PreBackupServices().value)
         else [ReportInvariantViolation])
      + [ResetToIdle]
  }

  lemma RestartsAppend(pre: seq<ServiceSnapshot>, snap: ServiceSnapshot)
    ensures Restarts(pre + [snap]) ==
            Restarts(pre) + if snap.wasRunning then [RestartStopped(snap.id, snap.unit)] else []
  {
    assert (pre + [snap])[..|pre|] == pre;
  }

  lemma NothingToRestart(pre: seq<ServiceSnapshot>)
    requires pre == []
    ensures Restarts(pre) == []
  {
  }

  method CrashCompensation(phase: BackupPhase) returns (actions: seq<CompensationAction>)
    ensures actions == Compensation(phase)
  {
    hide Restarts;
    actions := [];
    if phase.Idle? {
      return;
    }
    if phase.NeedsResticUnlock() {
      actions := actions + [UnlockRepository];
    }
    if phase.NeedsServiceRecovery() {
      match phase.PreBackupServices()
      case Some(pre) =>
        ghost var before := actions;
        NothingToRestart(pre[..0]);
        for k := 0 to |pre|
          invariant actions == before + Restarts(pre[..k])
        {
          RestartsAppend(pre[..k], pre[k]);
          assert pre[..k] + [pre[k]] == pre[..k + 1];
          if pre[k].wasRunning {
            actions := actions + [RestartStopped(pre[k].id, pre[k].unit)];
          }
        }
        assert pre[..|pre|] == pre;
      case None =>
        actions := actions + [ReportInvariantViolation];
    }
    actions := actions + [ResetToIdle];
  }

  /** The full lifecycle, one phase at a time. */
  function NextPhase(current: BackupPhase, run: RunId, pre: seq<ServiceSnapshot>, verify: bool): BackupPhase {
    match current
    case Idle => Locked(run)
    case Locked(_) => ResticUnlocking(run)
    case ResticUnlocking(_) => ServicesStopping(run, pre)
    case ServicesStopping(_, _) => ResticRunning(run, pre)
    case ResticRunning(_, _) =>
      var running := Running(pre);
      ServicesStarting(
        run,
        seq(|running|, i requires 0 <= i < |running| => ServiceRestore(running[i].id, running[i].unit, 0, false)))
    case ServicesStarting(_, _) =>
      var running := Running(pre);
      ServicesVerifying(run, seq(|running|, i requires 0 <= i < |running| => running[i].id))
    case ServicesVerifying(_, _) => RetentionRunning(run)
    case RetentionRunning(_) => if verify then Verifying(run) else Idle
    case Verifying(_) => Idle
  }

  function Advance(phase: BackupPhase, steps: nat, run: RunId, pre: seq<ServiceSnapshot>, verify: bool): BackupPhase {
    if steps == 0 then phase else NextPhase(Advance(phase, steps - 1, run, pre, verify), run, pre, verify)
  }
}
