/** What startup recovery does after a crash, written out phase by phase, and when it may
    reset the phase. */
module RecoveryScripts {
  import opened Model
  import opened Wrappers
  import opened Graph
  import opened BackupPolicy
  import opened Reducer
  import opened World
  import opened BackupRuns
  import opened BackupScripts
  import opened CrashSafety

  // ---- The commands of a recovery ----

  /** The snapshots a recovery restores from. */
  function Snapshot(p: BackupPhase): seq<ServiceSnapshot> {
    match p
    case ServicesStopping(_, pre) => pre
    case ResticRunning(_, pre) => pre
    case _ => []
  }

  ghost predicate StartsOf(starts: seq<Command>, pre: seq<ServiceSnapshot>, ks: seq<nat>) {
    && |starts| == |ks|
    && forall j :: 0 <= j < |ks| ==> ks[j] < |pre| && starts[j] == StartService(pre[ks[j]].id, pre[ks[j]].unit)
  }

  lemma RestartsByIndex(pre: seq<ServiceSnapshot>) returns (ks: seq<nat>)
    ensures Selects(ks, RunningIndices(pre)) && StartsOf(CompensationCommands(Restarts(pre)), pre, ks)
  {
    hide Running;
    ks := RunningByIndex(pre);
  }

  /** A recovery unlocks the repository exactly if restic may have held it, starts exactly
      the services the snapshot found running, in order, reports a phase whose services are
      not recorded, and then resets the phase and says so. */
  lemma RecoveryIsExact(v: View, p: BackupPhase) returns (starts: seq<Command>, ks: seq<nat>)
    ensures Selects(ks, RunningIndices(Snapshot(p))) && StartsOf(starts, Snapshot(p), ks)
    ensures HandleStartupRecovery(v, p) ==
            if p.Idle? then Out(v, [])
            else
              Out(v.(phase := Idle),
                  (if p.ResticUnlocking? || p.ResticRunning? then [ResticUnlock] else [])
                  + starts
                  + (if p.ServicesStarting? || p.ServicesVerifying? then [WriteIncident(None)] else [])
                  + [PersistBackupState(Idle), SendAlert(CrashRecovered(p))])
  {
    hide Restarts, CompensationCommands, Selects;
    var pre := Snapshot(p);
    ks := RestartsByIndex(pre);
    starts := CompensationCommands(Restarts(pre));
    var unlock := if p.ResticUnlocking? || p.ResticRunning? then [UnlockRepository] else [];
    var report := if p.ServicesStarting? || p.ServicesVerifying? then [ReportInvariantViolation] else [];
    NothingToRestart([]);
    NoCommands();
    OneCommand(UnlockRepository);
    OneCommand(ReportInvariantViolation);
    OneCommand(ResetToIdle);
    CommandsAppend(unlock + (Restarts(pre) + report), [ResetToIdle]);
    CommandsAppend(unlock, Restarts(pre) + report);
    CommandsAppend(Restarts(pre), report);
    if !p.Idle? {
      assert Compensation(p) == unlock + (Restarts(pre) + report) + [ResetToIdle] by {
        assert Restarts(pre) + [] == Restarts(pre) && [] + report == report;
      }
    }
  }

  lemma NoCommands()
    ensures CompensationCommands([]) == []
  {
  }

  // ---- Over interrupted recoveries ----

  /** Whether a run executes the command that unlocks the repository. */
  ghost predicate Unlocks(w: World, acts: seq<Action>, cfg: Config, g: BuiltGraph) {
    acts != [] &&
      var before, last := Run(w, acts[..|acts| - 1], cfg, g), acts[|acts| - 1];
      || Unlocks(w, acts[..|acts| - 1], cfg, g)
      || (last.Exec? && before.queue != [] && before.queue[0] == ResticUnlock)
  }

  /** The repository was unlocked, or it is about to be and the disk still says so. */
  ghost predicate UnlockKept(w: World, p: BackupPhase, unlocked: bool) {
    unlocked || (w.m.disk == p && w.queue != [] && w.queue[0] == ResticUnlock)
  }

  lemma BootUnlocks(w: World, crash: Action, p: BackupPhase, cfg: Config, g: BuiltGraph)
    requires crash.Crash? && w.m.disk == p && (p.ResticRunning? || p.ResticUnlocking?)
    ensures UnlockKept(Step(w, crash, cfg, g), p, false)
  {
    hide HandleStartupRecovery;
    var _, _ := RecoveryIsExact(InitialView(cfg, crash.maintenance), p);
  }

  /** A process that dies while restic may hold the repository leaves a phase on disk that
      no recovery resets, however often it is cut, before the repository was unlocked. */
  lemma {:induction false} UnlockedBeforeReset(
      w: World, crash: Action, acts: seq<Action>, cfg: Config, g: BuiltGraph)
    requires crash.Crash? && CrashesAndExecs(acts) && (w.m.disk.ResticRunning? || w.m.disk.ResticUnlocking?)
    ensures var start := Step(w, crash, cfg, g);
            && UnlockKept(Run(start, acts, cfg, g), w.m.disk, Unlocks(start, acts, cfg, g))
            && (Run(start, acts, cfg, g).m.disk != w.m.disk ==> Unlocks(start, acts, cfg, g))
            && (Run(start, acts, cfg, g).queue == [] ==> Unlocks(start, acts, cfg, g))
  {
    hide Step;
    var start, p := Step(w, crash, cfg, g), w.m.disk;
    if acts == [] {
      BootUnlocks(w, crash, p, cfg, g);
    } else {
      var rest, last := acts[..|acts| - 1], acts[|acts| - 1];
      assert last in acts;
      UnlockedBeforeReset(w, crash, rest, cfg, g);
      var before := Run(start, rest, cfg, g);
      if last.Crash? && !Unlocks(start, rest, cfg, g) {
        BootUnlocks(before, last, p, cfg, g);
      }
    }
  }
}
