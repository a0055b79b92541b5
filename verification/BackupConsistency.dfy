/** What every point of every run keeps: memory, disk and the pending job agree. */
module BackupConsistency {
  import opened Model
  import opened Graph
  import opened Reducer
  import opened Runtime
  import opened World
  import opened BackupMoves
  import opened BackupRuns

  /** What will be on disk once the queued commands are executed. */
  function DiskAfter(disk: BackupPhase, k: seq<Command>): BackupPhase
    decreases |k|
  {
    if k == [] then disk else DiskAfter(if k[0].PersistBackupState? then k[0].phase else disk, k[1..])
  }

  /** How many jobs the queued commands will start. */
  function Jobs(k: seq<Command>): nat {
    if k == [] then 0 else (if IsJob(k[0]) then 1 else 0) + Jobs(k[1..])
  }

  function One(b: bool): nat {
    if b then 1 else 0
  }

  predicate Lasting(phase: BackupPhase) {
    phase.Idle? || phase.ResticRunning? || phase.RetentionRunning? || phase.Verifying?
  }

  /** The queue will bring the disk to the phase in memory; an active run has exactly one
      job, which is queued, pending, or could not be spawned; ids are issued upwards. */
  ghost predicate Consistent(w: World) {
    var v, k := w.m.view, Core(w.queue);
    && Lasting(v.phase)
    && DiskAfter(w.m.disk, k) == v.phase
    && Jobs(k) + One(v.pending.Some?) + One(w.m.spawnFailed) == One(!v.phase.Idle?)
    && (v.pending.Some? ==> v.pending.value < v.nextCmdId)
  }

  // ---- Scripts, summarised ----

  lemma {:induction false} SummaryAppend(disk: BackupPhase, a: seq<Command>, b: seq<Command>)
    ensures DiskAfter(disk, a + b) == DiskAfter(DiskAfter(disk, a), b)
    ensures Jobs(a + b) == Jobs(a) + Jobs(b)
    decreases |a|
  {
    if a == [] {
      assert a + b == b;
    } else {
      SummaryAppend(if a[0].PersistBackupState? then a[0].phase else disk, a[1..], b);
      assert (a + b)[1..] == a[1..] + b;
    }
  }

  lemma {:induction false} SummaryOfOthers(disk: BackupPhase, a: seq<Command>)
    requires forall c :: c in a ==> !c.PersistBackupState? && !IsJob(c)
    ensures DiskAfter(disk, a) == disk && Jobs(a) == 0
    decreases |a|
  {
    if a == [] {
    } else {
      assert !a[0].PersistBackupState? && !IsJob(a[0]);
      SummaryOfOthers(disk, a[1..]);
    }
  }

  lemma SummaryOfPersist(disk: BackupPhase, phase: BackupPhase, c: Command)
    requires !c.PersistBackupState?
    ensures DiskAfter(disk, [PersistBackupState(phase), c]) == phase
    ensures Jobs([PersistBackupState(phase), c]) == One(IsJob(c))
  {
    assert [PersistBackupState(phase), c][1..] == [c];
    SummaryAppend(disk, [PersistBackupState(phase)], [c]);
  }

  lemma {:induction false} StopsStartNothing(entries: seq<ServiceEntry>, run: RunId)
    ensures forall c :: c in StopCommands(entries, run) ==> c.AcquireLease? || c.StopService?
  {
    if entries == [] {
    } else {
      StopsStartNothing(entries[..|entries| - 1], run);
    }
  }

  lemma {:induction false} RestoresStartNothing(pre: seq<ServiceSnapshot>)
    ensures forall c :: c in RestoreCommands(pre) ==> c.StartService? || c.ReleaseLease?
  {
    if pre == [] {
    } else {
      RestoresStartNothing(pre[..|pre| - 1]);
    }
  }

  lemma SummaryOfStart(disk: BackupPhase, run: RunId, entries: seq<ServiceEntry>, pre: seq<ServiceSnapshot>)
    ensures DiskAfter(disk, StartScript(run, entries, pre)) == ResticRunning(run, pre)
    ensures Jobs(StartScript(run, entries, pre)) == 1
  {
    hide StopCommands;
    var first, stops := [AcquireLease(BackupRepo, run)], StopCommands(entries, run);
    var lock := [PersistBackupState(Locked(run))];
    var last := [PersistBackupState(ResticRunning(run, pre)), ResticBackup];
    StopsStartNothing(entries, run);
    assert StartScript(run, entries, pre) == (first + (lock + stops)) + last;
    SummaryAppend(disk, first + (lock + stops), last);
    SummaryAppend(disk, first, lock + stops);
    SummaryAppend(disk, lock, stops);
    SummaryOfOthers(disk, first);
    SummaryOfOthers(Locked(run), stops);
    SummaryOfPersist(Locked(run), ResticRunning(run, pre), ResticBackup);
  }

  lemma SummaryOfEnd(disk: BackupPhase, phase: BackupPhase, success: bool, verify: bool)
    requires phase.ResticRunning? || phase.RetentionRunning? || phase.Verifying?
    ensures var (next, script) := AfterJob(phase, success, verify);
            DiskAfter(disk, script) == next && Jobs(script) == One(!next.Idle?)
  {
    hide RestoreCommands;
    var (next, script) := AfterJob(phase, success, verify);
    var restore := if phase.ResticRunning? then RestoreCommands(phase.pre) else [];
    if phase.ResticRunning? {
      RestoresStartNothing(phase.pre);
    }
    var c := if next.Idle? then ReleaseLease(BackupRepo) else if next.Verifying? then ResticCheck else ResticForget;
    assert script == restore + [PersistBackupState(next), c];
    SummaryOfOthers(disk, restore);
    SummaryAppend(disk, restore, [PersistBackupState(next), c]);
    SummaryOfPersist(disk, next, c);
  }

  lemma {:induction false} StartsAreStarts(pre: seq<ServiceSnapshot>)
    ensures forall c :: c in StartCommands(pre) ==> c.StartService?
  {
    if pre == [] {
    } else {
      StartsAreStarts(pre[..|pre| - 1]);
    }
  }

  lemma SummaryOfRecovery(disk: BackupPhase)
    ensures DiskAfter(disk, RecoveryScript(disk)) == Idle && Jobs(RecoveryScript(disk)) == 0
  {
    hide StartCommands;
    if !disk.Idle? {
      var starts := if disk.PreBackupServices().Some? then StartCommands(disk.PreBackupServices().value) else [];
      if disk.PreBackupServices().Some? {
        StartsAreStarts(disk.PreBackupServices().value);
      }
      SummaryOfOthers(disk, starts);
      SummaryAppend(disk, starts, [PersistBackupState(Idle)]);
    }
  }

  // ---- Every step keeps it ----

  lemma ConsistentDeliver(w: World, ctx: Ctx, out: Out, move: Move, cfg: Config)
    requires Consistent(w) && w.queue == [] && Moves(w.m.view, out, move, cfg, At(w.m.clock, ctx))
    ensures Consistent(AfterDeliver(w, ctx, out, move))
  {
    hide Core, StartScript, AfterJob;
    CoreOfOthers([]);
    match move {
      case Calm =>
      case Starts =>
        SummaryOfStart(w.m.disk, out.view.phase.run, StopEntries(cfg.services), out.view.phase.pre);
      case Completes(success) =>
        AfterJobLasts(w.m.view.phase, success, cfg.verify);
        SummaryOfEnd(w.m.disk, w.m.view.phase, success, cfg.verify);
    }
  }

  lemma AfterJobLasts(phase: BackupPhase, success: bool, verify: bool)
    requires Lasting(phase)
    ensures Lasting(AfterJob(phase, success, verify).0)
  {
  }

  lemma ConsistentExec(w: World, w': World, r: Reading)
    requires Consistent(w) && w.queue != []
    requires if BackupCommand(w.queue[0]) then HeadExecuted(w, w', r) else Aside(w, w')
    ensures Consistent(w')
  {
    hide Core;
    if BackupCommand(w.queue[0]) {
      assert Core(w.queue)[1..] == Core(w'.queue);
    }
  }

  lemma ConsistentBoot(
      disk: BackupPhase, stopped: set<ServiceId>, promised: set<ServiceId>, mono: nat,
      maintenance: map<ServiceId, nat>, cfg: Config)
    ensures Consistent(Boot(disk, stopped, promised, mono, maintenance, cfg))
  {
    hide Core, Boot;
    BootState(disk, stopped, promised, mono, maintenance, cfg);
    SummaryOfRecovery(disk);
  }

  lemma ConsistentStep(w: World, a: Action, cfg: Config, g: BuiltGraph)
    requires Consistent(w)
    ensures Consistent(Step(w, a, cfg, g))
  {
    hide Consistent, Reduce, ExecOne, Boot;
    if Enabled(w, a) {
      match a
      case Deliver(e, ctx) =>
        var out, move := DeliverStep(w, e, ctx, cfg, g);
        ConsistentDeliver(w, ctx, out, move, cfg);
      case Exec(r) =>
        ExecStep(w, r, cfg, g);
        ConsistentExec(w, Step(w, a, cfg, g), r);
      case Crash(ctx, maintenance) =>
        CrashStep(w, ctx, maintenance, cfg, g);
        ConsistentBoot(w.m.disk, w.m.stopped, w.promised, ctx.mono, maintenance, cfg);
    }
  }

  lemma {:induction false} ConsistentRun(w: World, acts: seq<Action>, cfg: Config, g: BuiltGraph)
    requires Consistent(w)
    ensures Consistent(Run(w, acts, cfg, g))
  {
    hide Consistent, Step;
    if acts == [] {
    } else {
      ConsistentRun(w, acts[..|acts| - 1], cfg, g);
      ConsistentStep(Run(w, acts[..|acts| - 1], cfg, g), acts[|acts| - 1], cfg, g);
    }
  }
}
