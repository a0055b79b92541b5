/** How one event moves the backup lifecycle: every outcome of the reducer is calm, starts
    a run or completes one of its jobs, with a known script of backup commands. */
module BackupMoves {
  import opened Model
  import opened Wrappers
  import opened Lease
  import opened Graph
  import opened BackupPolicy
  import opened Reducer
  import opened Runtime

  /** The commands that touch the lifecycle: phases, jobs, leases, stops and starts. */
  predicate BackupCommand(c: Command) {
    c.PersistBackupState? || IsJob(c) || c.AcquireLease? || c.ReleaseLease? || c.StopService? || c.StartService?
  }

  /** The backup commands of a list, in order. */
  function Core(cmds: seq<Command>): seq<Command> {
    if cmds == [] then [] else (if BackupCommand(cmds[0]) then [cmds[0]] else []) + Core(cmds[1..])
  }

  lemma CoreFirst(cmds: seq<Command>)
    ensures Core(cmds) ==
            if cmds == [] then [] else (if BackupCommand(cmds[0]) then [cmds[0]] else []) + Core(cmds[1..])
  {
  }

  lemma {:induction false} CoreAppend(a: seq<Command>, b: seq<Command>)
    ensures Core(a + b) == Core(a) + Core(b)
  {
    hide Core, BackupCommand;
    CoreFirst(a);
    if a == [] {
      assert a + b == b;
    } else {
      CoreFirst(a + b);
      CoreAppend(a[1..], b);
      assert (a + b)[0] == a[0] && (a + b)[1..] == a[1..] + b;
    }
  }

  lemma {:induction false} CoreOfOthers(cmds: seq<Command>)
    requires forall c :: c in cmds ==> !BackupCommand(c)
    ensures Core(cmds) == []
  {
    if cmds == [] {
    } else {
      assert !BackupCommand(cmds[0]);
      CoreOfOthers(cmds[1..]);
    }
  }

  lemma {:induction false} CoreOfAll(cmds: seq<Command>)
    requires forall c :: c in cmds ==> BackupCommand(c)
    ensures Core(cmds) == cmds
  {
    if cmds == [] {
    } else {
      assert BackupCommand(cmds[0]);
      CoreOfAll(cmds[1..]);
    }
  }

  lemma CoreOfScript(script: seq<Command>, others: seq<Command>)
    requires forall c :: c in script ==> BackupCommand(c)
    requires forall c :: c in others ==> !BackupCommand(c)
    ensures Core(script + others) == script
  {
    CoreAppend(script, others);
    CoreOfAll(script);
    CoreOfOthers(others);
  }

  // ---- Scripts ----

  function StartScript(run: RunId, entries: seq<ServiceEntry>, pre: seq<ServiceSnapshot>): seq<Command> {
    [AcquireLease(BackupRepo, run), PersistBackupState(Locked(run))]
    + StopCommands(entries, run)
    + [PersistBackupState(ResticRunning(run, pre)), ResticBackup]
  }

  const RELEASE: seq<Command> := [PersistBackupState(Idle), ReleaseLease(BackupRepo)]

  /** The phase and the commands that follow the end of a job. */
  function AfterJob(phase: BackupPhase, success: bool, verify: bool): (BackupPhase, seq<Command>) {
    match phase
    case ResticRunning(run, pre) =>
      if success then
        (RetentionRunning(run), RestoreCommands(pre) + [PersistBackupState(RetentionRunning(run)), ResticForget])
      else (Idle, RestoreCommands(pre) + RELEASE)
    case RetentionRunning(run) =>
      if success && verify then (Verifying(run), [PersistBackupState(Verifying(run)), ResticCheck]) else (Idle, RELEASE)
    case Verifying(_) => (Idle, RELEASE)
    case _ => (phase, [])
  }

  datatype Move = Calm | Starts | Completes(success: bool)

  /** The parts of the state the backup lifecycle depends on, but for the failure count. */
  ghost predicate SameBackup(a: View, b: View) {
    && a.phase == b.phase && a.held == b.held && a.pending == b.pending
    && a.nextCmdId == b.nextCmdId && a.lastBackupDay == b.lastBackupDay
  }

  ghost predicate Moves(v: View, out: Out, move: Move, cfg: Config, ctx: Ctx) {
    match move
    case Calm => SameBackup(v, out.view) && Core(out.cmds) == []
    case Starts =>
      var entries := StopEntries(cfg.services);
      && v.phase.Idle? && v.lastBackupDay != Some(ctx.wall.day)
      && Free(v.held, LEASE_TTL, BackupRepo, ctx.mono)
      && out.view.phase.ResticRunning? && out.view.phase.run == ctx.mono
      && SnapshotsOf(out.view.phase.pre, entries)
      && SameBackup(v.(phase := out.view.phase, lastBackupDay := Some(ctx.wall.day)), out.view)
      && Core(out.cmds) == StartScript(ctx.mono, entries, out.view.phase.pre)
    case Completes(success) =>
      var (phase, script) := AfterJob(v.phase, success, cfg.verify);
      && v.pending.Some?
      && SameBackup(v.(phase := phase, pending := None), out.view)
      && Core(out.cmds) == script
  }

  ghost predicate SnapshotsOf(pre: seq<ServiceSnapshot>, entries: seq<ServiceEntry>) {
    |pre| == |entries| && forall i :: 0 <= i < |pre| ==> pre[i].id == entries[i].id
  }

  // ---- The scripts are what the reducer emits ----

  lemma {:induction false} StopsAreBackup(entries: seq<ServiceEntry>, run: RunId)
    ensures forall c :: c in StopCommands(entries, run) ==> BackupCommand(c)
  {
    if entries == [] {
    } else {
      StopsAreBackup(entries[..|entries| - 1], run);
    }
  }

  lemma {:induction false} RestoresAreBackup(pre: seq<ServiceSnapshot>)
    ensures forall c :: c in RestoreCommands(pre) ==> BackupCommand(c)
  {
    if pre == [] {
    } else {
      RestoresAreBackup(pre[..|pre| - 1]);
    }
  }

  lemma StartBackupMoves(v: View, cfg: Config, ctx: Ctx)
    requires v.phase.Idle? && v.lastBackupDay != Some(ctx.wall.day)
    ensures Moves(
              v, StartBackup(v, cfg, ctx),
              if Free(v.held, LEASE_TTL, BackupRepo, ctx.mono) then Starts else Calm, cfg, ctx)
  {
    hide Core;
    if Free(v.held, LEASE_TTL, BackupRepo, ctx.mono) {
      var run, entries := ctx.mono, StopEntries(cfg.services);
      var pre := Snapshots(entries, v.services);
      CoreOfStart(run, entries, pre);
    } else {
      CoreOfOthers([]);
    }
  }

  lemma CoreOfStart(run: RunId, entries: seq<ServiceEntry>, pre: seq<ServiceSnapshot>)
    ensures Core([AcquireLease(BackupRepo, run), PersistBackupState(Locked(run)), ResticUnlock]
                 + StopCommands(entries, run)
                 + [PersistBackupState(ResticRunning(run, pre)), ResticBackup])
            == StartScript(run, entries, pre)
  {
    hide StopCommands;
    var head := [AcquireLease(BackupRepo, run), PersistBackupState(Locked(run))];
    var last := [PersistBackupState(ResticRunning(run, pre)), ResticBackup];
    var stops := StopCommands(entries, run);
    StopsAreBackup(entries, run);
    CoreOfScript(head, [ResticUnlock]);
    CoreOfAll(stops);
    CoreOfAll(last);
    assert [AcquireLease(BackupRepo, run), PersistBackupState(Locked(run)), ResticUnlock] == head + [ResticUnlock];
    CoreAppend(head + [ResticUnlock], stops);
    CoreAppend((head + [ResticUnlock]) + stops, last);
  }

  /** The end of a job emits its script, and nothing of the lifecycle after it. */
  lemma EffectScript(v: View, success: bool, cfg: Config) returns (tail: seq<Command>)
    ensures var out := BackupEffect(v, success, cfg);
            var (phase, script) := AfterJob(v.phase, success, cfg.verify);
            SameBackup(v.(phase := phase), out.view) && out.cmds == script + tail
    ensures forall c :: c in tail ==> !BackupCommand(c)
  {
    hide RestoreCommands, BackupCommand;
    var done := [SendAlert(BackupDone(success)), PublishSnapshot];
    TailsAreNoBackup(success);
    tail := [];
    var failed := if v.failures >= 2 then done + [WriteIncident(None)] else done;
    match v.phase {
      case ResticRunning(_, _) => tail := if success then [] else failed;
      case RetentionRunning(_) => tail := if !success then failed else if cfg.verify then [] else done;
      case Verifying(_) => tail := done;
      case _ =>
    }
  }

  lemma TailsAreNoBackup(success: bool)
    ensures var done := [SendAlert(BackupDone(success)), PublishSnapshot];
            forall c :: c in done + [WriteIncident(None)] ==> !BackupCommand(c)
  {
  }

  lemma EffectMoves(v: View, success: bool, cfg: Config)
    ensures var out := BackupEffect(v, success, cfg);
            var (phase, script) := AfterJob(v.phase, success, cfg.verify);
            SameBackup(v.(phase := phase), out.view) && Core(out.cmds) == script
  {
    hide Core, RestoreCommands, BackupEffect;
    var (_, script) := AfterJob(v.phase, success, cfg.verify);
    var tail := EffectScript(v, success, cfg);
    if v.phase.ResticRunning? {
      RestoresAreBackup(v.phase.pre);
    }
    CoreOfScript(script, tail);
  }

  lemma TaskMoves(v: View, task: TaskKind, cfg: Config, ctx: Ctx) returns (move: Move)
    ensures Moves(v, RunTask(v, task, cfg, ctx), move, cfg, ctx) && !move.Completes?
  {
    move := Calm;
    if task.Backup? && ShouldStart(cfg.schedule, ctx.wall, v.lastBackupDay, v.phase) {
      StartBackupMoves(v, cfg, ctx);
      move := if Free(v.held, LEASE_TTL, BackupRepo, ctx.mono) then Starts else Calm;
    } else {
      CoreOfOthers(RunTask(v, task, cfg, ctx).cmds);
    }
  }

  /** However many tasks are due, at most one backup starts. */
  lemma {:induction false} TickMoves(v: View, tasks: seq<TaskKind>, cfg: Config, ctx: Ctx) returns (move: Move)
    ensures Moves(v, HandleTick(v, tasks, cfg, ctx), move, cfg, ctx) && !move.Completes?
  {
    if tasks == [] {
      return Calm;
    }
    var before := HandleTick(v, tasks[..|tasks| - 1], cfg, ctx);
    move := TickMoves(v, tasks[..|tasks| - 1], cfg, ctx);
    var last := TaskMoves(before.view, tasks[|tasks| - 1], cfg, ctx);
    CoreAppend(before.cmds, RunTask(before.view, tasks[|tasks| - 1], cfg, ctx).cmds);
    if move == Calm {
      move := last;
    }
  }

  lemma RemediationMoves(
      v: View, a: RemediationAction, target: Option<ServiceId>, source: string, reason: string, cfg: Config,
      ctx: Ctx) returns (move: Move)
    ensures Moves(v, HandleRemediation(v, a, target, source, reason, cfg, ctx), move, cfg, ctx) && !move.Completes?
  {
    var out := HandleRemediation(v, a, target, source, reason, cfg, ctx);
    if a.TriggerBackup? && !OverLimit(v.log, a, target, ctx.mono) {
      move := TickMoves(v, [Backup], cfg, ctx);
    } else {
      move := Calm;
      CoreOfOthers(out.cmds);
    }
  }

  lemma ProbesMove(v: View, results: seq<ProbeResult>, cfg: Config, g: BuiltGraph, ctx: Ctx)
    ensures Moves(v, Reduce(v, ProbeResults(results), cfg, g, ctx), Calm, cfg, ctx)
  {
    hide Reduce;
    ProbesAreQuiet(v, results, cfg, g, ctx);
    var cmds := Reduce(v, ProbeResults(results), cfg, g, ctx).cmds;
    assert forall c :: c in cmds ==> Quiet(c) && !BackupCommand(c);
    CoreOfOthers(cmds);
  }

  /** Every event the loop delivers moves the lifecycle in one of the three ways. */
  lemma EventMoves(v: View, e: Event, cfg: Config, g: BuiltGraph, ctx: Ctx) returns (move: Move)
    requires !e.StartupRecovery?
    ensures Moves(v, Reduce(v, e, cfg, g, ctx), move, cfg, ctx)
    ensures move.Completes? <==> !v.shuttingDown && e.EffectCompleted? && v.pending == Some(e.cmdId)
  {
    hide HandleProbes, HandleTick, HandleRemediation, HandleEffect, Observe, Core;
    var out := Reduce(v, e, cfg, g, ctx);
    move := Calm;
    if v.shuttingDown {
      CoreOfOthers(out.cmds);
      return;
    }
    match e {
      case Tick(tasks) => move := TickMoves(v, tasks, cfg, ctx);
      case ProbeResults(results) => ProbesMove(v, results, cfg, g, ctx);
      case EffectCompleted(id, result) => move := CompletionMoves(v, id, result, cfg, ctx);
      case HttpCommand(request) =>
        match request {
          case Trigger(task) => move := TickMoves(v, [task], cfg, ctx);
          case Remediate(a, target, source, reason) => move := RemediationMoves(v, a, target, source, reason, cfg, ctx);
        }
      case _ => CoreOfOthers(out.cmds);
    }
  }

  lemma CompletionMoves(v: View, id: nat, result: EffectResult, cfg: Config, ctx: Ctx) returns (move: Move)
    ensures Moves(v, HandleEffect(v, id, result, cfg), move, cfg, ctx)
    ensures move.Completes? <==> v.pending == Some(id)
  {
    if v.pending == Some(id) {
      EffectMoves(v.(pending := None), result.Success?, cfg);
      move := Completes(result.Success?);
    } else {
      CoreOfOthers([NotifyWatchdog]);
      move := Calm;
    }
  }
}
