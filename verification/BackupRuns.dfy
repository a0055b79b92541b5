/** One step of a run, as the backup lifecycle sees it. */
module BackupRuns {
  import opened Model
  import opened Wrappers
  import opened Graph
  import opened BackupPolicy
  import opened Reducer
  import opened Runtime
  import opened World
  import opened BackupMoves

  /** A delivered event: the machine but for its state stays, the queue is what the
      reducer emitted, and a started run is remembered. */
  lemma DeliverStep(w: World, e: Event, ctx: Ctx, cfg: Config, g: BuiltGraph) returns (out: Out, move: Move)
    requires Enabled(w, Deliver(e, ctx))
    ensures Moves(w.m.view, out, move, cfg, At(w.m.clock, ctx))
    ensures move.Completes? <==> !w.m.view.shuttingDown && e.EffectCompleted? && w.m.view.pending == Some(e.cmdId)
    ensures Step(w, Deliver(e, ctx), cfg, g) == AfterDeliver(w, ctx, out, move)
    ensures out == Delivered(w, e, ctx, cfg, g)
  {
    hide Reduce, Core, StartScript;
    out := Delivered(w, e, ctx, cfg, g);
    move := EventMoves(w.m.view, e, cfg, g, At(w.m.clock, ctx));
  }

  ghost function AfterDeliver(w: World, ctx: Ctx, out: Out, move: Move): World
    requires move.Starts? ==> out.view.phase.ResticRunning?
  {
    var m := w.m.(view := out.view, clock := Max(w.m.clock, ctx.mono));
    if move.Starts? then
      var run := BackupRun(out.view.phase.run, out.view.phase.pre);
      World(m, out.cmds, w.promised, Some(run), w.starts + [ctx.wall], true)
    else World(m, out.cmds, w.promised, w.lastRun, w.starts, true)
  }

  /** A command outside the lifecycle: nothing the lifecycle depends on moves, but that a
      restarted service is no longer stopped. */
  ghost predicate Aside(w: World, w': World) {
    && Core(w'.queue) == Core(w.queue)
    && SameBackup(w.m.view, w'.m.view)
    && w'.m.disk == w.m.disk && w'.m.stopped <= w.m.stopped && w'.m.spawnFailed == w.m.spawnFailed
    && w'.m.clock >= w.m.clock
    && w'.promised == w.promised && w'.lastRun == w.lastRun && w'.starts == w.starts
  }

  /** A lifecycle command at the head of the queue. */
  ghost predicate HeadExecuted(w: World, w': World, r: Reading) {
    && w.queue != []
    && w'.m == Effect(w.m, w.queue[0], r)
    && Core(w.queue) == [w.queue[0]] + Core(w'.queue)
    && w'.promised == PromisedAfter(w.promised, w.queue[0]) && w'.lastRun == w.lastRun && w'.starts == w.starts
  }

  lemma ExecStep(w: World, r: Reading, cfg: Config, g: BuiltGraph)
    requires Enabled(w, Exec(r))
    ensures var w' := Step(w, Exec(r), cfg, g);
            if BackupCommand(w.queue[0]) then HeadExecuted(w, w', r) else Aside(w, w')
  {
    hide Reduce;
    var c := w.queue[0];
    NestedCommandsAreQuiet(w.m, c, r, cfg, g);
    var nested := ExecOne(w.m, c, r, cfg, g).1;
    assert forall n :: n in nested ==> Quiet(n) && !BackupCommand(n);
    CoreOfOthers(nested);
    CoreAppend(nested, w.queue[1..]);
  }

  // ---- Compensation commands ----

  function StartCommands(pre: seq<ServiceSnapshot>): seq<Command> {
    if pre == [] then []
    else
      var snap := pre[|pre| - 1];
      StartCommands(pre[..|pre| - 1]) + if snap.wasRunning then [StartService(snap.id, snap.unit)] else []
  }

  /** The lifecycle commands of startup recovery. */
  function RecoveryScript(disk: BackupPhase): seq<Command> {
    if disk.Idle? then []
    else
      var pre := disk.PreBackupServices();
      (if pre.Some? then StartCommands(pre.value) else []) + [PersistBackupState(Idle)]
  }

  lemma CommandsAppend(a: seq<CompensationAction>, b: seq<CompensationAction>)
    ensures CompensationCommands(a + b) == CompensationCommands(a) + CompensationCommands(b)
  {
  }

  lemma {:induction false} RestartsAreStarts(pre: seq<ServiceSnapshot>)
    ensures CompensationCommands(Restarts(pre)) == StartCommands(pre)
    ensures forall c :: c in StartCommands(pre) ==> c.StartService?
  {
    if pre == [] {
    } else {
      var rest, last := pre[..|pre| - 1], pre[|pre| - 1];
      RestartsAreStarts(rest);
      RestartsAppend(rest, last);
      assert rest + [last] == pre;
      CommandsAppend(Restarts(rest), if last.wasRunning then [RestartStopped(last.id, last.unit)] else []);
    }
  }

  /** Startup recovery: commands outside the lifecycle, the script, and an alert. */
  lemma RecoveryCommands(v: View, disk: BackupPhase) returns (head: seq<Command>)
    requires !disk.Idle?
    ensures HandleStartupRecovery(v, disk).cmds == (head + RecoveryScript(disk)) + [SendAlert(CrashRecovered(disk))]
    ensures forall c :: c in head ==> !BackupCommand(c)
  {
    hide Restarts, StartCommands, CompensationCommands;
    var unlock := if disk.NeedsResticUnlock() then [UnlockRepository] else [];
    var pre := disk.PreBackupServices();
    var restore :=
      if !disk.NeedsServiceRecovery() then []
      else if pre.Some? then Restarts(pre.value)
      else [ReportInvariantViolation];
    CommandsAppend(unlock + restore, [ResetToIdle]);
    CommandsAppend(unlock, restore);
    OneCommand(UnlockRepository);
    OneCommand(ReportInvariantViolation);
    OneCommand(ResetToIdle);
    head := CompensationCommands(unlock);
    if pre.Some? {
      RestartsAreStarts(pre.value);
    } else {
      head := CompensationCommands(unlock) + CompensationCommands(restore);
    }
  }

  lemma OneCommand(a: CompensationAction)
    ensures CompensationCommands([]) == [] && CompensationCommands([a]) == [CompensationCommand(a)]
  {
  }

  lemma RecoveryCore(v: View, disk: BackupPhase)
    ensures var out := HandleStartupRecovery(v, disk);
            Core(out.cmds) == RecoveryScript(disk) && out.view == if disk.Idle? then v else v.(phase := Idle)
  {
    hide Core, Restarts, StartCommands, CompensationCommands;
    CoreOfOthers([]);
    if !disk.Idle? {
      var script, alert := RecoveryScript(disk), [SendAlert(CrashRecovered(disk))];
      var head := RecoveryCommands(v, disk);
      if disk.PreBackupServices().Some? {
        RestartsAreStarts(disk.PreBackupServices().value);
      }
      CoreAppend(head + script, alert);
      CoreAppend(head, script);
      CoreOfOthers(head);
      CoreOfOthers(alert);
      CoreOfAll(script);
    }
  }

  /** A process that has just started. */
  lemma CrashStep(w: World, ctx: Ctx, maintenance: map<ServiceId, nat>, cfg: Config, g: BuiltGraph)
    ensures var w' := Step(w, Crash(ctx, maintenance), cfg, g);
            w' == Boot(w.m.disk, w.m.stopped, w.promised, ctx.mono, maintenance, cfg)
  {
    hide Reduce, Boot;
  }

  lemma BootState(
      disk: BackupPhase, stopped: set<ServiceId>, promised: set<ServiceId>, mono: nat,
      maintenance: map<ServiceId, nat>, cfg: Config)
    ensures var w := Boot(disk, stopped, promised, mono, maintenance, cfg);
            && Core(w.queue) == RecoveryScript(disk)
            && w.m == Machine(InitialView(cfg, maintenance), disk, stopped, false, mono)
            && w.promised == promised && w.lastRun == None && w.starts == []
  {
    hide Core;
    RecoveryCore(InitialView(cfg, maintenance), disk);
  }
}
