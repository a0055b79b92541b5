/** When a backup starts and what its commands are, written out over the configuration, the
    clock and the snapshots. */
module BackupScripts {
  import opened Model
  import opened Wrappers
  import opened Schedule
  import opened History
  import opened Lease
  import opened Graph
  import opened BackupPolicy
  import opened Reducer
  import opened Runtime
  import opened World
  import opened BackupMoves
  import opened BackupConsistency
  import opened BackupRuns

  // ---- Lists picked by index ----

  /** The chosen indices, each once, in order. */
  ghost predicate Selects(ks: seq<nat>, chosen: set<nat>) {
    && (forall i, j :: 0 <= i < j < |ks| ==> ks[i] < ks[j])
    && forall k :: k in ks <==> k in chosen
  }

  lemma SelectsOneMore(ks: seq<nat>, chosen: set<nat>, k: nat)
    requires Selects(ks, chosen) && forall i :: i in chosen ==> i < k
    ensures Selects(ks + [k], chosen + {k})
  {
    forall i | 0 <= i < |ks|
      ensures ks[i] < k
    {
      assert ks[i] in ks;
    }
  }

  // ---- Which services are stopped ----

  ghost function StopIndices(services: seq<ServiceEntry>): set<nat> {
    set k: nat | k < |services| && services[k].backupStop
  }

  lemma {:induction false} StopEntriesByIndex(services: seq<ServiceEntry>) returns (ks: seq<nat>)
    ensures Selects(ks, StopIndices(services)) && |StopEntries(services)| == |ks|
    ensures forall j :: 0 <= j < |ks| ==> ks[j] < |services| && StopEntries(services)[j] == services[ks[j]]
  {
    if services == [] {
      ks := [];
    } else {
      var n := |services| - 1;
      ks := StopEntriesByIndex(services[..n]);
      if services[n].backupStop {
        assert StopIndices(services) == StopIndices(services[..n]) + {n};
        SelectsOneMore(ks, StopIndices(services[..n]), n);
        ks := ks + [n];
      } else {
        assert StopIndices(services) == StopIndices(services[..n]);
      }
    }
  }

  lemma {:induction false} StopCommandsByIndex(entries: seq<ServiceEntry>, run: RunId)
    ensures |StopCommands(entries, run)| == 2 * |entries|
    ensures forall j :: 0 <= j < |entries| ==>
              && StopCommands(entries, run)[2 * j] == AcquireLease(Service(entries[j].id), run)
              && StopCommands(entries, run)[2 * j + 1] == StopService(entries[j].id, entries[j].unit, ForBackup)
  {
    if entries == [] {
    } else {
      var rest, e := entries[..|entries| - 1], entries[|entries| - 1];
      StopCommandsByIndex(rest, run);
      var before := StopCommands(rest, run);
      var last := [AcquireLease(Service(e.id), run), StopService(e.id, e.unit, ForBackup)];
      assert StopCommands(entries, run) == before + last;
      hide StopCommands;
      forall j | 0 <= j < |entries|
        ensures (before + last)[2 * j] == AcquireLease(Service(entries[j].id), run)
        ensures (before + last)[2 * j + 1] == StopService(entries[j].id, entries[j].unit, ForBackup)
      {
        if j < |rest| {
          assert rest[j] == entries[j];
        }
      }
    }
  }

  /** The lease table does not keep others off the resource. */
  ghost predicate Unleased(held: Held, r: ResourceId, now: nat) {
    r in held ==> now >= held[r].acquired + 7200
  }

  lemma FreeIsUnleased(held: Held, r: ResourceId, now: nat)
    ensures Free(held, LEASE_TTL, r, now) <==> Unleased(held, r, now)
  {
  }

  /** The commands of a backup start: the repository leased and unlocked under a persisted
      lock, each service configured to be stopped leased and stopped, once and in order, and
      the snapshot persisted before the job starts. */
  ghost predicate StartLayout(
      cmds: seq<Command>, run: RunId, services: seq<ServiceEntry>, ks: seq<nat>, pre: seq<ServiceSnapshot>)
    requires forall j :: 0 <= j < |ks| ==> ks[j] < |services|
  {
    var n := |ks|;
    && |cmds| == 2 * n + 5
    && cmds[0] == AcquireLease(BackupRepo, run) && cmds[1] == PersistBackupState(Locked(run)) && cmds[2] == ResticUnlock
    && (forall j :: 0 <= j < n ==>
          && cmds[3 + 2 * j] == AcquireLease(Service(services[ks[j]].id), run)
          && cmds[4 + 2 * j] == StopService(services[ks[j]].id, services[ks[j]].unit, ForBackup))
    && cmds[2 * n + 3] == PersistBackupState(ResticRunning(run, pre)) && cmds[2 * n + 4] == ResticBackup
  }

  /** What was running when the backup started. */
  ghost predicate Recorded(
      pre: seq<ServiceSnapshot>, services: seq<ServiceEntry>, ks: seq<nat>, states: map<ServiceId, SvcState>)
    requires forall j :: 0 <= j < |ks| ==> ks[j] < |services|
  {
    && |pre| == |ks|
    && forall j :: 0 <= j < |ks| ==>
         var e := services[ks[j]];
         pre[j] == ServiceSnapshot(e.id, e.id in states && states[e.id].status.Healthy?, e.unit)
  }

  lemma StartIsLaidOut(
      run: RunId, services: seq<ServiceEntry>, ks: seq<nat>, entries: seq<ServiceEntry>, pre: seq<ServiceSnapshot>)
    requires |entries| == |ks| && forall j :: 0 <= j < |ks| ==> ks[j] < |services| && entries[j] == services[ks[j]]
    ensures StartLayout(
              [AcquireLease(BackupRepo, run), PersistBackupState(Locked(run)), ResticUnlock]
              + StopCommands(entries, run) + [PersistBackupState(ResticRunning(run, pre)), ResticBackup],
              run, services, ks, pre)
  {
    hide StopCommands;
    StopCommandsByIndex(entries, run);
    var stops := StopCommands(entries, run);
    var lock := [AcquireLease(BackupRepo, run), PersistBackupState(Locked(run)), ResticUnlock];
    var cmds := lock + stops + [PersistBackupState(ResticRunning(run, pre)), ResticBackup];
    assert forall i :: 0 <= i < |stops| ==> cmds[3 + i] == stops[i];
  }

  /** A started backup stops exactly the services configured for it. */
  lemma StartIsExact(v: View, cfg: Config, ctx: Ctx) returns (ks: seq<nat>)
    ensures Selects(ks, StopIndices(cfg.services)) && forall j :: 0 <= j < |ks| ==> ks[j] < |cfg.services|
    ensures var out := StartBackup(v, cfg, ctx);
            if Unleased(v.held, BackupRepo, ctx.mono) then
              && out.view.phase.ResticRunning? && out.view.phase.run == ctx.mono
              && out.view == v.(phase := out.view.phase, lastBackupDay := Some(ctx.wall.day))
              && Recorded(out.view.phase.pre, cfg.services, ks, v.services)
              && StartLayout(out.cmds, ctx.mono, cfg.services, ks, out.view.phase.pre)
            else out == Out(v, [])
  {
    hide StopEntries, StopCommands, Selects, StartLayout, Unleased, Free;
    FreeIsUnleased(v.held, BackupRepo, ctx.mono);
    ks := StopEntriesByIndex(cfg.services);
    var entries := StopEntries(cfg.services);
    StartIsLaidOut(ctx.mono, cfg.services, ks, entries, Snapshots(entries, v.services));
  }

  // ---- When a backup starts ----

  /** The clock shows the minute given, or one of the four after it. */
  ghost predicate WithinFive(wall: WallClock, hour: nat, minute: nat) {
    hour * 60 + minute <= wall.hour * 60 + wall.minute <= hour * 60 + minute + 4
  }

  /** The schedule asks for a run now, and none was made on this day of the month. */
  ghost predicate DueNow(schedule: Option<Rule>, wall: WallClock, lastDay: Option<nat>) {
    && lastDay != Some(wall.day)
    && match schedule
       case Some(Daily(h, m)) => WithinFive(wall, h, m)
       case Some(Weekly(weekday, h, m)) => wall.weekday == weekday && WithinFive(wall, h, m)
       case Some(OddDays(h, m)) => wall.day % 2 == 1 && WithinFive(wall, h, m)
       case _ => false
  }

  lemma DueIsDueNow(schedule: Option<Rule>, wall: WallClock, lastDay: Option<nat>)
    ensures (schedule.Some? && IsDue(schedule.value, wall, lastDay)) <==> DueNow(schedule, wall, lastDay)
  {
  }

  ghost predicate MayStart(v: View, cfg: Config, ctx: Ctx) {
    v.phase.Idle? && Unleased(v.held, BackupRepo, ctx.mono) && DueNow(cfg.schedule, ctx.wall, v.lastBackupDay)
  }

  lemma TaskStarts(v: View, task: TaskKind, cfg: Config, ctx: Ctx)
    ensures var after := RunTask(v, task, cfg, ctx).view;
            if task.Backup? && MayStart(v, cfg, ctx) then after.phase.ResticRunning?
            else after.phase == v.phase && after.held == v.held && after.lastBackupDay == v.lastBackupDay
  {
    hide IsDue, DueNow, StopEntries, StopCommands, Unleased;
    DueIsDueNow(cfg.schedule, ctx.wall, v.lastBackupDay);
    FreeIsUnleased(v.held, BackupRepo, ctx.mono);
  }

  lemma {:induction false} TickStarts(v: View, tasks: seq<TaskKind>, cfg: Config, ctx: Ctx)
    ensures var after := HandleTick(v, tasks, cfg, ctx).view;
            if TaskKind.Backup in tasks && MayStart(v, cfg, ctx) then after.phase.ResticRunning?
            else after.phase == v.phase && after.held == v.held && after.lastBackupDay == v.lastBackupDay
  {
    hide RunTask, DueNow, Unleased;
    if tasks == [] {
    } else {
      var rest, last := tasks[..|tasks| - 1], tasks[|tasks| - 1];
      TickStarts(v, rest, cfg, ctx);
      TaskStarts(HandleTick(v, rest, cfg, ctx).view, last, cfg, ctx);
      assert tasks == rest + [last];
    }
  }

  /** The event asks for a backup: a timer, an HTTP trigger, or an admitted request. */
  ghost predicate AsksForBackup(v: View, e: Event, now: nat) {
    match e
    case Tick(tasks) => TaskKind.Backup in tasks
    case HttpCommand(Trigger(task)) => task.Backup?
    case HttpCommand(Remediate(a, target, _, _)) => a.TriggerBackup? && !OverLimit(v.log, a, target, now)
    case _ => false
  }

  /** A step starts a backup exactly if it delivers an event that asks for one, none is
      running, the repository is not leased, and the schedule is due. */
  lemma BackupStartsExactly(w: World, a: Action, cfg: Config, g: BuiltGraph)
    requires !a.Crash?
    ensures |Step(w, a, cfg, g).starts| > |w.starts| <==>
            && Enabled(w, a) && a.Deliver?
            && AsksForBackup(w.m.view, a.event, At(w.m.clock, a.ctx).mono)
            && MayStart(w.m.view, cfg, At(w.m.clock, a.ctx))
  {
    hide MayStart, HandleTick, HandleProbes, HandleRemediation, HandleEffect, Observe, OverLimit;
    if Enabled(w, a) && a.Deliver? {
      var v, ctx := w.m.view, At(w.m.clock, a.ctx);
      if a.event.Tick? {
        TickStarts(v, a.event.dueTasks, cfg, ctx);
        IdleToStart(v, cfg, ctx);
      } else if a.event.HttpCommand? {
        RequestStarts(v, a.event.request, cfg, g, ctx);
        IdleToStart(v, cfg, ctx);
      } else if v.phase.Idle? {
        OtherEventStartsNone(v, a.event, cfg, g, ctx);
      }
    }
  }

  lemma IdleToStart(v: View, cfg: Config, ctx: Ctx)
    ensures MayStart(v, cfg, ctx) ==> v.phase.Idle?
  {
  }

  lemma RequestStarts(v: View, request: CommandRequest, cfg: Config, g: BuiltGraph, ctx: Ctx)
    requires !v.shuttingDown
    ensures var after := Reduce(v, HttpCommand(request), cfg, g, ctx).view;
            if AsksForBackup(v, HttpCommand(request), ctx.mono) && MayStart(v, cfg, ctx) then after.phase.ResticRunning?
            else after.phase == v.phase
  {
    hide MayStart, HandleTick, OverLimit, Pushed, Model.FindIn;
    if request.Trigger? {
      TickStarts(v, [request.task], cfg, ctx);
    } else {
      TickStarts(v, [TaskKind.Backup], cfg, ctx);
    }
  }

  lemma OtherEventStartsNone(v: View, e: Event, cfg: Config, g: BuiltGraph, ctx: Ctx)
    requires !e.Tick? && !e.HttpCommand? && !e.StartupRecovery? && v.phase.Idle?
    ensures !Reduce(v, e, cfg, g, ctx).view.phase.ResticRunning?
  {
    hide Observe, RestoreCommands, ApplyDecisions;
  }

  /** An HTTP trigger and an admitted request for a backup emit its start script exactly if
      it may start, and nothing otherwise; neither gets past the schedule or the lease. */
  lemma TriggerIsCarriedOut(
      v: View, target: Option<ServiceId>, source: string, reason: string, cfg: Config, g: BuiltGraph, ctx: Ctx)
    returns (ks: seq<nat>)
    requires !v.shuttingDown && !OverLimit(v.log, TriggerBackup, target, ctx.mono)
    ensures Selects(ks, StopIndices(cfg.services)) && forall j :: 0 <= j < |ks| ==> ks[j] < |cfg.services|
    ensures var asked := Reduce(v, HttpCommand(Trigger(TaskKind.Backup)), cfg, g, ctx);
            var remedied := Reduce(v, HttpCommand(Remediate(TriggerBackup, target, source, reason)), cfg, g, ctx);
            && remedied.cmds == asked.cmds && remedied.view == asked.view.(log := remedied.view.log)
            && if MayStart(v, cfg, ctx) then
                 && asked.view.phase.ResticRunning?
                 && StartLayout(asked.cmds, ctx.mono, cfg.services, ks, asked.view.phase.pre)
                 && Recorded(asked.view.phase.pre, cfg.services, ks, v.services)
               else asked == Out(v, [])
  {
    hide StartBackup, OverLimit, Pushed, StartLayout, Recorded, Selects, IsDue, DueNow, Unleased;
    ks := StartIsExact(v, cfg, ctx);
    DueIsDueNow(cfg.schedule, ctx.wall, v.lastBackupDay);
    OneTask(v, cfg, ctx);
  }

  lemma OneTask(v: View, cfg: Config, ctx: Ctx)
    ensures HandleTick(v, [TaskKind.Backup], cfg, ctx) == RunTask(v, TaskKind.Backup, cfg, ctx)
  {
    hide RunTask;
    var due := [TaskKind.Backup];
    assert due[..0] == [];
    assert HandleTick(v, [], cfg, ctx) == Out(v, []);
  }

  // ---- What a run's queue stops ----

  lemma {:induction false} CoreMembers(cmds: seq<Command>, c: Command)
    ensures c in Core(cmds) <==> c in cmds && BackupCommand(c)
  {
    hide BackupCommand;
    CoreFirst(cmds);
    if cmds == [] {
    } else {
      CoreMembers(cmds[1..], c);
      assert cmds == [cmds[0]] + cmds[1..];
    }
  }

  /** The entry is configured to be stopped, under this id and unit. */
  predicate Stops(e: ServiceEntry, id: ServiceId, unit: string) {
    e.backupStop && e.id == id && e.unit == unit
  }

  /** One of the two commands that stop a service configured for it. */
  predicate StopsBy(e: ServiceEntry, run: RunId, c: Command) {
    e.backupStop && (c == AcquireLease(Service(e.id), run) || c == StopService(e.id, e.unit, ForBackup))
  }

  lemma StopsUnfold(services: seq<ServiceEntry>, run: RunId)
    requires services != []
    ensures var rest, e := services[..|services| - 1], services[|services| - 1];
            StopCommands(StopEntries(services), run) ==
            StopCommands(StopEntries(rest), run)
            + if e.backupStop then [AcquireLease(Service(e.id), run), StopService(e.id, e.unit, ForBackup)] else []
  {
    var rest, e := services[..|services| - 1], services[|services| - 1];
    var entries := StopEntries(services);
    if e.backupStop {
      assert entries[..|entries| - 1] == StopEntries(rest) && entries[|entries| - 1] == e;
    } else {
      assert entries == StopEntries(rest);
    }
  }

  ghost predicate SomeStops(services: seq<ServiceEntry>, run: RunId, c: Command) {
    exists k :: 0 <= k < |services| && StopsBy(services[k], run, c)
  }

  lemma SomeUnfolds(services: seq<ServiceEntry>, run: RunId, c: Command)
    requires services != []
    ensures SomeStops(services, run, c) <==>
            SomeStops(services[..|services| - 1], run, c) || StopsBy(services[|services| - 1], run, c)
  {
    hide StopsBy;
    var rest := services[..|services| - 1];
    assert forall k :: 0 <= k < |rest| ==> services[k] == rest[k];
  }

  lemma {:induction false} StopsOfEntries(services: seq<ServiceEntry>, run: RunId, c: Command)
    ensures c in StopCommands(StopEntries(services), run) <==> SomeStops(services, run, c)
  {
    if services == [] {
    } else {
      hide StopEntries, StopCommands, SomeStops;
      var rest, e := services[..|services| - 1], services[|services| - 1];
      var more := if e.backupStop then [AcquireLease(Service(e.id), run), StopService(e.id, e.unit, ForBackup)] else [];
      StopsOfEntries(rest, run, c);
      StopsUnfold(services, run);
      SomeUnfolds(services, run, c);
      InEither(StopCommands(StopEntries(rest), run), more, c);
    }
  }

  lemma InEither(a: seq<Command>, b: seq<Command>, c: Command)
    ensures c in a + b <==> c in a || c in b
  {
  }

  lemma ScriptStops(
      run: RunId, services: seq<ServiceEntry>, pre: seq<ServiceSnapshot>, id: ServiceId, unit: string, cause: Cause)
    ensures var script := StartScript(run, StopEntries(services), pre);
            && (StopService(id, unit, cause) in script <==>
                cause.ForBackup? && exists k :: 0 <= k < |services| && Stops(services[k], id, unit))
            && (AcquireLease(Service(id), run) in script <==>
                exists k :: 0 <= k < |services| && services[k].backupStop && services[k].id == id)
  {
    hide StopEntries, StopCommands;
    StopsOfEntries(services, run, StopService(id, unit, cause));
    StopsOfEntries(services, run, AcquireLease(Service(id), run));
    assert forall k :: 0 <= k < |services| && Stops(services[k], id, unit) ==>
        StopsBy(services[k], run, StopService(id, unit, ForBackup));
  }

  /** Once a step starts a backup, the queue stops and leases exactly the services that are
      configured to be stopped, under their configured units. */
  lemma BackupStopsExactly(
      w: World, a: Action, cfg: Config, g: BuiltGraph, id: ServiceId, unit: string, cause: Cause)
    requires !a.Crash? && |Step(w, a, cfg, g).starts| > |w.starts|
    ensures var w', services := Step(w, a, cfg, g), cfg.services;
            && (StopService(id, unit, cause) in w'.queue <==>
                cause.ForBackup? && exists k :: 0 <= k < |services| && Stops(services[k], id, unit))
            && (AcquireLease(Service(id), w'.m.clock) in w'.queue <==>
                exists k :: 0 <= k < |services| && services[k].backupStop && services[k].id == id)
  {
    hide Step, Core, StopEntries, StartScript;
    var out, move := StartedStep(w, a, cfg, g);
    var run, pre := At(w.m.clock, a.ctx).mono, out.view.phase.pre;
    CoreMembers(out.cmds, StopService(id, unit, cause));
    CoreMembers(out.cmds, AcquireLease(Service(id), run));
    ScriptStops(run, cfg.services, pre, id, unit, cause);
  }

  lemma StartedStep(w: World, a: Action, cfg: Config, g: BuiltGraph) returns (out: Out, move: Move)
    requires !a.Crash? && |Step(w, a, cfg, g).starts| > |w.starts|
    ensures a.Deliver? && move == Starts && Moves(w.m.view, out, move, cfg, At(w.m.clock, a.ctx))
    ensures Step(w, a, cfg, g) == AfterDeliver(w, a.ctx, out, move)
  {
    hide Reduce, Core;
    if a.Deliver? {
      out, move := DeliverStep(w, a.event, a.ctx, cfg, g);
    } else {
      assert false;
    }
  }

  // ---- What a completion restores and reports ----

  ghost function RunningIndices(pre: seq<ServiceSnapshot>): set<nat> {
    set k: nat | k < |pre| && pre[k].wasRunning
  }

  /** The restore starts exactly the services the snapshot found running, each under its
      unit and in order, and releases its lease right after. */
  lemma {:induction false} RestoreIsExact(pre: seq<ServiceSnapshot>) returns (ks: seq<nat>)
    ensures Selects(ks, RunningIndices(pre)) && |RestoreCommands(pre)| == 2 * |ks|
    ensures forall j :: 0 <= j < |ks| ==>
              && ks[j] < |pre|
              && RestoreCommands(pre)[2 * j] == StartService(pre[ks[j]].id, pre[ks[j]].unit)
              && RestoreCommands(pre)[2 * j + 1] == ReleaseLease(Service(pre[ks[j]].id))
  {
    if pre == [] {
      ks := [];
    } else {
      var n := |pre| - 1;
      ks := RestoreIsExact(pre[..n]);
      if pre[n].wasRunning {
        assert RunningIndices(pre) == RunningIndices(pre[..n]) + {n};
        SelectsOneMore(ks, RunningIndices(pre[..n]), n);
        ks := ks + [n];
      } else {
        assert RunningIndices(pre) == RunningIndices(pre[..n]);
      }
    }
  }

  /** The completion that ends a run, and no other, reports the backup as done, well exactly
      if its job succeeded; one that is not pending only feeds the watchdog. */
  lemma CompletionReports(v: View, id: nat, result: EffectResult, cfg: Config, success: bool)
    ensures var out := HandleEffect(v, id, result, cfg);
            && (SendAlert(BackupDone(success)) in out.cmds <==>
                !v.phase.Idle? && out.view.phase.Idle? && success == result.Success?)
            && (PublishSnapshot in out.cmds <==> !v.phase.Idle? && out.view.phase.Idle?)
            && (NotifyWatchdog in out.cmds <==> v.pending != Some(id))
  {
    hide RestoreCommands;
    var pre := v.phase.PreBackupServices();
    if pre.Some? {
      RestoresStartNothing(pre.value);
    }
    var alert := SendAlert(BackupDone(success));
    assert pre.Some? ==>
        && alert !in RestoreCommands(pre.value) && PublishSnapshot !in RestoreCommands(pre.value)
        && NotifyWatchdog !in RestoreCommands(pre.value);
  }

  /** The lifecycle's list of services to start holds exactly those the snapshot found
      running, in order and untried, and its list to verify the same ones. */
  lemma LifecycleRestores(phase: BackupPhase, run: RunId, pre: seq<ServiceSnapshot>, verify: bool)
    returns (ks: seq<nat>)
    ensures Selects(ks, RunningIndices(pre)) && forall j :: 0 <= j < |ks| ==> ks[j] < |pre|
    ensures phase.ResticRunning? ==>
              var next := NextPhase(phase, run, pre, verify);
              && next.ServicesStarting? && next.run == run && |next.remaining| == |ks|
              && forall j :: 0 <= j < |ks| ==>
                   next.remaining[j] == ServiceRestore(pre[ks[j]].id, pre[ks[j]].unit, 0, false)
    ensures phase.ServicesStarting? ==>
              var next := NextPhase(phase, run, pre, verify);
              && next.ServicesVerifying? && next.run == run && |next.started| == |ks|
              && forall j :: 0 <= j < |ks| ==> next.started[j] == pre[ks[j]].id
  {
    hide Running;
    ks := RunningByIndex(pre);
  }

  lemma {:induction false} RunningByIndex(pre: seq<ServiceSnapshot>) returns (ks: seq<nat>)
    ensures Selects(ks, RunningIndices(pre)) && |Running(pre)| == |ks|
    ensures forall j :: 0 <= j < |ks| ==> ks[j] < |pre| && Running(pre)[j] == pre[ks[j]]
  {
    if pre == [] {
      ks := [];
    } else {
      var n := |pre| - 1;
      ks := RunningByIndex(pre[..n]);
      if pre[n].wasRunning {
        assert RunningIndices(pre) == RunningIndices(pre[..n]) + {n};
        SelectsOneMore(ks, RunningIndices(pre[..n]), n);
        ks := ks + [n];
      } else {
        assert RunningIndices(pre) == RunningIndices(pre[..n]);
      }
    }
  }
}
