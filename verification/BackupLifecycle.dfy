/** Theorems about whole runs of the backup lifecycle. */
module BackupLifecycle {
  import opened Model
  import opened Wrappers
  import opened Schedule
  import opened Graph
  import opened BackupPolicy
  import opened Reducer
  import opened Runtime
  import opened World
  import opened BackupMoves
  import opened BackupRuns
  import opened BackupConsistency

  /** Everything that can be reached from a process start, whatever was left on disk. */
  ghost function Daemon(
      disk: BackupPhase, stopped: set<ServiceId>, mono: nat, maintenance: map<ServiceId, nat>, acts: seq<Action>,
      cfg: Config, g: BuiltGraph): World
  {
    Run(Boot(disk, stopped, Covered(disk), mono, maintenance, cfg), acts, cfg, g)
  }

  /** Whenever the executor has finished an event: the phase is one of the four lasting
      ones and equals the phase on disk; a job is pending exactly when a run is active and
      every worker spawned, under an id already issued; and a failed spawn leaves the run
      active with nothing pending. */
  lemma EventsLeaveAgreement(
      disk: BackupPhase, stopped: set<ServiceId>, mono: nat, maintenance: map<ServiceId, nat>, acts: seq<Action>,
      cfg: Config, g: BuiltGraph)
    ensures var w := Daemon(disk, stopped, mono, maintenance, acts, cfg, g);
            var v := w.m.view;
            w.queue == [] ==>
              && Lasting(v.phase) && w.m.disk == v.phase
              && (v.pending.Some? <==> !v.phase.Idle? && !w.m.spawnFailed)
              && (w.m.spawnFailed ==> !v.phase.Idle?)
              && (v.pending.Some? ==> v.pending.value < v.nextCmdId)
  {
    hide Run, Boot;
    ConsistentBoot(disk, stopped, Covered(disk), mono, maintenance, cfg);
    ConsistentRun(Boot(disk, stopped, Covered(disk), mono, maintenance, cfg), acts, cfg, g);
  }

  // ---- Completions ----

  predicate NoCrash(acts: seq<Action>) {
    forall a :: a in acts ==> !a.Crash?
  }

  lemma IdStepsUp(w: World, id: nat, a: Action, cfg: Config, g: BuiltGraph)
    requires !a.Crash? && id < w.m.view.nextCmdId && w.m.view.pending != Some(id)
    ensures var v := Step(w, a, cfg, g).m.view;
            id < v.nextCmdId && v.pending != Some(id)
  {
    hide Reduce, ExecOne, Core, StartScript, AfterJob;
    if Enabled(w, a) {
      match a
      case Deliver(e, ctx) =>
        var _, _ := DeliverStep(w, e, ctx, cfg, g);
      case Exec(r) =>
        ExecStep(w, r, cfg, g);
    }
  }

  /** An id that is issued and no longer pending is never pending again in this process. */
  lemma {:induction false} SpentIdStaysSpent(w: World, id: nat, acts: seq<Action>, cfg: Config, g: BuiltGraph)
    requires NoCrash(acts) && id < w.m.view.nextCmdId && w.m.view.pending != Some(id)
    ensures var v := Run(w, acts, cfg, g).m.view;
            id < v.nextCmdId && v.pending != Some(id)
  {
    hide Step;
    if acts == [] {
    } else {
      SpentIdStaysSpent(w, id, acts[..|acts| - 1], cfg, g);
      IdStepsUp(Run(w, acts[..|acts| - 1], cfg, g), id, acts[|acts| - 1], cfg, g);
    }
  }

  lemma OtherCompletionIsIgnored(w: World, a: Action, cfg: Config, g: BuiltGraph)
    requires Enabled(w, a) && a.Deliver? && a.event.EffectCompleted?
    requires w.m.view.pending != Some(a.event.cmdId)
    ensures var w' := Step(w, a, cfg, g);
            w'.m == w.m.(clock := Max(w.m.clock, a.ctx.mono)) && forall c :: c in w'.queue ==> c == NotifyWatchdog
  {
    hide HandleProbes, HandleTick, HandleRemediation, Observe;
  }

  /** A stale, repeated or unknown completion never moves anything: at any later point of a
      run, the completion of an id that was spent before, or of one not issued yet, leaves
      the state, the disk, the leases and the services as they are. */
  lemma StrayCompletionIsIgnored(w: World, acts: seq<Action>, a: Action, cfg: Config, g: BuiltGraph)
    requires Consistent(w) && NoCrash(acts)
    requires var w1 := Run(w, acts, cfg, g);
             Enabled(w1, a) && a.Deliver? && a.event.EffectCompleted?
             && (a.event.cmdId >= w1.m.view.nextCmdId
                 || (a.event.cmdId < w.m.view.nextCmdId && w.m.view.pending != Some(a.event.cmdId)))
    ensures var w1 := Run(w, acts, cfg, g);
            var w2 := Step(w1, a, cfg, g);
            w2.m == w1.m.(clock := Max(w1.m.clock, a.ctx.mono)) && forall c :: c in w2.queue ==> c == NotifyWatchdog
  {
    hide Step, Run, Core, DiskAfter;
    var w1 := Run(w, acts, cfg, g);
    ConsistentRun(w, acts, cfg, g);
    if a.event.cmdId < w1.m.view.nextCmdId {
      SpentIdStaysSpent(w, a.event.cmdId, acts, cfg, g);
    }
    OtherCompletionIsIgnored(w1, a, cfg, g);
  }

  // ---- A worker that could not be spawned ----

  lemma WedgedStep(w: World, a: Action, cfg: Config, g: BuiltGraph)
    requires Consistent(w) && w.m.spawnFailed && !a.Crash?
    ensures var w' := Step(w, a, cfg, g);
            w'.m.spawnFailed && w'.m.view.phase == w.m.view.phase && w'.starts == w.starts
  {
    hide Reduce, ExecOne, Core, StartScript, AfterJob, DiskAfter;
    if Enabled(w, a) {
      match a
      case Deliver(e, ctx) =>
        var _, _ := DeliverStep(w, e, ctx, cfg, g);
      case Exec(r) =>
        ExecStep(w, r, cfg, g);
    }
  }

  lemma WedgedIsActive(w: World)
    requires Consistent(w) && w.m.spawnFailed
    ensures !w.m.view.phase.Idle? && w.m.view.pending == None
  {
    hide Core, DiskAfter;
  }

  /** After a failed spawn the run stays active until the process is restarted: no event
      moves the phase and no backup ever starts. */
  lemma {:induction false} FailedSpawnWedges(w: World, acts: seq<Action>, cfg: Config, g: BuiltGraph)
    requires Consistent(w) && w.m.spawnFailed && NoCrash(acts)
    ensures var w' := Run(w, acts, cfg, g);
            w'.m.spawnFailed && w'.m.view.phase == w.m.view.phase && !w'.m.view.phase.Idle? && w'.starts == w.starts
  {
    hide Step, Consistent;
    WedgedIsActive(w);
    if acts == [] {
    } else {
      var before := Run(w, acts[..|acts| - 1], cfg, g);
      FailedSpawnWedges(w, acts[..|acts| - 1], cfg, g);
      ConsistentRun(w, acts[..|acts| - 1], cfg, g);
      WedgedStep(before, acts[|acts| - 1], cfg, g);
    }
  }

  // ---- Progress ----

  function Rank(phase: BackupPhase): nat {
    match phase
    case ResticRunning(_, _) => 3
    case RetentionRunning(_) => 2
    case Verifying(_) => 1
    case _ => 0
  }

  ghost predicate Accepts(w: World, a: Action) {
    && Enabled(w, a) && a.Deliver? && a.event.EffectCompleted?
    && w.m.view.pending == Some(a.event.cmdId) && !w.m.view.shuttingDown
  }

  /** How many completions a run of actions has accepted. */
  ghost function Accepted(w: World, acts: seq<Action>, cfg: Config, g: BuiltGraph): nat
  {
    if acts == [] then 0
    else
      var rest, last := acts[..|acts| - 1], acts[|acts| - 1];
      Accepted(w, rest, cfg, g) + One(Accepts(Run(w, rest, cfg, g), last))
  }

  lemma AcceptanceLowersRank(w: World, a: Action, cfg: Config, g: BuiltGraph)
    requires Consistent(w) && !a.Crash?
    ensures var w' := Step(w, a, cfg, g);
            |w'.starts| >= |w.starts| && (|w'.starts| == |w.starts| ==>
              Rank(w'.m.view.phase) + One(Accepts(w, a)) <= Rank(w.m.view.phase))
  {
    hide Reduce, ExecOne, Core, StartScript, DiskAfter, RestoreCommands;
    if Enabled(w, a) {
      match a
      case Deliver(e, ctx) =>
        var _, _ := DeliverStep(w, e, ctx, cfg, g);
      case Exec(r) =>
        ExecStep(w, r, cfg, g);
    }
  }

  /** Every accepted completion, successful or not, brings the run nearer to Idle, so as
      long as no further backup starts, at most three are accepted, and after as many as
      the phase has rank the run is over. */
  lemma {:induction false} RunEndsInRankCompletions(w: World, acts: seq<Action>, cfg: Config, g: BuiltGraph)
    requires Consistent(w) && NoCrash(acts)
    ensures var w' := Run(w, acts, cfg, g);
            |w'.starts| >= |w.starts| && (|w'.starts| == |w.starts| ==>
              && Accepted(w, acts, cfg, g) + Rank(w'.m.view.phase) <= Rank(w.m.view.phase)
              && (Accepted(w, acts, cfg, g) == Rank(w.m.view.phase) ==> w'.m.view.phase.Idle?))
  {
    hide Step, Accepts, Consistent;
    if acts == [] {
    } else {
      var rest, last := acts[..|acts| - 1], acts[|acts| - 1];
      RunEndsInRankCompletions(w, rest, cfg, g);
      ConsistentRun(w, rest, cfg, g);
      AcceptanceLowersRank(Run(w, rest, cfg, g), last, cfg, g);
    }
    ConsistentRun(w, acts, cfg, g);
    RankZeroIsIdle(Run(w, acts, cfg, g));
  }

  lemma RankZeroIsIdle(w: World)
    requires Consistent(w)
    ensures Rank(w.m.view.phase) == 0 <==> w.m.view.phase.Idle?
  {
    hide Core, DiskAfter;
  }

  // ---- The reducer's transitions are the lifecycle, several phases at a time ----

  /** Starting takes the first four phases of the lifecycle at once, the end of the backup
      job three, and the later jobs one each, with the run, the snapshots and the verify
      flag of the run. */
  lemma TransitionsFollowLifecycle(v: View, cfg: Config, ctx: Ctx, run: RunId, pre: seq<ServiceSnapshot>)
    ensures v.phase.Idle? && StartBackup(v, cfg, ctx).cmds != [] ==>
              var pre0 := Snapshots(StopEntries(cfg.services), v.services);
              StartBackup(v, cfg, ctx).view.phase == Advance(v.phase, 4, ctx.mono, pre0, cfg.verify)
    ensures v.phase == ResticRunning(run, pre) ==>
              BackupEffect(v, true, cfg).view.phase == Advance(v.phase, 3, run, pre, cfg.verify)
    ensures v.phase == RetentionRunning(run) || v.phase == Verifying(run) ==>
              BackupEffect(v, true, cfg).view.phase == Advance(v.phase, 1, run, pre, cfg.verify)
  {
    AdvanceUnfolds(v.phase, ctx.mono, Snapshots(StopEntries(cfg.services), v.services), cfg.verify);
    AdvanceUnfolds(v.phase, run, pre, cfg.verify);
  }

  lemma AdvanceUnfolds(phase: BackupPhase, run: RunId, pre: seq<ServiceSnapshot>, verify: bool)
    ensures var p1 := NextPhase(phase, run, pre, verify);
            var p2 := NextPhase(p1, run, pre, verify);
            var p3 := NextPhase(p2, run, pre, verify);
            && Advance(phase, 1, run, pre, verify) == p1
            && Advance(phase, 3, run, pre, verify) == p3
            && Advance(phase, 4, run, pre, verify) == NextPhase(p3, run, pre, verify)
  {
    var a1 := Advance(phase, 1, run, pre, verify);
    var a2 := Advance(phase, 2, run, pre, verify);
    var a3 := Advance(phase, 3, run, pre, verify);
    assert Advance(phase, 0, run, pre, verify) == phase;
    assert a3 == NextPhase(a2, run, pre, verify);
  }

  // ---- Calendar dates ----

  /** The calendar never goes back from one delivered event to a later one. */
  ghost predicate CalendarAdvances(acts: seq<Action>) {
    forall i, j :: 0 <= i < j < |acts| && acts[i].Deliver? && acts[j].Deliver? ==>
      !DateBefore(acts[j].ctx.wall, acts[i].ctx.wall)
  }

  ghost predicate Increasing(starts: seq<WallClock>) {
    forall i, j :: 0 <= i < j < |starts| ==> DateBefore(starts[i], starts[j])
  }

  ghost predicate DatesKept(w: World, acts: seq<Action>) {
    && Increasing(w.starts)
    && (w.starts != [] ==>
        var last := w.starts[|w.starts| - 1];
        && w.m.view.lastBackupDay == Some(last.day)
        && exists i :: 0 <= i < |acts| && acts[i].Deliver? && acts[i].ctx.wall == last)
  }

  lemma DatesStep(w: World, acts: seq<Action>, a: Action, cfg: Config, g: BuiltGraph)
    requires DatesKept(w, acts) && CalendarAdvances(acts + [a])
    ensures DatesKept(Step(w, a, cfg, g), acts + [a])
  {
    hide Reduce, ExecOne, Core, StartScript, AfterJob, Boot;
    var all := acts + [a];
    assert all[|acts|] == a;
    assert forall i :: 0 <= i < |acts| ==> all[i] == acts[i];
    if Enabled(w, a) {
      match a
      case Deliver(e, ctx) =>
        var out, move := DeliverStep(w, e, ctx, cfg, g);
        if move.Starts? && w.starts != [] {
          var last := w.starts[|w.starts| - 1];
          assert DateBefore(last, ctx.wall);
        }
      case Exec(r) =>
        ExecStep(w, r, cfg, g);
      case Crash(ctx, maintenance) =>
        CrashStep(w, ctx, maintenance, cfg, g);
        BootState(w.m.disk, w.m.stopped, w.promised, ctx.mono, maintenance, cfg);
    }
  }

  lemma {:induction false} DatesRun(w: World, acts: seq<Action>, cfg: Config, g: BuiltGraph)
    requires w.starts == [] && CalendarAdvances(acts)
    ensures DatesKept(Run(w, acts, cfg, g), acts)
  {
    hide Step, DateBefore;
    if acts == [] {
    } else {
      var rest := acts[..|acts| - 1];
      assert CalendarAdvances(rest);
      DatesRun(w, rest, cfg, g);
      assert rest + [acts[|acts| - 1]] == acts;
      DatesStep(Run(w, rest, cfg, g), rest, acts[|acts| - 1], cfg, g);
    }
  }

  /** Whatever asks for backups (ticks, HTTP triggers, remediation requests), the dates on
      which one process starts them are strictly increasing: at most one per date. */
  lemma OneBackupPerDate(
      disk: BackupPhase, stopped: set<ServiceId>, mono: nat, maintenance: map<ServiceId, nat>, acts: seq<Action>,
      cfg: Config, g: BuiltGraph)
    requires CalendarAdvances(acts)
    ensures Increasing(Daemon(disk, stopped, mono, maintenance, acts, cfg, g).starts)
  {
    hide Run, Boot, DateBefore;
    BootState(disk, stopped, Covered(disk), mono, maintenance, cfg);
    DatesRun(Boot(disk, stopped, Covered(disk), mono, maintenance, cfg), acts, cfg, g);
  }

  /** A backup starts only from Idle, and not while a job of another run is pending. */
  lemma BackupStartsAlone(w: World, a: Action, cfg: Config, g: BuiltGraph)
    requires Consistent(w)
    requires Step(w, a, cfg, g).starts != w.starts && !a.Crash?
    ensures w.queue == [] && w.m.view.phase.Idle? && w.m.disk.Idle? && w.m.view.pending == None && !w.m.spawnFailed
  {
    hide Reduce, ExecOne, Core, StartScript, AfterJob;
    match a
    case Deliver(e, ctx) =>
      var _, _ := DeliverStep(w, e, ctx, cfg, g);
      CoreOfOthers([]);
    case Exec(r) =>
      ExecStep(w, r, cfg, g);
  }
}
