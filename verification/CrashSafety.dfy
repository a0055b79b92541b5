/** Crash safety of backups: whatever is interrupted, wherever, the services a persisted
    snapshot recorded as running come back, and no others. */
module CrashSafety {
  import opened Model
  import opened Graph
  import opened BackupPolicy
  import opened Reducer
  import opened Runtime
  import opened World
  import opened BackupMoves
  import opened BackupRuns
  import opened BackupConsistency
  import opened BackupLifecycle

  /** Executing the commands in order starts only services the disk covers, stops services
      only while nothing is promised, and takes a snapshot off the disk only when all its
      services are up again. */
  ghost predicate Safe(disk: BackupPhase, stopped: set<ServiceId>, promised: set<ServiceId>, k: seq<Command>)
    decreases |k|
  {
    if k == [] then true
    else
      var rest := k[1..];
      match k[0]
      case StartService(id, _) => id in Covered(disk) && Safe(disk, stopped - {id}, promised, rest)
      case StopService(id, _, _) => promised == {} && Safe(disk, stopped + {id}, promised, rest)
      case PersistBackupState(p) =>
        && Covered(disk) !! stopped
        && (p.Locked? || Covered(p) == {} || promised == {})
        && Safe(p, stopped, PromisedAfter(promised, k[0]), rest)
      case _ => Safe(disk, stopped, promised, rest)
  }

  /** Promised services are up, or recorded on disk for recovery to start. */
  ghost predicate Kept(disk: BackupPhase, stopped: set<ServiceId>, promised: set<ServiceId>) {
    promised <= Covered(disk) || promised !! stopped
  }

  ghost predicate CrashSafe(w: World) {
    Safe(w.m.disk, w.m.stopped, w.promised, Core(w.queue)) && Kept(w.m.disk, w.m.stopped, w.promised)
  }

  lemma {:induction false} FewerStoppedIsSafe(
      disk: BackupPhase, stopped: set<ServiceId>, fewer: set<ServiceId>, promised: set<ServiceId>, k: seq<Command>)
    requires Safe(disk, stopped, promised, k) && fewer <= stopped
    ensures Safe(disk, fewer, promised, k)
    decreases |k|
  {
    hide Covered;
    if k == [] {
    } else {
      match k[0]
      case StartService(id, _) => FewerStoppedIsSafe(disk, stopped - {id}, fewer - {id}, promised, k[1..]);
      case StopService(id, _, _) => FewerStoppedIsSafe(disk, stopped + {id}, fewer + {id}, promised, k[1..]);
      case PersistBackupState(p) => FewerStoppedIsSafe(p, stopped, fewer, PromisedAfter(promised, k[0]), k[1..]);
      case _ => FewerStoppedIsSafe(disk, stopped, fewer, promised, k[1..]);
    }
  }

  // ---- Starting a run ----

  lemma {:induction false} StopsAreSafe(
      run: RunId, stopped: set<ServiceId>, stops: seq<Command>, pre: seq<ServiceSnapshot>)
    requires forall c :: c in stops ==> c.AcquireLease? || c.StopService?
    ensures Safe(Locked(run), stopped, {}, stops + [PersistBackupState(ResticRunning(run, pre)), ResticBackup])
    decreases |stops|
  {
    var last := [PersistBackupState(ResticRunning(run, pre)), ResticBackup];
    assert last[1..] == [ResticBackup] && last[1..][1..] == [];
    if stops == [] {
      assert stops + last == last;
      assert Safe(ResticRunning(run, pre), stopped, PromisedAfter({}, last[0]), last[1..][1..]);
    } else {
      assert stops[0].AcquireLease? || stops[0].StopService?;
      assert (stops + last)[1..] == stops[1..] + last;
      StopsAreSafe(run, if stops[0].StopService? then stopped + {stops[0].id} else stopped, stops[1..], pre);
    }
  }

  lemma StartIsSafe(
      stopped: set<ServiceId>, promised: set<ServiceId>, run: RunId, entries: seq<ServiceEntry>,
      pre: seq<ServiceSnapshot>)
    ensures Safe(Idle, stopped, promised, StartScript(run, entries, pre))
  {
    hide StopCommands;
    var rest := StopCommands(entries, run) + [PersistBackupState(ResticRunning(run, pre)), ResticBackup];
    StopsStartNothing(entries, run);
    StopsAreSafe(run, stopped, StopCommands(entries, run), pre);
    var k := StartScript(run, entries, pre);
    assert k[1..][1..] == rest;
  }

  // ---- Restoring ----

  /** Starting every covered service that is down makes it safe to drop the snapshot. */
  lemma {:induction false} RestoreIsSafe(
      disk: BackupPhase, stopped: set<ServiceId>, promised: set<ServiceId>, a: seq<Command>, p: BackupPhase,
      more: seq<Command>)
    requires forall c :: c in a ==> c.ReleaseLease? || (c.StartService? && c.id in Covered(disk))
    requires forall id :: id in Covered(disk) && id in stopped ==> exists c :: c in a && c.StartService? && c.id == id
    requires Covered(p) == {} && !p.Locked?
    requires forall c :: c in more ==> c.ReleaseLease? || IsJob(c)
    ensures Safe(disk, stopped, promised, a + ([PersistBackupState(p)] + more))
    decreases |a|
  {
    hide Covered;
    var end := [PersistBackupState(p)] + more;
    if a == [] {
      assert a + end == end && end[1..] == more;
      assert forall id :: id in Covered(disk) ==> id !in stopped;
      JobsAreSafe(p, stopped, PromisedAfter(promised, end[0]), more);
    } else {
      assert (a + end)[1..] == a[1..] + end;
      assert a[0].ReleaseLease? || (a[0].StartService? && a[0].id in Covered(disk));
      var left := if a[0].StartService? then stopped - {a[0].id} else stopped;
      forall id | id in Covered(disk) && id in left
        ensures exists c :: c in a[1..] && c.StartService? && c.id == id
      {
        var c :| c in a && c.StartService? && c.id == id;
        assert c in a[1..];
      }
      RestoreIsSafe(disk, left, promised, a[1..], p, more);
    }
  }

  lemma {:induction false} JobsAreSafe(
      disk: BackupPhase, stopped: set<ServiceId>, promised: set<ServiceId>, more: seq<Command>)
    requires forall c :: c in more ==> c.ReleaseLease? || IsJob(c)
    ensures Safe(disk, stopped, promised, more)
    decreases |more|
  {
    if more == [] {
    } else {
      assert more[0].ReleaseLease? || IsJob(more[0]);
      JobsAreSafe(disk, stopped, promised, more[1..]);
    }
  }

  lemma {:induction false} RestoresCover(pre: seq<ServiceSnapshot>)
    ensures forall c :: c in RestoreCommands(pre) ==> c.ReleaseLease? || (c.StartService? && c.id in WasRunning(pre))
    ensures forall id :: id in WasRunning(pre) ==>
              exists c :: c in RestoreCommands(pre) && c.StartService? && c.id == id
    ensures forall c :: c in StartCommands(pre) ==> c.StartService? && c.id in WasRunning(pre)
    ensures forall id :: id in WasRunning(pre) ==> exists c :: c in StartCommands(pre) && c.StartService? && c.id == id
  {
    if pre == [] {
    } else {
      var rest, last := pre[..|pre| - 1], pre[|pre| - 1];
      RestoresCover(rest);
      assert pre == rest + [last];
      WasRunningLast(rest, last);
      if last.wasRunning {
        assert StartService(last.id, last.unit) in RestoreCommands(pre)
            && StartService(last.id, last.unit) in StartCommands(pre);
      }
    }
  }

  lemma EndIsSafe(phase: BackupPhase, stopped: set<ServiceId>, promised: set<ServiceId>, success: bool, verify: bool)
    ensures Safe(phase, stopped, promised, AfterJob(phase, success, verify).1)
  {
    hide Safe, RestoreCommands, WasRunning;
    var (next, script) := AfterJob(phase, success, verify);
    var a := if phase.ResticRunning? then RestoreCommands(phase.pre) else [];
    if phase.ResticRunning? {
      RestoresCover(phase.pre);
    }
    if script == [] {
      JobsAreSafe(phase, stopped, promised, []);
    } else {
      var more := script[|script| - 1..];
      assert script == a + ([PersistBackupState(next)] + more);
      RestoreIsSafe(phase, stopped, promised, a, next, more);
    }
  }

  lemma RecoveryIsSafe(disk: BackupPhase, stopped: set<ServiceId>, promised: set<ServiceId>)
    ensures Safe(disk, stopped, promised, RecoveryScript(disk))
  {
    hide Safe, StartCommands, WasRunning;
    JobsAreSafe(disk, stopped, promised, []);
    if !disk.Idle? {
      var pre := disk.PreBackupServices();
      var a := if pre.Some? then StartCommands(pre.value) else [];
      if pre.Some? {
        RestoresCover(pre.value);
      }
      RestoreIsSafe(disk, stopped, promised, a, Idle, []);
      assert a + ([PersistBackupState(Idle)] + []) == a + [PersistBackupState(Idle)];
    }
  }

  // ---- Every step keeps it ----

  lemma CrashSafeDeliver(w: World, ctx: Ctx, out: Out, move: Move, cfg: Config)
    requires Consistent(w) && CrashSafe(w) && w.queue == [] && Moves(w.m.view, out, move, cfg, At(w.m.clock, ctx))
    ensures CrashSafe(AfterDeliver(w, ctx, out, move))
  {
    hide Core, StartScript, AfterJob, Safe, Kept, Covered;
    CoreOfOthers([]);
    assert w.m.disk == w.m.view.phase;
    match move {
      case Calm => JobsAreSafe(w.m.disk, w.m.stopped, w.promised, []);
      case Starts =>
        StartIsSafe(
          w.m.stopped, w.promised, At(w.m.clock, ctx).mono, StopEntries(cfg.services), out.view.phase.pre);
      case Completes(success) => EndIsSafe(w.m.disk, w.m.stopped, w.promised, success, cfg.verify);
    }
  }

  lemma CrashSafeExec(w: World, w': World, r: Reading)
    requires CrashSafe(w) && w.queue != []
    requires if BackupCommand(w.queue[0]) then HeadExecuted(w, w', r) else Aside(w, w')
    ensures CrashSafe(w')
  {
    hide Core, Covered;
    if BackupCommand(w.queue[0]) {
      assert Core(w.queue)[1..] == Core(w'.queue);
    } else {
      FewerStoppedIsSafe(w.m.disk, w.m.stopped, w'.m.stopped, w.promised, Core(w.queue));
    }
  }

  lemma CrashSafeBoot(
      disk: BackupPhase, stopped: set<ServiceId>, promised: set<ServiceId>, mono: nat,
      maintenance: map<ServiceId, nat>, cfg: Config)
    requires Kept(disk, stopped, promised)
    ensures CrashSafe(Boot(disk, stopped, promised, mono, maintenance, cfg))
  {
    hide Core, Boot, Safe, Kept;
    BootState(disk, stopped, promised, mono, maintenance, cfg);
    RecoveryIsSafe(disk, stopped, promised);
  }

  lemma CrashSafeStep(w: World, a: Action, cfg: Config, g: BuiltGraph)
    requires Consistent(w) && CrashSafe(w)
    ensures CrashSafe(Step(w, a, cfg, g))
  {
    hide Consistent, Reduce, ExecOne, Boot, Safe, Kept;
    if Enabled(w, a) {
      match a
      case Deliver(e, ctx) =>
        var out, move := DeliverStep(w, e, ctx, cfg, g);
        CrashSafeDeliver(w, ctx, out, move, cfg);
      case Exec(r) =>
        ExecStep(w, r, cfg, g);
        CrashSafeExec(w, Step(w, a, cfg, g), r);
      case Crash(ctx, maintenance) =>
        CrashStep(w, ctx, maintenance, cfg, g);
        CrashSafeBoot(w.m.disk, w.m.stopped, w.promised, ctx.mono, maintenance, cfg);
    }
  }

  lemma {:induction false} CrashSafeRun(w: World, acts: seq<Action>, cfg: Config, g: BuiltGraph)
    requires Consistent(w) && CrashSafe(w)
    ensures CrashSafe(Run(w, acts, cfg, g))
  {
    hide Consistent, CrashSafe, Step;
    if acts == [] {
    } else {
      var rest := acts[..|acts| - 1];
      CrashSafeRun(w, rest, cfg, g);
      ConsistentRun(w, rest, cfg, g);
      CrashSafeStep(Run(w, rest, cfg, g), acts[|acts| - 1], cfg, g);
    }
  }

  // ---- Theorems ----

  /** At every point of every run, crashes included: the services promised by the last
      persisted snapshot are recorded on disk as running, or up; the next start command is
      for a service the snapshot on disk recorded as running; and once an event is finished
      with the backup past its main job, every promised service is up. */
  lemma PromisesAreKept(
      disk: BackupPhase, stopped: set<ServiceId>, mono: nat, maintenance: map<ServiceId, nat>, acts: seq<Action>,
      cfg: Config, g: BuiltGraph)
    ensures var w := Daemon(disk, stopped, mono, maintenance, acts, cfg, g);
            && Kept(w.m.disk, w.m.stopped, w.promised)
            && (w.queue != [] && w.queue[0].StartService? ==> w.queue[0].id in Covered(w.m.disk))
            && (w.queue == [] && !w.m.view.phase.ResticRunning? ==> w.promised !! w.m.stopped)
  {
    hide Run, Boot, Consistent, CrashSafe;
    var b := Boot(disk, stopped, Covered(disk), mono, maintenance, cfg);
    ConsistentBoot(disk, stopped, Covered(disk), mono, maintenance, cfg);
    CrashSafeBoot(disk, stopped, Covered(disk), mono, maintenance, cfg);
    ConsistentRun(b, acts, cfg, g);
    CrashSafeRun(b, acts, cfg, g);
    PromisesHere(Run(b, acts, cfg, g));
  }

  lemma PromisesHere(w: World)
    requires Consistent(w) && CrashSafe(w)
    ensures Kept(w.m.disk, w.m.stopped, w.promised)
    ensures w.queue != [] && w.queue[0].StartService? ==> w.queue[0].id in Covered(w.m.disk)
    ensures w.queue == [] && !w.m.view.phase.ResticRunning? ==> w.promised !! w.m.stopped
  {
    hide WasRunning;
  }

  // ---- Recovery, interrupted any number of times ----

  predicate RecoveryCommand(c: Command) {
    c.ResticUnlock? || c.WriteIncident? || c.SendAlert? || c.StartService? || (c.PersistBackupState? && c.phase.Idle?)
  }

  ghost predicate CrashesAndExecs(acts: seq<Action>) {
    forall a :: a in acts ==> a.Crash? || a.Exec?
  }

  /** The services down once the queued commands are executed. */
  function StoppedAfter(stopped: set<ServiceId>, queue: seq<Command>): set<ServiceId>
    decreases |queue|
  {
    if queue == [] then stopped
    else StoppedAfter(if queue[0].StartService? then stopped - {queue[0].id} else stopped, queue[1..])
  }

  /** No start follows a persist. */
  ghost predicate StartsFirst(queue: seq<Command>) {
    forall i, j :: 0 <= i < j < |queue| && queue[i].PersistBackupState? ==> !queue[j].StartService?
  }

  /** A state inside a recovery from the crash state (disk, stopped): what the queue will
      end in is fixed, and as long as the snapshot is on disk nothing else was touched. */
  ghost predicate Recovering(w: World, disk: BackupPhase, stopped: set<ServiceId>) {
    var goal := stopped - Covered(disk);
    && (forall c :: c in w.queue ==> RecoveryCommand(c))
    && StartsFirst(w.queue)
    && StoppedAfter(w.m.stopped, w.queue) == goal
    && DiskAfter(w.m.disk, w.queue) == Idle
    && ((w.m.disk == disk && goal <= w.m.stopped <= stopped) || (w.m.disk == Idle && w.m.stopped == goal))
  }

  lemma {:induction false} StoppedAppend(stopped: set<ServiceId>, a: seq<Command>, b: seq<Command>)
    ensures StoppedAfter(stopped, a + b) == StoppedAfter(StoppedAfter(stopped, a), b)
    decreases |a|
  {
    if a == [] {
      assert a + b == b;
    } else {
      assert (a + b)[1..] == a[1..] + b;
      StoppedAppend(if a[0].StartService? then stopped - {a[0].id} else stopped, a[1..], b);
    }
  }

  lemma {:induction false} StoppedByOthers(stopped: set<ServiceId>, a: seq<Command>)
    requires forall c :: c in a ==> !c.StartService?
    ensures StoppedAfter(stopped, a) == stopped
    decreases |a|
  {
    if a == [] {
    } else {
      assert !a[0].StartService?;
      StoppedByOthers(stopped, a[1..]);
    }
  }

  lemma {:induction false} StartsBringUp(stopped: set<ServiceId>, pre: seq<ServiceSnapshot>)
    ensures StoppedAfter(stopped, StartCommands(pre)) == stopped - WasRunning(pre)
  {
    hide StoppedAfter, WasRunning;
    if pre == [] {
      StoppedByOthers(stopped, []);
      NoneWasRunning();
    } else {
      var rest, last := pre[..|pre| - 1], pre[|pre| - 1];
      var more := if last.wasRunning then [StartService(last.id, last.unit)] else [];
      StartsBringUp(stopped, rest);
      WasRunningLast(rest, last);
      assert pre == rest + [last];
      StoppedAppend(stopped, StartCommands(rest), more);
      StoppedByOne(stopped - WasRunning(rest), last.id, last.unit);
    }
  }

  lemma NoneWasRunning()
    ensures WasRunning([]) == {}
  {
  }

  lemma WasRunningLast(rest: seq<ServiceSnapshot>, last: ServiceSnapshot)
    ensures WasRunning(rest + [last]) == WasRunning(rest) + if last.wasRunning then {last.id} else {}
  {
  }

  lemma StoppedByOne(stopped: set<ServiceId>, id: ServiceId, unit: string)
    ensures StoppedAfter(stopped, [StartService(id, unit)]) == stopped - {id} && StoppedAfter(stopped, []) == stopped
  {
  }

  lemma RecoveryQueue(v: View, disk: BackupPhase, stopped: set<ServiceId>)
    ensures var queue := HandleStartupRecovery(v, disk).cmds;
            && (forall c :: c in queue ==> RecoveryCommand(c))
            && StoppedAfter(stopped, queue) == stopped - Covered(disk)
            && DiskAfter(disk, queue) == Idle
  {
    hide WasRunning, StartCommands, CompensationCommands, Restarts, StoppedAfter, DiskAfter;
    if disk.Idle? {
      StoppedByOthers(stopped, []);
      SummaryOfOthers(disk, []);
    } else {
      RecoveryHead(v, disk);
      var head := RecoveryCommands(v, disk);
      var script, alert := RecoveryScript(disk), [SendAlert(CrashRecovered(disk))];
      var pre := disk.PreBackupServices();
      var starts := if pre.Some? then StartCommands(pre.value) else [];
      StoppedByOthers(stopped, starts[..0]);
      if pre.Some? {
        RestoresCover(pre.value);
        StartsBringUp(stopped, pre.value);
      }
      QueueSummary(disk, stopped, head, starts, alert);
    }
  }

  lemma RecoveryHead(v: View, disk: BackupPhase)
    ensures forall c :: c in HandleStartupRecovery(v, disk).cmds ==> RecoveryCommand(c)
  {
  }

  lemma QueueSummary(
      disk: BackupPhase, stopped: set<ServiceId>, head: seq<Command>, starts: seq<Command>, alert: seq<Command>)
    requires forall c :: c in head + alert ==> !BackupCommand(c)
    requires forall c :: c in starts ==> c.StartService?
    ensures var queue := (head + (starts + [PersistBackupState(Idle)])) + alert;
            StoppedAfter(stopped, queue) == StoppedAfter(stopped, starts) && DiskAfter(disk, queue) == Idle
  {
    hide StoppedAfter, DiskAfter;
    var persist := [PersistBackupState(Idle)];
    assert forall c :: c in head ==> c in head + alert;
    assert forall c :: c in alert ==> c in head + alert;
    StoppedAppend(stopped, head + (starts + persist), alert);
    StoppedAppend(stopped, head, starts + persist);
    StoppedAppend(stopped, starts, persist);
    StoppedByOthers(stopped, head);
    StoppedByOthers(StoppedAfter(stopped, starts), persist);
    StoppedByOthers(StoppedAfter(stopped, starts), alert);
    SummaryAppend(disk, head + (starts + persist), alert);
    SummaryAppend(disk, head, starts + persist);
    SummaryAppend(disk, starts, persist);
    SummaryOfOthers(disk, head);
    SummaryOfOthers(disk, starts);
    SummaryOfOthers(Idle, alert);
    PersistIdle(disk);
  }

  lemma PersistIdle(disk: BackupPhase)
    ensures DiskAfter(disk, [PersistBackupState(Idle)]) == Idle
  {
    assert [PersistBackupState(Idle)][1..] == [];
  }

  lemma {:induction false} StoppedOnlyFalls(stopped: set<ServiceId>, queue: seq<Command>)
    ensures StoppedAfter(stopped, queue) <= stopped
    decreases |queue|
  {
    if queue == [] {
    } else {
      StoppedOnlyFalls(if queue[0].StartService? then stopped - {queue[0].id} else stopped, queue[1..]);
    }
  }

  lemma RecoveringExec(w: World, w': World, disk: BackupPhase, stopped: set<ServiceId>)
    requires w.queue != [] && Recovering(w, disk, stopped)
    requires var c := w.queue[0];
             && w'.queue == w.queue[1..]
             && w'.m.stopped == (if c.StartService? then w.m.stopped - {c.id} else w.m.stopped)
             && w'.m.disk == (if c.PersistBackupState? then c.phase else w.m.disk)
    ensures Recovering(w', disk, stopped)
  {
    hide Covered;
    var c := w.queue[0];
    assert RecoveryCommand(c);
    assert forall i :: 0 <= i < |w'.queue| ==> w'.queue[i] == w.queue[i + 1];
    if c.PersistBackupState? {
      StoppedByOthers(w'.m.stopped, w'.queue);
    } else {
      StoppedOnlyFalls(w'.m.stopped, w'.queue);
    }
  }

  lemma RecoveryExecEffect(w: World, r: Reading, cfg: Config, g: BuiltGraph)
    requires w.queue != [] && RecoveryCommand(w.queue[0])
    ensures var w', c := Step(w, Exec(r), cfg, g), w.queue[0];
            && w'.queue == w.queue[1..]
            && w'.m.stopped == (if c.StartService? then w.m.stopped - {c.id} else w.m.stopped)
            && w'.m.disk == (if c.PersistBackupState? then c.phase else w.m.disk)
  {
    hide Reduce;
  }

  lemma RecoveringBoot(
      w: World, disk: BackupPhase, stopped: set<ServiceId>, mono: nat, maintenance: map<ServiceId, nat>, cfg: Config)
    requires || (w.m.disk == disk && stopped - Covered(disk) <= w.m.stopped <= stopped)
             || (w.m.disk == Idle && w.m.stopped == stopped - Covered(disk))
    ensures Recovering(Boot(w.m.disk, w.m.stopped, w.promised, mono, maintenance, cfg), disk, stopped)
  {
    hide StoppedAfter, DiskAfter;
    RecoveryQueue(InitialView(cfg, maintenance), w.m.disk, w.m.stopped);
    RecoveryStartsFirst(InitialView(cfg, maintenance), w.m.disk);
  }

  lemma RecoveryStartsFirst(v: View, disk: BackupPhase)
    ensures StartsFirst(HandleStartupRecovery(v, disk).cmds)
  {
    hide Running;
    var actions, cmds := Compensation(disk), HandleStartupRecovery(v, disk).cmds;
    assert forall i :: 0 <= i < |actions| - 1 ==> !actions[i].ResetToIdle?;
    assert forall i :: 0 <= i < |actions| ==> cmds[i] == CompensationCommand(actions[i]);
  }

  /** Take any crash state, and any sequence of further crashes and executed commands that
      ends with a finished recovery, however often recovery was cut before: the disk is
      Idle again, and the services still down are exactly those that were down at the first
      crash and that the phase on disk did not cover. A crash before the snapshot was
      persisted leaves nothing covered, so exactly the services already stopped stay down. */
  lemma {:induction false} InterruptedRecoveryIsExact(
      w: World, first: Action, acts: seq<Action>, cfg: Config, g: BuiltGraph)
    requires first.Crash? && CrashesAndExecs(acts)
    ensures var end := Run(Step(w, first, cfg, g), acts, cfg, g);
            && Recovering(end, w.m.disk, w.m.stopped)
            && (end.queue == [] ==> end.m.disk == Idle && end.m.stopped == w.m.stopped - Covered(w.m.disk))
  {
    hide Step, Recovering, Boot;
    var start := Step(w, first, cfg, g);
    if acts == [] {
      CrashStep(w, first.ctx, first.maintenance, cfg, g);
      RecoveringBoot(w, w.m.disk, w.m.stopped, first.ctx.mono, first.maintenance, cfg);
    } else {
      var rest, last := acts[..|acts| - 1], acts[|acts| - 1];
      assert last in acts;
      InterruptedRecoveryIsExact(w, first, rest, cfg, g);
      RecoveringStep(Run(start, rest, cfg, g), last, w.m.disk, w.m.stopped, cfg, g);
    }
    RecoveringEnds(Run(start, acts, cfg, g), w.m.disk, w.m.stopped);
  }

  lemma RecoveringStep(w: World, a: Action, disk: BackupPhase, stopped: set<ServiceId>, cfg: Config, g: BuiltGraph)
    requires Recovering(w, disk, stopped) && !a.Deliver?
    ensures Recovering(Step(w, a, cfg, g), disk, stopped)
  {
    hide Reduce, ExecOne, Boot, StoppedAfter, DiskAfter;
    if Enabled(w, a) {
      match a
      case Exec(r) =>
        RecoveryExecEffect(w, r, cfg, g);
        RecoveringExec(w, Step(w, a, cfg, g), disk, stopped);
      case Crash(ctx, maintenance) =>
        CrashStep(w, ctx, maintenance, cfg, g);
        RecoveringBoot(w, disk, stopped, ctx.mono, maintenance, cfg);
    }
  }

  lemma RecoveringEnds(w: World, disk: BackupPhase, stopped: set<ServiceId>)
    requires Recovering(w, disk, stopped)
    ensures w.queue == [] ==> w.m.disk == Idle && w.m.stopped == stopped - Covered(disk)
  {
    hide Covered;
  }
}
