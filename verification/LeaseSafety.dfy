/** The leases of a backup, over whole runs of a process. */
module LeaseSafety {
  import opened Model
  import opened Lease
  import opened Graph
  import opened Reducer
  import opened Runtime
  import opened World
  import opened BackupMoves
  import opened BackupRuns
  import opened BackupConsistency
  import opened BackupLifecycle

  // ---- Which resources are held ----

  /** The resources held once the queued commands are executed. */
  function KeysAfter(keys: set<ResourceId>, k: seq<Command>): set<ResourceId>
    decreases |k|
  {
    if k == [] then keys
    else
      KeysAfter(
        match k[0]
        case AcquireLease(r, _) => keys + {r}
        case ReleaseLease(r) => keys - {r}
        case _ => keys,
        k[1..])
  }

  /** The service leases of some snapshots. */
  function LeasesOf(pre: seq<ServiceSnapshot>): set<ResourceId> {
    set snap | snap in pre :: Service(snap.id)
  }

  function RunningLeases(pre: seq<ServiceSnapshot>): set<ResourceId> {
    set snap | snap in pre && snap.wasRunning :: Service(snap.id)
  }

  /** What the last run holds in each lasting phase: everything until its services are
      restored, and afterwards still the leases of the services that were not running. */
  function Keeps(phase: BackupPhase, pre: seq<ServiceSnapshot>): set<ResourceId> {
    match phase
    case Idle => LeasesOf(pre) - RunningLeases(pre)
    case ResticRunning(_, _) => LeasesOf(pre) + {BackupRepo}
    case _ => (LeasesOf(pre) - RunningLeases(pre)) + {BackupRepo}
  }

  /** The backup in progress is the last one started. */
  ghost predicate Remembers(phase: BackupPhase, run: RunId, pre: seq<ServiceSnapshot>) {
    match phase
    case Idle => true
    case ResticRunning(r, p) => r == run && p == pre
    case RetentionRunning(r) => r == run
    case Verifying(r) => r == run
    case _ => false
  }

  // ---- Whose leases they are ----

  /** The head of the queue asks for a resource, and is refused: the lease of another run on
      it has not expired. */
  predicate Refused(m: Machine, c: Command, r: Reading) {
    var now := Max(m.clock, r.ctx.mono);
    && c.AcquireLease? && c.resource in m.view.held
    && m.view.held[c.resource].holder != c.holder && !Expired(m.view.held[c.resource], LEASE_TTL, now)
  }

  function DeniedByOne(denied: set<ResourceId>, m: Machine, c: Command, r: Reading): set<ResourceId> {
    if !c.AcquireLease? then denied
    else if Refused(m, c, r) then denied + {c.resource}
    else denied - {c.resource}
  }

  /** The resources the last backup started by this process has asked for and been refused. */
  ghost function DeniedAfter(denied: set<ResourceId>, w: World, a: Action, cfg: Config, g: BuiltGraph): set<ResourceId>
  {
    if !Enabled(w, a) then denied
    else
      match a
      case Deliver(_, _) => if |Step(w, a, cfg, g).starts| > |w.starts| then {} else denied
      case Exec(r) => DeniedByOne(denied, w.m, w.queue[0], r)
      case Crash(_, _) => {}
  }

  ghost function Denied(w: World, acts: seq<Action>, cfg: Config, g: BuiltGraph): set<ResourceId>
  {
    if acts == [] then {}
    else
      var rest := acts[..|acts| - 1];
      DeniedAfter(Denied(w, rest, cfg, g), Run(w, rest, cfg, g), acts[|acts| - 1], cfg, g)
  }

  /** Once the run has asked for a lease, it is the run's own exactly if it was not refused. */
  ghost predicate Owned(
      held: Held, r: ResourceId, run: RunId, queue: seq<Command>, denied: set<ResourceId>, clock: nat) {
    r in held ==>
      && held[r].holder <= held[r].acquired <= clock
      && (r == BackupRepo ==> held[r].holder == run)
      && (AcquireLease(r, run) !in queue ==>
          && (held[r].holder == run <==> r !in denied)
          && (r in denied ==> held[r].acquired + LEASE_TTL > run))
  }

  /** No service is stopped before its lease is asked for. */
  ghost predicate AcquiresFirst(k: seq<Command>) {
    forall i, j :: 0 <= i < j < |k| && k[i].StopService? && k[j].AcquireLease? ==> k[j].resource != Service(k[i].id)
  }

  /** Executing the commands in order stops services only under their leases. */
  ghost predicate StopsLeased(keys: set<ResourceId>, k: seq<Command>)
    decreases |k|
  {
    k != [] ==>
      && (k[0].StopService? ==> Service(k[0].id) in keys)
      && StopsLeased(KeysAfter(keys, k[..1]), k[1..])
  }

  ghost predicate Leases(w: World, denied: set<ResourceId>, cfg: Config) {
    var v, k := w.m.view, Core(w.queue);
    match w.lastRun
    case None => v.phase.Idle? && v.held == map[] && forall c :: c in k ==> !c.AcquireLease? && !c.StopService?
    case Some(last) =>
      && SnapshotsOf(last.pre, StopEntries(cfg.services))
      && Remembers(v.phase, last.run, last.pre)
      && last.run <= w.m.clock
      && KeysAfter(v.held.Keys, k) == Keeps(v.phase, last.pre)
      && StopsLeased(v.held.Keys, k) && AcquiresFirst(k)
      && (forall c :: c in k && c.AcquireLease? ==> c.holder == last.run)
      && (forall r :: Owned(v.held, r, last.run, k, denied, w.m.clock))
  }

  // ---- Scripts, summarised ----

  lemma {:induction false} KeysAppend(keys: set<ResourceId>, a: seq<Command>, b: seq<Command>)
    ensures KeysAfter(keys, a + b) == KeysAfter(KeysAfter(keys, a), b)
    decreases |a|
  {
    if a == [] {
      assert a + b == b;
    } else {
      assert (a + b)[1..] == a[1..] + b;
      var next := match a[0] case AcquireLease(r, _) => keys + {r} case ReleaseLease(r) => keys - {r} case _ => keys;
      KeysAppend(next, a[1..], b);
    }
  }

  lemma {:induction false} KeysByOthers(keys: set<ResourceId>, a: seq<Command>)
    requires forall c :: c in a ==> !c.AcquireLease? && !c.ReleaseLease?
    ensures KeysAfter(keys, a) == keys
    decreases |a|
  {
    if a == [] {
    } else {
      assert !a[0].AcquireLease? && !a[0].ReleaseLease?;
      KeysByOthers(keys, a[1..]);
    }
  }

  lemma KeysByOne(keys: set<ResourceId>, r: ResourceId, holder: RunId, other: Command)
    requires !other.AcquireLease? && !other.ReleaseLease?
    ensures KeysAfter(keys, [AcquireLease(r, holder), other]) == keys + {r}
    ensures KeysAfter(keys, [other, ReleaseLease(r)]) == keys - {r}
  {
    assert [AcquireLease(r, holder), other][1..] == [other] && [other, ReleaseLease(r)][1..] == [ReleaseLease(r)];
    assert [other][1..] == [] && [ReleaseLease(r)][1..] == [];
    assert KeysAfter(keys, [ReleaseLease(r)]) == keys - {r};
    KeysByOthers(keys + {r}, [other]);
  }

  lemma {:induction false} StopsAppend(keys: set<ResourceId>, a: seq<Command>, b: seq<Command>)
    ensures StopsLeased(keys, a + b) <==> StopsLeased(keys, a) && StopsLeased(KeysAfter(keys, a), b)
    decreases |a|
  {
    if a == [] {
      assert a + b == b;
    } else {
      assert (a + b)[1..] == a[1..] + b && (a + b)[..1] == a[..1] && a == a[..1] + a[1..];
      StopsAppend(KeysAfter(keys, a[..1]), a[1..], b);
      KeysAppend(keys, a[..1], a[1..]);
    }
  }

  lemma {:induction false} NoStops(keys: set<ResourceId>, k: seq<Command>)
    requires forall c :: c in k ==> !c.StopService?
    ensures StopsLeased(keys, k)
    decreases |k|
  {
    if k == [] {
    } else {
      assert !k[0].StopService?;
      NoStops(KeysAfter(keys, k[..1]), k[1..]);
    }
  }

  lemma AcquireThenStop(keys: set<ResourceId>, id: ServiceId, run: RunId, unit: string)
    ensures StopsLeased(keys, [AcquireLease(Service(id), run), StopService(id, unit, ForBackup)])
  {
    var acquire, stop := [AcquireLease(Service(id), run)], [StopService(id, unit, ForBackup)];
    assert acquire + stop == [AcquireLease(Service(id), run), StopService(id, unit, ForBackup)];
    StopsAppend(keys, acquire, stop);
    NoStops(keys, acquire);
    assert KeysAfter(keys, acquire) == keys + {Service(id)};
    NoStops(KeysAfter(KeysAfter(keys, acquire), stop[..1]), stop[1..]);
  }

  function EntryLeases(entries: seq<ServiceEntry>): set<ResourceId> {
    set e | e in entries :: Service(e.id)
  }

  lemma {:induction false} StopsAcquire(keys: set<ResourceId>, entries: seq<ServiceEntry>, run: RunId)
    ensures KeysAfter(keys, StopCommands(entries, run)) == keys + EntryLeases(entries)
    ensures StopsLeased(keys, StopCommands(entries, run))
    ensures forall c :: c in StopCommands(entries, run) && c.AcquireLease? ==> c.holder == run
    ensures forall r :: r in EntryLeases(entries) ==> AcquireLease(r, run) in StopCommands(entries, run)
  {
    hide KeysAfter, StopsLeased;
    if entries == [] {
      KeysByOthers(keys, []);
      NoStops(keys, []);
    } else {
      var rest, e := entries[..|entries| - 1], entries[|entries| - 1];
      StopsAcquire(keys, rest, run);
      KeysAppend(keys, StopCommands(rest, run),
          [AcquireLease(Service(e.id), run), StopService(e.id, e.unit, ForBackup)]);
      KeysByOne(keys + EntryLeases(rest), Service(e.id), run, StopService(e.id, e.unit, ForBackup));
      StopsAppend(keys, StopCommands(rest, run),
          [AcquireLease(Service(e.id), run), StopService(e.id, e.unit, ForBackup)]);
      AcquireThenStop(keys + EntryLeases(rest), e.id, run, e.unit);
      assert entries == rest + [e];
      assert EntryLeases(entries) == EntryLeases(rest) + {Service(e.id)};
    }
  }

  lemma {:induction false} RestoresRelease(keys: set<ResourceId>, pre: seq<ServiceSnapshot>)
    ensures KeysAfter(keys, RestoreCommands(pre)) == keys - RunningLeases(pre)
    ensures forall c :: c in RestoreCommands(pre) ==> !c.AcquireLease? && !c.StopService?
  {
    hide KeysAfter;
    if pre == [] {
      KeysByOthers(keys, []);
    } else {
      var rest, snap := pre[..|pre| - 1], pre[|pre| - 1];
      RestoresRelease(keys, rest);
      assert pre == rest + [snap];
      if snap.wasRunning {
        KeysAppend(keys, RestoreCommands(rest), [StartService(snap.id, snap.unit), ReleaseLease(Service(snap.id))]);
        KeysByOne(keys - RunningLeases(rest), Service(snap.id), 0, StartService(snap.id, snap.unit));
        assert RunningLeases(pre) == RunningLeases(rest) + {Service(snap.id)};
      } else {
        assert RestoreCommands(pre) == RestoreCommands(rest);
        assert RunningLeases(pre) == RunningLeases(rest);
      }
    }
  }

  lemma {:induction false} StopsAreOfEntries(entries: seq<ServiceEntry>, run: RunId)
    ensures forall c :: c in StopCommands(entries, run) ==>
              exists e :: e in entries && c in [AcquireLease(Service(e.id), run), StopService(e.id, e.unit, ForBackup)]
  {
    if entries == [] {
    } else {
      var rest, e := entries[..|entries| - 1], entries[|entries| - 1];
      StopsAreOfEntries(rest, run);
      assert entries == rest + [e];
    }
  }

  lemma {:induction false} StopsAcquireFirst(entries: seq<ServiceEntry>, run: RunId)
    requires UniqueIds(entries)
    ensures AcquiresFirst(StopCommands(entries, run))
  {
    if entries == [] {
    } else {
      var rest, e := entries[..|entries| - 1], entries[|entries| - 1];
      StopsAcquireFirst(rest, run);
      StopsAreOfEntries(rest, run);
      var before, k := StopCommands(rest, run), StopCommands(entries, run);
      forall i, j | 0 <= i < j < |k| && k[i].StopService? && k[j].AcquireLease?
        ensures k[j].resource != Service(k[i].id)
      {
        if j >= |before| {
          assert j == |before| && k[i] in before;
          var other :| other in rest && k[i] == StopService(other.id, other.unit, ForBackup);
          var n :| 0 <= n < |rest| && rest[n] == other;
          assert entries[n].id != e.id;
        }
      }
    }
  }

  lemma AcquiresFirstInStart(run: RunId, entries: seq<ServiceEntry>, pre: seq<ServiceSnapshot>)
    requires UniqueIds(entries)
    ensures AcquiresFirst(StartScript(run, entries, pre))
  {
    hide StopCommands;
    StopsAcquireFirst(entries, run);
    var stops, k := StopCommands(entries, run), StartScript(run, entries, pre);
    assert forall i :: 2 <= i < |k| - 2 ==> k[i] == stops[i - 2];
  }

  lemma StartAcquires(keys: set<ResourceId>, run: RunId, entries: seq<ServiceEntry>, pre: seq<ServiceSnapshot>)
    ensures var k := StartScript(run, entries, pre);
            && KeysAfter(keys, k) == keys + {BackupRepo} + EntryLeases(entries)
            && StopsLeased(keys, k)
            && (forall c :: c in k && c.AcquireLease? ==> c.holder == run)
            && (forall r :: r in EntryLeases(entries) ==> AcquireLease(r, run) in k)
  {
    hide KeysAfter, StopCommands, EntryLeases, StopsLeased;
    var first := [AcquireLease(BackupRepo, run), PersistBackupState(Locked(run))];
    var stops, last := StopCommands(entries, run), [PersistBackupState(ResticRunning(run, pre)), ResticBackup];
    KeysByOne(keys, BackupRepo, run, PersistBackupState(Locked(run)));
    StopsAcquire(keys + {BackupRepo}, entries, run);
    KeysByOthers(keys + {BackupRepo} + EntryLeases(entries), last);
    KeysAppend(keys, first + stops, last);
    KeysAppend(keys, first, stops);
    StopsAppend(keys, first + stops, last);
    StopsAppend(keys, first, stops);
    NoStops(keys, first);
    NoStops(keys + {BackupRepo} + EntryLeases(entries), last);
  }

  /** The end of a job takes what is kept in one phase to what is kept in the next. */
  lemma EndReleases(phase: BackupPhase, run: RunId, pre: seq<ServiceSnapshot>, success: bool, verify: bool)
    requires Remembers(phase, run, pre)
    ensures var (next, k) := AfterJob(phase, success, verify);
            && Remembers(next, run, pre)
            && KeysAfter(Keeps(phase, pre), k) == Keeps(next, pre)
            && forall c :: c in k ==> !c.AcquireLease? && !c.StopService?
  {
    hide KeysAfter, RestoreCommands, LeasesOf, RunningLeases;
    var (next, k) := AfterJob(phase, success, verify);
    var keys := Keeps(phase, pre);
    if phase.Idle? {
      KeysByOthers(keys, []);
    } else {
      var restore := if phase.ResticRunning? then RestoreCommands(pre) else [];
      RestoresRelease(keys, pre);
      KeysByOthers(keys, []);
      RepoIsNoService(pre);
      var persist := PersistBackupState(next);
      var end := if next.Idle? then ReleaseLease(BackupRepo) else if next.Verifying? then ResticCheck else ResticForget;
      assert k == restore + [persist, end];
      var between := KeysAfter(keys, restore);
      KeysAppend(keys, restore, [persist, end]);
      KeysByOne(between, BackupRepo, 0, persist);
      if !next.Idle? {
        KeysByOthers(between, [persist, end]);
      }
    }
  }

  lemma RepoIsNoService(pre: seq<ServiceSnapshot>)
    ensures BackupRepo !in LeasesOf(pre) && BackupRepo !in RunningLeases(pre)
  {
  }

  // ---- Every step keeps it ----

  lemma SameLeases(a: seq<ServiceSnapshot>, entries: seq<ServiceEntry>)
    requires SnapshotsOf(a, entries)
    ensures LeasesOf(a) == EntryLeases(entries)
  {
    forall r | r in LeasesOf(a)
      ensures r in EntryLeases(entries)
    {
      var i :| 0 <= i < |a| && r == Service(a[i].id);
      assert entries[i] in entries;
    }
    forall r | r in EntryLeases(entries)
      ensures r in LeasesOf(a)
    {
      var i :| 0 <= i < |entries| && r == Service(entries[i].id);
      assert a[i] in a;
    }
  }

  lemma LeasesDeliver(w: World, denied: set<ResourceId>, ctx: Ctx, out: Out, move: Move, cfg: Config)
    requires Leases(w, denied, cfg) && w.queue == [] && Moves(w.m.view, out, move, cfg, At(w.m.clock, ctx))
    requires Consistent(w) && UniqueIds(cfg.services)
    ensures Leases(AfterDeliver(w, ctx, out, move), if move.Starts? then {} else denied, cfg)
  {
    hide Core, StartScript, AfterJob, LeasesOf, RunningLeases, EntryLeases, StopEntries, DiskAfter, KeysAfter,
        SnapshotsOf, StopsLeased;
    CoreOfOthers([]);
    KeysByOthers(w.m.view.held.Keys, []);
    NoStops(w.m.view.held.Keys, []);
    match move {
      case Calm =>
        if w.lastRun.Some? {
          forall r
            ensures Owned(out.view.held, r, w.lastRun.value.run, Core(out.cmds), denied, Max(w.m.clock, ctx.mono))
          {
            assert Owned(w.m.view.held, r, w.lastRun.value.run, Core(w.queue), denied, w.m.clock);
          }
        }
      case Starts => LeasesStart(w, denied, ctx, out, cfg);
      case Completes(success) =>
        assert w.lastRun.Some?;
        var run, k := w.lastRun.value.run, Core(out.cmds);
        EndReleases(w.m.view.phase, run, w.lastRun.value.pre, success, cfg.verify);
        NoStops(out.view.held.Keys, k);
        forall r
          ensures Owned(out.view.held, r, run, k, denied, Max(w.m.clock, ctx.mono))
        {
          assert Owned(w.m.view.held, r, run, Core(w.queue), denied, w.m.clock);
        }
    }
  }

  lemma LeasesStart(w: World, denied: set<ResourceId>, ctx: Ctx, out: Out, cfg: Config)
    requires Leases(w, denied, cfg) && w.queue == [] && Moves(w.m.view, out, Starts, cfg, At(w.m.clock, ctx))
    requires UniqueIds(cfg.services)
    ensures Leases(AfterDeliver(w, ctx, out, Starts), {}, cfg)
  {
    hide Core, StartScript, LeasesOf, RunningLeases, EntryLeases, StopEntries, KeysAfter, SnapshotsOf, StopsLeased;
    var entries, run, held := StopEntries(cfg.services), At(w.m.clock, ctx).mono, w.m.view.held;
    CoreOfOthers([]);
    KeysByOthers(held.Keys, []);
    SameLeases(out.view.phase.pre, entries);
    StartAcquires(held.Keys, run, entries, out.view.phase.pre);
    StopEntriesAreUnique(cfg.services);
    AcquiresFirstInStart(run, entries, out.view.phase.pre);
    if w.lastRun.Some? {
      SameLeases(w.lastRun.value.pre, entries);
      RepoIsNoService(w.lastRun.value.pre);
    }
    assert held.Keys <= EntryLeases(entries) && BackupRepo !in held;
    var k := StartScript(run, entries, out.view.phase.pre);
    forall r
      ensures Owned(held, r, run, k, {}, run)
    {
      if r in held {
        assert AcquireLease(r, run) in k;
        assert Owned(held, r, w.lastRun.value.run, [], denied, w.m.clock);
      }
    }
  }

  lemma LeasesExec(w: World, denied: set<ResourceId>, w': World, r: Reading, cfg: Config)
    requires Leases(w, denied, cfg)
    requires HeadExecuted(w, w', r)
    ensures Leases(w', DeniedByOne(denied, w.m, w.queue[0], r), cfg)
  {
    hide Core, Keeps, StopEntries, SnapshotsOf, Remembers, DeniedByOne, Owned;
    assert Core(w.queue)[1..] == Core(w'.queue) && Core(w.queue)[..1] == [w.queue[0]];
    if w.lastRun.Some? {
      KeysOfOne(w.m, w.queue[0], r, Core(w'.queue));
      OwnedByOne(w.m, w.queue[0], r, w.lastRun.value.run, Core(w'.queue), denied);
    }
  }

  lemma KeysOfOne(m: Machine, c: Command, r: Reading, rest: seq<Command>)
    ensures KeysAfter(m.view.held.Keys, [c] + rest) == KeysAfter(Effect(m, c, r).view.held.Keys, rest)
    ensures KeysAfter(m.view.held.Keys, [c]) == Effect(m, c, r).view.held.Keys
  {
    assert ([c] + rest)[1..] == rest && [c][1..] == [];
    var held := Effect(m, c, r).view.held;
    assert c.AcquireLease? ==> held.Keys == m.view.held.Keys + {c.resource};
    assert c.ReleaseLease? ==> held.Keys == m.view.held.Keys - {c.resource};
  }

  lemma OwnedByOne(m: Machine, c: Command, r: Reading, run: RunId, rest: seq<Command>, denied: set<ResourceId>)
    requires run <= m.clock && (c.AcquireLease? ==> c.holder == run)
    requires forall res :: Owned(m.view.held, res, run, [c] + rest, denied, m.clock)
    ensures forall res ::
              Owned(Effect(m, c, r).view.held, res, run, rest, DeniedByOne(denied, m, c, r), Effect(m, c, r).clock)
  {
    forall res
      ensures Owned(Effect(m, c, r).view.held, res, run, rest, DeniedByOne(denied, m, c, r), Effect(m, c, r).clock)
    {
      assert Owned(m.view.held, res, run, [c] + rest, denied, m.clock);
      if c.AcquireLease? {
        AcquireOwns(m, c, r, res, run, rest, denied);
      }
    }
  }

  lemma AcquireOwns(
      m: Machine, c: Command, r: Reading, res: ResourceId, run: RunId, rest: seq<Command>, denied: set<ResourceId>)
    requires run <= m.clock && c.AcquireLease? && c.holder == run
    requires Owned(m.view.held, res, run, [c] + rest, denied, m.clock)
    ensures Owned(Effect(m, c, r).view.held, res, run, rest, DeniedByOne(denied, m, c, r), Effect(m, c, r).clock)
  {
    assert forall x :: x in [c] + rest <==> x == c || x in rest;
  }

  lemma LeasesAside(w: World, denied: set<ResourceId>, w': World, cfg: Config)
    requires Leases(w, denied, cfg) && Aside(w, w')
    ensures Leases(w', denied, cfg)
  {
    hide Core, Keeps, StopEntries, SnapshotsOf, Remembers, KeysAfter, StopsLeased;
    if w.lastRun.Some? {
      forall r
        ensures Owned(w'.m.view.held, r, w.lastRun.value.run, Core(w'.queue), denied, w'.m.clock)
      {
        assert Owned(w.m.view.held, r, w.lastRun.value.run, Core(w.queue), denied, w.m.clock);
      }
    }
  }

  lemma LeasesBoot(
      disk: BackupPhase, stopped: set<ServiceId>, promised: set<ServiceId>, mono: nat,
      maintenance: map<ServiceId, nat>, cfg: Config)
    ensures Leases(Boot(disk, stopped, promised, mono, maintenance, cfg), {}, cfg)
  {
    hide Core, Boot, StartCommands;
    BootState(disk, stopped, promised, mono, maintenance, cfg);
    if disk.PreBackupServices().Some? {
      StartsAreStarts(disk.PreBackupServices().value);
    }
  }

  lemma LeasesStep(w: World, denied: set<ResourceId>, a: Action, cfg: Config, g: BuiltGraph)
    requires UniqueIds(cfg.services) && Consistent(w) && Leases(w, denied, cfg)
    ensures Leases(Step(w, a, cfg, g), DeniedAfter(denied, w, a, cfg, g), cfg)
  {
    hide Consistent, Leases, Reduce, ExecOne, Boot, DeniedByOne, Core;
    if Enabled(w, a) {
      match a
      case Deliver(e, ctx) =>
        var out, move := DeliverStep(w, e, ctx, cfg, g);
        LeasesDeliver(w, denied, ctx, out, move, cfg);
      case Exec(r) =>
        ExecStep(w, r, cfg, g);
        if BackupCommand(w.queue[0]) {
          LeasesExec(w, denied, Step(w, a, cfg, g), r, cfg);
        } else {
          LeasesAside(w, denied, Step(w, a, cfg, g), cfg);
          NothingDenied(denied, w.m, w.queue[0], r);
        }
      case Crash(ctx, maintenance) =>
        CrashStep(w, ctx, maintenance, cfg, g);
        LeasesBoot(w.m.disk, w.m.stopped, w.promised, ctx.mono, maintenance, cfg);
    }
  }

  lemma NothingDenied(denied: set<ResourceId>, m: Machine, c: Command, r: Reading)
    requires !BackupCommand(c)
    ensures DeniedByOne(denied, m, c, r) == denied
  {
  }

  lemma {:induction false} LeasesRun(w: World, acts: seq<Action>, cfg: Config, g: BuiltGraph)
    requires UniqueIds(cfg.services) && Consistent(w) && Leases(w, {}, cfg)
    ensures Leases(Run(w, acts, cfg, g), Denied(w, acts, cfg, g), cfg)
  {
    hide Consistent, Leases, Step, DeniedAfter;
    if acts == [] {
    } else {
      var rest := acts[..|acts| - 1];
      LeasesRun(w, rest, cfg, g);
      ConsistentRun(w, rest, cfg, g);
      LeasesStep(Run(w, rest, cfg, g), Denied(w, rest, cfg, g), acts[|acts| - 1], cfg, g);
    }
  }

  // ---- Theorems ----

  lemma {:induction false} StopEntriesAreUnique(services: seq<ServiceEntry>)
    requires UniqueIds(services)
    ensures UniqueIds(StopEntries(services))
    ensures forall e :: e in StopEntries(services) ==> e in services
  {
    if services == [] {
    } else {
      var rest, last := services[..|services| - 1], services[|services| - 1];
      StopEntriesAreUnique(rest);
      assert services == rest + [last];
      forall e | e in StopEntries(rest)
        ensures e.id != last.id
      {
        var i :| 0 <= i < |rest| && rest[i] == e;
      }
    }
  }

  lemma RunningIsBySnapshot(pre: seq<ServiceSnapshot>, entries: seq<ServiceEntry>)
    requires SnapshotsOf(pre, entries) && UniqueIds(entries)
    ensures forall snap :: snap in pre ==> (Service(snap.id) in RunningLeases(pre) <==> snap.wasRunning)
  {
    forall snap | snap in pre
      ensures Service(snap.id) in RunningLeases(pre) <==> snap.wasRunning
    {
      if Service(snap.id) in RunningLeases(pre) {
        var other :| other in pre && other.wasRunning && other.id == snap.id;
        var i :| 0 <= i < |pre| && pre[i] == snap;
        var j :| 0 <= j < |pre| && pre[j] == other;
        assert entries[i].id == entries[j].id;
      }
    }
  }

  /** The resources refused to the last backup, in a run from a process start. */
  ghost function DeniedIn(
      disk: BackupPhase, stopped: set<ServiceId>, mono: nat, maintenance: map<ServiceId, nat>, acts: seq<Action>,
      cfg: Config, g: BuiltGraph): set<ResourceId>
  {
    Denied(Boot(disk, stopped, Covered(disk), mono, maintenance, cfg), acts, cfg, g)
  }

  lemma DaemonLeases(
      disk: BackupPhase, stopped: set<ServiceId>, mono: nat, maintenance: map<ServiceId, nat>, acts: seq<Action>,
      cfg: Config, g: BuiltGraph)
    requires cfg.Valid()
    ensures Leases(
              Daemon(disk, stopped, mono, maintenance, acts, cfg, g),
              DeniedIn(disk, stopped, mono, maintenance, acts, cfg, g), cfg)
  {
    hide Run, Boot, Consistent, Leases;
    ConsistentBoot(disk, stopped, Covered(disk), mono, maintenance, cfg);
    LeasesBoot(disk, stopped, Covered(disk), mono, maintenance, cfg);
    LeasesRun(Boot(disk, stopped, Covered(disk), mono, maintenance, cfg), acts, cfg, g);
  }

  /** When the executor has finished an event and no backup is active, the repository is
      free, and of the services of the last run exactly those that it did not find running
      are still held: by that run, if it was not refused the lease when it asked for it, and
      else by another, whose lease was unexpired then. */
  lemma LeasesAtRest(
      disk: BackupPhase, stopped: set<ServiceId>, mono: nat, maintenance: map<ServiceId, nat>, acts: seq<Action>,
      cfg: Config, g: BuiltGraph)
    requires cfg.Valid()
    ensures var w := Daemon(disk, stopped, mono, maintenance, acts, cfg, g);
            var denied := DeniedIn(disk, stopped, mono, maintenance, acts, cfg, g);
            var held := w.m.view.held;
            w.queue == [] && w.m.view.phase.Idle? ==>
              && BackupRepo !in held
              && (w.lastRun.None? ==> held == map[])
              && (w.lastRun.Some? ==>
                  var run, pre := w.lastRun.value.run, w.lastRun.value.pre;
                  && (forall r :: r in held ==> r in LeasesOf(pre))
                  && (forall snap :: snap in pre ==> (Service(snap.id) in held <==> !snap.wasRunning))
                  && (forall r :: r in held ==> (held[r].holder == run <==> r !in denied)))
  {
    hide Daemon, DeniedIn, Leases;
    DaemonLeases(disk, stopped, mono, maintenance, acts, cfg, g);
    RestingLeases(
      Daemon(disk, stopped, mono, maintenance, acts, cfg, g),
      DeniedIn(disk, stopped, mono, maintenance, acts, cfg, g), cfg);
  }

  lemma RestingLeases(w: World, denied: set<ResourceId>, cfg: Config)
    requires Leases(w, denied, cfg) && cfg.Valid()
    ensures w.lastRun.None? ==> w.m.view.held == map[]
    ensures w.queue == [] && w.m.view.phase.Idle? && w.lastRun.Some? ==>
              var held, run, pre := w.m.view.held, w.lastRun.value.run, w.lastRun.value.pre;
              && BackupRepo !in held
              && (forall r :: r in held ==> r in LeasesOf(pre))
              && (forall snap :: snap in pre ==> (Service(snap.id) in held <==> !snap.wasRunning))
              && (forall r :: r in held ==> (held[r].holder == run <==> r !in denied))
  {
    hide Core, KeysAfter, StopEntries, AcquiresFirst, StopsLeased;
    if w.queue == [] && w.m.view.phase.Idle? && w.lastRun.Some? {
      var held, run := w.m.view.held, w.lastRun.value.run;
      CoreOfOthers([]);
      KeysByOthers(held.Keys, []);
      StopEntriesAreUnique(cfg.services);
      RunningIsBySnapshot(w.lastRun.value.pre, StopEntries(cfg.services));
      forall r | r in held
        ensures held[r].holder == run <==> r !in denied
      {
        assert Owned(held, r, run, Core(w.queue), denied, w.m.clock);
      }
    }
  }

  /** A backup stops a service only while its lease is held, after asking for it; the lease
      is the run's own exactly if it was not refused. */
  lemma StopsUnderLease(
      disk: BackupPhase, stopped: set<ServiceId>, mono: nat, maintenance: map<ServiceId, nat>, acts: seq<Action>,
      cfg: Config, g: BuiltGraph)
    requires cfg.Valid()
    ensures var w := Daemon(disk, stopped, mono, maintenance, acts, cfg, g);
            var denied := DeniedIn(disk, stopped, mono, maintenance, acts, cfg, g);
            w.queue != [] && w.queue[0].StopService? ==>
              var r, held := Service(w.queue[0].id), w.m.view.held;
              && w.lastRun.Some? && r in held && AcquireLease(r, w.lastRun.value.run) !in Core(w.queue)
              && (held[r].holder == w.lastRun.value.run <==> r !in denied)
  {
    hide Daemon, DeniedIn, Leases;
    DaemonLeases(disk, stopped, mono, maintenance, acts, cfg, g);
    StopIsLeased(
      Daemon(disk, stopped, mono, maintenance, acts, cfg, g),
      DeniedIn(disk, stopped, mono, maintenance, acts, cfg, g), cfg);
  }

  lemma StopIsLeased(w: World, denied: set<ResourceId>, cfg: Config)
    requires Leases(w, denied, cfg)
    ensures w.queue != [] && w.queue[0].StopService? ==>
              var r, held := Service(w.queue[0].id), w.m.view.held;
              && w.lastRun.Some? && r in held && AcquireLease(r, w.lastRun.value.run) !in Core(w.queue)
              && (held[r].holder == w.lastRun.value.run <==> r !in denied)
  {
    hide Keeps, StopEntries, SnapshotsOf, Remembers, KeysAfter;
    if w.queue != [] && w.queue[0].StopService? {
      var k := Core(w.queue);
      assert k[0] == w.queue[0];
      var run := w.lastRun.value.run;
      assert Owned(w.m.view.held, Service(w.queue[0].id), run, k, denied, w.m.clock);
    }
  }
}
