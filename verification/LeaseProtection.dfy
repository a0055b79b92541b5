/** What a lease protects: a granted lease stands, and a backup started on free leases keeps
    probes from restarting the services it stops. */
module LeaseProtection {
  import opened Model
  import opened Lease
  import opened Graph
  import opened Reducer
  import opened Runtime
  import opened World
  import opened BackupMoves
  import opened BackupRuns
  import opened BackupLifecycle
  import opened ProbeCycle
  import opened ServiceSteps
  import opened ServiceRuns
  import opened LeaseSafety

  // ---- A granted lease stands ----

  /** A step that executes the release of a resource. */
  predicate Releases(w: World, a: Action, r: ResourceId) {
    a.Exec? && w.queue != [] && w.queue[0] == ReleaseLease(r)
  }

  ghost predicate NoReleases(w: World, acts: seq<Action>, r: ResourceId, cfg: Config, g: BuiltGraph)
  {
    acts != [] ==>
      && NoReleases(w, acts[..|acts| - 1], r, cfg, g)
      && !Releases(Run(w, acts[..|acts| - 1], cfg, g), acts[|acts| - 1], r)
  }

  ghost predicate Holds(w: World, r: ResourceId, e: LeaseEntry) {
    r in w.m.view.held && w.m.view.held[r] == e
  }

  lemma LeaseStandsInEffect(m: Machine, c: Command, reading: Reading, r: ResourceId, e: LeaseEntry)
    requires r in m.view.held && m.view.held[r] == e && c != ReleaseLease(r)
    requires Effect(m, c, reading).clock < e.acquired + LEASE_TTL
    ensures r in Effect(m, c, reading).view.held && Effect(m, c, reading).view.held[r] == e
  {
  }

  lemma LeaseStandsInStep(w: World, a: Action, r: ResourceId, e: LeaseEntry, cfg: Config, g: BuiltGraph)
    requires !a.Crash? && Holds(w, r, e) && !Releases(w, a, r)
    requires Step(w, a, cfg, g).m.clock < e.acquired + LEASE_TTL
    ensures Holds(Step(w, a, cfg, g), r, e)
  {
    hide Reduce, ExecOne, Core, StartScript, AfterJob, Effect;
    if Enabled(w, a) {
      match a
      case Deliver(event, ctx) =>
        var _, _ := DeliverStep(w, event, ctx, cfg, g);
      case Exec(reading) =>
        ExecStep(w, reading, cfg, g);
        if BackupCommand(w.queue[0]) {
          LeaseStandsInEffect(w.m, w.queue[0], reading, r, e);
        }
    }
  }

  lemma HeldIsNotRestarted(
      w: World, a: Action, id: ServiceId, e: LeaseEntry, cfg: Config, g: BuiltGraph, entry: ServiceEntry)
    requires cfg.Valid() && !a.Crash? && Tracks(w, cfg, id, entry) && Holds(w, Service(id), e)
    requires Step(w, a, cfg, g).m.clock < e.acquired + LEASE_TTL
    ensures Tracks(Step(w, a, cfg, g), cfg, id, entry) && !Restarting(w, a, cfg, g, id)
  {
    hide Step, Emitted, Model.FindIn, Moved, RestartsOf, Admits, Justified;
    var _ := ServiceStep(w, a, cfg, g, id, entry);
  }

  /** A lease, once granted, stays with its holder until it is released or 7200 seconds have
      passed, whoever else asks for it; until then no probe restarts the leased service. */
  lemma {:induction false} LeaseStands(
      w: World, acts: seq<Action>, id: ServiceId, e: LeaseEntry, cfg: Config, g: BuiltGraph, entry: ServiceEntry)
    requires cfg.Valid() && NoCrash(acts) && Tracks(w, cfg, id, entry)
    requires Holds(w, Service(id), e) && NoReleases(w, acts, Service(id), cfg, g)
    requires Run(w, acts, cfg, g).m.clock < e.acquired + LEASE_TTL
    ensures Tracks(Run(w, acts, cfg, g), cfg, id, entry)
    ensures Holds(Run(w, acts, cfg, g), Service(id), e)
    ensures RestartTimes(w, acts, cfg, g, id) == []
  {
    hide Step, Model.FindIn, Releases, Restarting;
    if acts == [] {
    } else {
      var rest, last := acts[..|acts| - 1], acts[|acts| - 1];
      var before := Run(w, rest, cfg, g);
      ClockStep(before, last, cfg, g);
      LeaseStands(w, rest, id, e, cfg, g, entry);
      LeaseStandsInStep(before, last, Service(id), e, cfg, g);
      HeldIsNotRestarted(before, last, id, e, cfg, g, entry);
    }
  }

  // ---- A backup started on free leases protects the services it stops ----

  /** The run has yet to ask for the lease, and whatever lease there is has expired. */
  ghost predicate Pending(w: World, id: ServiceId, run: RunId) {
    var r, held := Service(id), w.m.view.held;
    && AcquireLease(r, run) in Core(w.queue)
    && (forall c :: c in Core(w.queue) && c.AcquireLease? ==> c.holder == run)
    && run <= w.m.clock
    && (r in held ==> held[r].holder != run && held[r].acquired + LEASE_TTL <= w.m.clock)
  }

  ghost predicate Protected(w: World, id: ServiceId, run: RunId) {
    var r, held := Service(id), w.m.view.held;
    r in held && held[r].holder == run && held[r].acquired >= run
  }

  lemma PendingStep(w: World, a: Action, id: ServiceId, run: RunId, cfg: Config, g: BuiltGraph)
    requires !a.Crash? && Pending(w, id, run) && !Releases(w, a, Service(id))
    ensures Pending(Step(w, a, cfg, g), id, run) || Protected(Step(w, a, cfg, g), id, run)
  {
    hide Reduce, ExecOne, Core, StartScript, AfterJob, Effect;
    CoreOfOthers([]);
    if Enabled(w, a) {
      match a
      case Exec(reading) =>
        ExecStep(w, reading, cfg, g);
        if BackupCommand(w.queue[0]) {
          PendingHead(w, Step(w, a, cfg, g), reading, id, run);
        }
    }
  }

  lemma PendingHead(w: World, w': World, reading: Reading, id: ServiceId, run: RunId)
    requires Pending(w, id, run) && HeadExecuted(w, w', reading) && w.queue[0] != ReleaseLease(Service(id))
    ensures Pending(w', id, run) || Protected(w', id, run)
  {
    hide Core;
    assert forall c :: c in Core(w.queue) <==> c == w.queue[0] || c in Core(w'.queue);
    assert w.queue[0] in Core(w.queue);
  }

  lemma {:induction false} ProtectionHolds(
      w: World, acts: seq<Action>, id: ServiceId, run: RunId, cfg: Config, g: BuiltGraph)
    requires NoCrash(acts) && (Pending(w, id, run) || Protected(w, id, run))
    requires NoReleases(w, acts, Service(id), cfg, g) && Run(w, acts, cfg, g).m.clock < run + LEASE_TTL
    ensures Pending(Run(w, acts, cfg, g), id, run) || Protected(Run(w, acts, cfg, g), id, run)
  {
    hide Step, Pending, Releases;
    if acts == [] {
    } else {
      var rest, last := acts[..|acts| - 1], acts[|acts| - 1];
      var before := Run(w, rest, cfg, g);
      ClockStep(before, last, cfg, g);
      ProtectionHolds(w, rest, id, run, cfg, g);
      if Protected(before, id, run) {
        LeaseStandsInStep(before, last, Service(id), before.m.view.held[Service(id)], cfg, g);
      } else {
        PendingStep(before, last, id, run, cfg, g);
      }
    }
  }

  lemma {:induction false} ClockRun(w: World, acts: seq<Action>, cfg: Config, g: BuiltGraph)
    requires NoCrash(acts)
    ensures Run(w, acts, cfg, g).m.clock >= w.m.clock
  {
    hide Step;
    if acts == [] {
    } else {
      ClockRun(w, acts[..|acts| - 1], cfg, g);
      ClockStep(Run(w, acts[..|acts| - 1], cfg, g), acts[|acts| - 1], cfg, g);
    }
  }

  /** A step that starts a backup. */
  ghost predicate StartsBackup(w: World, a: Action, cfg: Config, g: BuiltGraph)
  {
    Enabled(w, a) && a.Deliver? && |Step(w, a, cfg, g).starts| > |w.starts|
  }

  lemma StartIsPending(
      w: World, denied: set<ResourceId>, a: Action, e: ServiceEntry, cfg: Config, g: BuiltGraph)
    requires cfg.Valid() && Leases(w, denied, cfg) && StartsBackup(w, a, cfg, g)
    requires e in StopEntries(cfg.services)
    requires Free(w.m.view.held, LEASE_TTL, Service(e.id), Step(w, a, cfg, g).m.clock)
    ensures Pending(Step(w, a, cfg, g), e.id, Step(w, a, cfg, g).m.clock)
  {
    hide Reduce, Core, StartScript, StopEntries, Remembers, Keeps, KeysAfter, StopsLeased, AcquiresFirst;
    var out, move := DeliverStep(w, a.event, a.ctx, cfg, g);
    var run, entries := At(w.m.clock, a.ctx).mono, StopEntries(cfg.services);
    StartAcquires({}, run, entries, out.view.phase.pre);
    assert Service(e.id) in EntryLeases(entries);
    if w.lastRun.Some? {
      assert Owned(w.m.view.held, Service(e.id), w.lastRun.value.run, Core(w.queue), denied, w.m.clock);
    }
  }

  lemma DaemonContinues(
      disk: BackupPhase, stopped: set<ServiceId>, mono: nat, maintenance: map<ServiceId, nat>, prior: seq<Action>,
      a: Action, acts: seq<Action>, cfg: Config, g: BuiltGraph)
    ensures Daemon(disk, stopped, mono, maintenance, prior + [a] + acts, cfg, g) ==
            Run(Step(Daemon(disk, stopped, mono, maintenance, prior, cfg, g), a, cfg, g), acts, cfg, g)
  {
    hide Step, Boot, Run;
    var w := Boot(disk, stopped, Covered(disk), mono, maintenance, cfg);
    RunAppend(w, prior + [a], acts, cfg, g);
    RunAppend(w, prior, [a], cfg, g);
    RunOne(Run(w, prior, cfg, g), a, cfg, g);
  }

  /** A backup that starts while the lease of a stop service is free gets that lease when it
      asks for it, before it stops the service. From then on, until the lease is released or
      7200 seconds after the start, the lease stays with the run and no probe restarts the
      service. */
  lemma StartProtects(
      disk: BackupPhase, stopped: set<ServiceId>, mono: nat, maintenance: map<ServiceId, nat>, prior: seq<Action>,
      start: Action, before: seq<Action>, after: seq<Action>, e: ServiceEntry, cfg: Config, g: BuiltGraph)
    requires cfg.Valid() && NoCrash(before) && NoCrash(after) && e in StopEntries(cfg.services)
    requires var w := Daemon(disk, stopped, mono, maintenance, prior, cfg, g);
             && StartsBackup(w, start, cfg, g)
             && Free(w.m.view.held, LEASE_TTL, Service(e.id), Step(w, start, cfg, g).m.clock)
    requires var started := Step(Daemon(disk, stopped, mono, maintenance, prior, cfg, g), start, cfg, g);
             var asked := Run(started, before, cfg, g);
             && NoReleases(started, before, Service(e.id), cfg, g) && NoReleases(asked, after, Service(e.id), cfg, g)
             && Run(asked, after, cfg, g).m.clock < started.m.clock + LEASE_TTL
             && AcquireLease(Service(e.id), started.m.clock) !in Core(asked.queue)
    ensures var started := Step(Daemon(disk, stopped, mono, maintenance, prior, cfg, g), start, cfg, g);
            var asked := Run(started, before, cfg, g);
            && Protected(asked, e.id, started.m.clock) && Protected(Run(asked, after, cfg, g), e.id, started.m.clock)
            && RestartTimes(asked, after, cfg, g, e.id) == []
  {
    hide Daemon, Step, Run, Leases, StartsBackup, Free, Core, NoReleases, RestartTimes, Model.FindIn, StopEntries;
    var w := Daemon(disk, stopped, mono, maintenance, prior, cfg, g);
    var started := Step(w, start, cfg, g);
    var asked, run := Run(started, before, cfg, g), started.m.clock;
    DaemonLeases(disk, stopped, mono, maintenance, prior, cfg, g);
    StartIsPending(w, DeniedIn(disk, stopped, mono, maintenance, prior, cfg, g), start, e, cfg, g);
    StopEntriesAreUnique(cfg.services);
    var acts := prior + [start] + before;
    DaemonTracks(disk, stopped, mono, maintenance, acts, cfg, g, e);
    DaemonContinues(disk, stopped, mono, maintenance, prior, start, before, cfg, g);
    ClockRun(asked, after, cfg, g);
    ProtectionHolds(started, before, e.id, run, cfg, g);
    LeaseStands(asked, after, e.id, asked.m.view.held[Service(e.id)], cfg, g, e);
  }
}
