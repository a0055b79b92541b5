/** Building runs: a process start, a probe cycle in which one service fails, and the execution
    of what is emitted. */
module Rounds {
  import opened Model
  import opened Wrappers
  import opened Schedule
  import opened History
  import opened Lease
  import opened Graph
  import opened Recovery
  import opened Reducer
  import opened Runtime
  import opened World
  import opened ProbeCycle
  import opened ServiceSteps
  import opened ServiceRuns
  import opened BackupConsistency
  import opened BackupLifecycle
  import Breaker

  const NOON := WallClock(2025, 1, 1, 12, 0, 3)
  const QUIETLY := Reading(Ctx(0, NOON), {}, true)

  lemma {:induction false} TimesAppend(
      w: World, a: seq<Action>, b: seq<Action>, cfg: Config, g: BuiltGraph, id: ServiceId)
    ensures RestartTimes(w, a + b, cfg, g, id) ==
            RestartTimes(w, a, cfg, g, id) + RestartTimes(Run(w, a, cfg, g), b, cfg, g, id)
  {
    hide Step, Restarting;
    if b == [] {
      assert a + b == a;
    } else {
      var rest := b[..|b| - 1];
      TimesAppend(w, a, rest, cfg, g, id);
      assert (a + b)[..|a + b| - 1] == a + rest;
      RunAppend(w, a, rest, cfg, g);
      RunAppend(w, a, b, cfg, g);
    }
  }

  lemma TimesOfOne(w: World, a: Action, cfg: Config, g: BuiltGraph, id: ServiceId)
    ensures RestartTimes(w, [a], cfg, g, id) ==
            if Restarting(w, a, cfg, g, id) then [Step(w, a, cfg, g).m.clock] else []
  {
    hide Step, Restarting;
    assert [a][..0] == [];
    RunOne(w, a, cfg, g);
    assert Run(w, [], cfg, g) == w;
  }

  // ---- A process starts ----

  /** A process that starts on a clean disk at instant zero. */
  ghost function Fresh(cfg: Config): World {
    Boot(Idle, {}, Covered(Idle), 0, map[], cfg)
  }

  /** The startup probes of all services, with these healthy. */
  function Startup(cfg: Config, healthy: set<ServiceId>): Action {
    Deliver(StartupProbeResults(Probe(cfg.order, cfg, healthy)), Ctx(0, NOON))
  }

  function Seen(status: Status): SvcState {
    SvcState(status, Closed, [], None, None)
  }

  /** The process has made its startup probes, and nothing else has happened. */
  ghost predicate Up(cfg: Config, healthy: set<ServiceId>, w: World) {
    && w == Fresh(cfg).(m := w.m, observed := true)
    && w.m == Machine(InitialView(cfg, map[]).(services := w.m.view.services), Idle, {}, false, 0)
    && w.queue == []
    && forall id :: id in cfg.Ids() ==>
         && id in w.m.view.services && w.m.view.services[id] == Seen(w.m.view.services[id].status)
         && (w.m.view.services[id].status.Healthy? <==> id in healthy)
  }

  lemma StartsUp(cfg: Config, g: BuiltGraph, healthy: set<ServiceId>)
    requires cfg.Valid()
    ensures Up(cfg, healthy, Step(Fresh(cfg), Startup(cfg, healthy), cfg, g))
  {
    hide HandleProbes, HandleTick, HandleRemediation, HandleEffect, Observe, Blocked, Model.FindIn;
    var v, results := InitialView(cfg, map[]), Probe(cfg.order, cfg, healthy);
    var blocked := Blocked(g, UnhealthyIn(results));
    forall id | id in cfg.Ids()
      ensures var m := Observe(v.services, results, blocked, 0);
              id in m && m[id] == Seen(m[id].status) && (m[id].status.Healthy? <==> id in healthy)
    {
      ObserveOne(v.services, results, blocked, 0, id);
      ProbesCoverServices(cfg.order, cfg, healthy, id);
    }
  }

  // ---- Actions of probe cycles ----

  /** A probe cycle is asked for over HTTP. */
  function Ask(now: nat): Action {
    Deliver(HttpCommand(CommandRequest.Trigger(TaskKind.Recovery)), Ctx(now, NOON))
  }

  /** Nothing happens but the startup probes, probe cycles, and the execution of what they emit. */
  ghost predicate Probing(acts: seq<Action>) {
    && NoCrash(acts)
    && forall a :: a in acts ==> a.Exec? || (a.Deliver? && (a.event.StartupProbeResults? || a == Ask(a.ctx.mono)))
  }

  lemma ProbingAppend(a: seq<Action>, b: seq<Action>)
    requires Probing(a) && Probing(b)
    ensures Probing(a + b)
  {
  }

  // ---- Executing part of a queue ----

  function Execution(r: Reading, n: nat): seq<Action> {
    seq(n, i => Exec(r))
  }

  /** Commands without nested ones that do not end the process. */
  ghost predicate Plain(queue: seq<Command>) {
    forall c :: c in queue ==> !c.RunProbes? && !c.Shutdown?
  }

  /** What executing commands leaves alone. */
  ghost predicate SameRun(a: World, b: World) {
    && b.m.clock == a.m.clock && b.lastRun == a.lastRun && b.starts == a.starts
    && b.m.view.phase == a.m.view.phase && b.m.view.services == a.m.view.services
    && b.m.view.lastBackupDay == a.m.view.lastBackupDay && b.m.view.log == a.m.view.log
    && b.m.view.shuttingDown == a.m.view.shuttingDown && b.observed == a.observed
  }

  lemma PlainExec(w: World, r: Reading, cfg: Config, g: BuiltGraph)
    requires w.queue != [] && Plain(w.queue) && r.ctx.mono == 0
    ensures var w' := Step(w, Exec(r), cfg, g);
            SameRun(w, w') && w'.queue == w.queue[1..] && w'.m == Effect(w.m, w.queue[0], r)
  {
    hide Reduce;
    assert w.queue[0] in w.queue;
  }

  lemma {:induction false} ExecuteSome(w: World, r: Reading, n: nat, cfg: Config, g: BuiltGraph)
    requires n <= |w.queue| && Plain(w.queue) && r.ctx.mono == 0
    ensures var w' := Run(w, Execution(r, n), cfg, g);
            && SameRun(w, w') && w'.queue == w.queue[n..]
            && w'.m.disk == DiskAfter(w.m.disk, w.queue[..n])
            && w'.m.spawnFailed == (w.m.spawnFailed || (!r.spawnOk && exists c :: c in w.queue[..n] && IsJob(c)))
  {
    hide Step, DiskAfter;
    if n == 0 {
      assert Execution(r, 0) == [];
      SummaryOfOthers(w.m.disk, []);
    } else {
      ExecuteSome(w, r, n - 1, cfg, g);
      var before, c := Run(w, Execution(r, n - 1), cfg, g), w.queue[n - 1];
      assert Execution(r, n)[..n - 1] == Execution(r, n - 1);
      PlainExec(before, r, cfg, g);
      assert w.queue[..n] == w.queue[..n - 1] + [c] && w.queue[n - 1..][1..] == w.queue[n..];
      SummaryAppend(w.m.disk, w.queue[..n - 1], [c]);
      DiskAfterOne(before.m.disk, c);
    }
  }

  lemma DiskAfterOne(disk: BackupPhase, c: Command)
    ensures DiskAfter(disk, [c]) == if c.PersistBackupState? then c.phase else disk
  {
    assert [c][1..] == [];
  }

  // ---- Executing what a probe cycle emits ----

  lemma QuietExec(w: World, cfg: Config, g: BuiltGraph, id: ServiceId)
    requires w.queue != [] && Quiet(w.queue[0])
    ensures var w' := Step(w, Exec(QUIETLY), cfg, g);
            && w'.queue == w.queue[1..] && w'.m.view == w.m.view && w'.m.clock == w.m.clock
            && w'.observed == w.observed
    ensures !Restarting(w, Exec(QUIETLY), cfg, g, id)
  {
    hide Reduce;
  }

  lemma {:induction false} Drain(w: World, cfg: Config, g: BuiltGraph, id: ServiceId) returns (acts: seq<Action>)
    requires AllQuiet(w.queue)
    ensures Probing(acts) && RestartTimes(w, acts, cfg, g, id) == []
    ensures var w' := Run(w, acts, cfg, g);
            w'.queue == [] && w'.m.view == w.m.view && w'.m.clock == w.m.clock && w'.observed == w.observed
    decreases |w.queue|
  {
    hide Step, Restarting;
    if w.queue == [] {
      acts := [];
    } else {
      var a := Exec(QUIETLY);
      QuietExec(w, cfg, g, id);
      var rest := Drain(Step(w, a, cfg, g), cfg, g, id);
      acts := [a] + rest;
      RunOne(w, a, cfg, g);
      RunAppend(w, [a], rest, cfg, g);
      TimesOfOne(w, a, cfg, g, id);
      TimesAppend(w, [a], rest, cfg, g, id);
    }
  }

  // ---- A probe cycle in which one service fails ----

  /** Between events of the loop, with the service tracked, its lease free and no maintenance. */
  ghost predicate Ready(w: World, cfg: Config, e: ServiceEntry) {
    && w.queue == [] && w.observed && !w.m.view.shuttingDown
    && Free(w.m.view.held, LEASE_TTL, Service(e.id), w.m.clock)
    && Tracks(w, cfg, e.id, e) && w.m.view.services[e.id].maintenance == None
  }

  lemma AskStep(w: World, cfg: Config, g: BuiltGraph, now: nat, id: ServiceId)
    requires w.queue == [] && w.observed && !w.m.view.shuttingDown && w.m.clock <= now
    ensures Step(w, Ask(now), cfg, g) == w.(m := w.m.(clock := now), queue := [RunProbes(cfg.order)])
    ensures !Restarting(w, Ask(now), cfg, g, id)
  {
    hide HandleProbes, HandleRemediation, HandleEffect, Observe;
    var v, due := w.m.view, [TaskKind.Recovery];
    assert due[..0] == [];
    assert HandleTick(v, [], cfg, At(w.m.clock, Ctx(now, NOON))) == Out(v, []);
    assert Emitted(w, Ask(now), cfg, g) == [RunProbes(cfg.order)];
    NoRestarts([RunProbes(cfg.order)], id);
  }

  /** What an unhealthy result does to a service that fails alone and whose lease is free. */
  function Unwell(svc: SvcState, entry: ServiceEntry, now: nat): SvcState {
    ApplyDecision(svc, entry, EvaluateSingle(false, svc, entry, None, false, now), true, now)
  }

  function AllBut(cfg: Config, id: ServiceId): set<ServiceId> {
    cfg.Ids() - {id}
  }

  /** The asked probes are executed, and every service is healthy but one. */
  function Fails(cfg: Config, id: ServiceId, now: nat): Action {
    Exec(Reading(Ctx(now, NOON), AllBut(cfg, id), true))
  }

  lemma AloneIsNotBlocked(cfg: Config, g: BuiltGraph, e: ServiceEntry)
    requires cfg.FindService(e.id) == Some(e)
    ensures e.id !in Blocked(g, {e.id})
    ensures !(e.kind == DockerSystemd && DockerIsRoot(cfg, RootCauses(g, {e.id})))
  {
    if e.id in g.DependenciesOf(e.id) {
      DependencyIsShallower(g, e.id, e.id);
      assert false;
    }
    if e.kind == DockerSystemd {
      var roots := RootCauses(g, {e.id});
      assert DockerServices(cfg, roots) <= {e.id};
      SubsetIsNoLarger(DockerServices(cfg, roots), {e.id});
      assert DOCKER_DAEMON in roots ==> DOCKER_DAEMON == e.id;
    }
  }

  lemma FailsAlone(cfg: Config, e: ServiceEntry)
    requires cfg.Valid() && cfg.FindService(e.id) == Some(e)
    ensures var results := Probe(cfg.order, cfg, AllBut(cfg, e.id));
            UnhealthyIn(results) == {e.id} && Verdict(results, e.id) == Some(false)
  {
    hide Model.FindIn, UnhealthyIn, Verdict;
    var results := Probe(cfg.order, cfg, AllBut(cfg, e.id));
    ProbesCoverServices(cfg.order, cfg, AllBut(cfg, e.id), e.id);
    forall id
      ensures id in UnhealthyIn(results) <==> id == e.id
    {
      ProbesCoverServices(cfg.order, cfg, AllBut(cfg, e.id), id);
    }
  }

  lemma FailureIsDecided(v: View, cfg: Config, g: BuiltGraph, e: ServiceEntry, now: nat)
    requires cfg.Valid() && e.id in v.services && cfg.FindService(e.id) == Some(e)
    ensures var results := Probe(cfg.order, cfg, AllBut(cfg, e.id));
            DecisionFor(Plan(results, v.services, cfg, g, now).decisions, cfg.order, e.id) ==
            Some(EvaluateSingle(false, v.services[e.id], e, None, false, now))
  {
    hide Model.FindIn, DockerIsRoot, RootCauses, Blocked, Verdict, UnhealthyIn;
    var results := Probe(cfg.order, cfg, AllBut(cfg, e.id));
    FailsAlone(cfg, e);
    AloneIsNotBlocked(cfg, g, e);
    var dockerRoot := DockerIsRoot(cfg, RootCauses(g, {e.id}));
    DecisionIsVerdict(results, v.services, cfg, Blocked(g, {e.id}), dockerRoot, now, e.id);
    assert e.id in cfg.order;
  }

  lemma FailureStep(w: World, cfg: Config, g: BuiltGraph, e: ServiceEntry)
    requires cfg.Valid() && Tracks(w, cfg, e.id, e) && Free(w.m.view.held, LEASE_TTL, Service(e.id), w.m.clock)
    requires w.queue == [RunProbes(cfg.order)] && !w.m.view.shuttingDown
    ensures var now := w.m.clock;
            var a, svc := Fails(cfg, e.id, now), w.m.view.services[e.id];
            var w' := Step(w, a, cfg, g);
            && OnlyServicesMove(w.m.view, Out(w'.m.view, w'.queue)) && w'.m.clock == now && w'.observed == w.observed
            && Tracks(w', cfg, e.id, e) && w'.m.view.services[e.id] == Unwell(svc, e, now)
            && (Restarting(w, a, cfg, g, e.id) <==> EvaluateSingle(false, svc, e, None, false, now).Restart?)
  {
    hide HandleProbes, Plan, ApplyDecision, EvaluateSingle, Model.FindIn, RestartsOf, Probe;
    var v, a, results := w.m.view, Fails(cfg, e.id, w.m.clock), Probe(cfg.order, cfg, AllBut(cfg, e.id));
    var ctx := At(w.m.clock, Ctx(w.m.clock, NOON));
    CycleStep(w, a, cfg, g);
    ProbesAreQuiet(v, results, cfg, g, ctx);
    CycleTreats(v, results, cfg, g, ctx, e.id);
    FailureIsDecided(v, cfg, g, e, w.m.clock);
    assert w.queue[1..] == [];
    assert Emitted(w, a, cfg, g) == Step(w, a, cfg, g).queue;
  }

  lemma FailureIsProbing(cfg: Config, id: ServiceId, now: nat)
    ensures Probing([Ask(now), Fails(cfg, id, now)])
  {
  }

  lemma UnwellKeepsMaintenance(svc: SvcState, e: ServiceEntry, now: nat)
    ensures Unwell(svc, e, now).maintenance == svc.maintenance
  {
    hide CountSince, Pushed, EvaluateSingle;
  }

  lemma RunTwo(w: World, a: Action, b: Action, cfg: Config, g: BuiltGraph, id: ServiceId)
    requires !Restarting(w, a, cfg, g, id)
    ensures Run(w, [a, b], cfg, g) == Step(Step(w, a, cfg, g), b, cfg, g)
    ensures RestartTimes(w, [a, b], cfg, g, id) ==
            if Restarting(Step(w, a, cfg, g), b, cfg, g, id) then [Step(Step(w, a, cfg, g), b, cfg, g).m.clock] else []
  {
    hide Step, Restarting, Run, RestartTimes;
    assert [a, b] == [a] + [b];
    RunOne(w, a, cfg, g);
    RunOne(Step(w, a, cfg, g), b, cfg, g);
    RunAppend(w, [a], [b], cfg, g);
    TimesOfOne(w, a, cfg, g, id);
    TimesOfOne(Step(w, a, cfg, g), b, cfg, g, id);
    TimesAppend(w, [a], [b], cfg, g, id);
  }

  /** A probe cycle in which one service fails, and the execution of everything it emits. */
  lemma FailedProbe(w: World, cfg: Config, g: BuiltGraph, e: ServiceEntry, now: nat) returns (acts: seq<Action>)
    requires cfg.Valid() && Ready(w, cfg, e) && w.m.clock <= now
    ensures Probing(acts) && Ready(Run(w, acts, cfg, g), cfg, e) && Run(w, acts, cfg, g).m.clock == now
    ensures Run(w, acts, cfg, g).m.view.services[e.id] == Unwell(w.m.view.services[e.id], e, now)
    ensures RestartTimes(w, acts, cfg, g, e.id) ==
            if EvaluateSingle(false, w.m.view.services[e.id], e, None, false, now).Restart? then [now] else []
  {
    hide Step, Run, RestartTimes, Restarting, Unwell, EvaluateSingle, Model.FindIn, Probing, Ask, Fails;
    AskStep(w, cfg, g, now, e.id);
    var asked := Step(w, Ask(now), cfg, g);
    FailureStep(asked, cfg, g, e);
    UnwellKeepsMaintenance(w.m.view.services[e.id], e, now);
    RunTwo(w, Ask(now), Fails(cfg, e.id, now), cfg, g, e.id);
    var both := [Ask(now), Fails(cfg, e.id, now)];
    var w1 := Run(w, both, cfg, g);
    var rest := Drain(w1, cfg, g, e.id);
    acts := both + rest;
    FailureIsProbing(cfg, e.id, now);
    ProbingAppend(both, rest);
    RunAppend(w, both, rest, cfg, g);
    TimesAppend(w, both, rest, cfg, g, e.id);
  }

  /** A fresh process whose services are all found healthy. */
  lemma StartsReady(cfg: Config, g: BuiltGraph, e: ServiceEntry) returns (acts: seq<Action>)
    requires cfg.Valid() && e in cfg.services
    ensures Probing(acts) && RestartTimes(Fresh(cfg), acts, cfg, g, e.id) == []
    ensures var w := Run(Fresh(cfg), acts, cfg, g);
            Ready(w, cfg, e) && w.m.clock == 0 && w.m.view.services[e.id] == Seen(w.m.view.services[e.id].status)
  {
    hide Step, Boot, Run, RestartTimes, Restarting, Model.FindIn;
    var up := Startup(cfg, cfg.Ids());
    acts := [up];
    StartsUp(cfg, g, cfg.Ids());
    RunOne(Fresh(cfg), up, cfg, g);
    TimesOfOne(Fresh(cfg), up, cfg, g, e.id);
    StartupRestartsNothing(Fresh(cfg), cfg.Ids(), cfg, g, e.id);
    FindsEntry(cfg.services, e);
  }

  lemma StartupRestartsNothing(w: World, healthy: set<ServiceId>, cfg: Config, g: BuiltGraph, id: ServiceId)
    ensures !Restarting(w, Startup(cfg, healthy), cfg, g, id)
  {
    hide HandleProbes, HandleTick, HandleRemediation, HandleEffect, Observe, Probe;
    NoRestarts([], id);
  }

  // ---- One restart ----

  /** Breaker and cooldown let the service be restarted. */
  predicate MayTry(svc: SvcState, e: ServiceEntry, now: nat) {
    !HeldByBreaker(svc, now) && !TriedRecently(svc, e, now)
  }

  /** The service was restarted at `now`, whatever the number of the attempt. */
  ghost predicate WasRestarted(before: SvcState, after: SvcState, e: ServiceEntry, now: nat) {
    && after.lastRestart == Some(now)
    && (exists attempt ::
          after.restartHistory ==
          Pushed(before.restartHistory, MAX_RESTART_HISTORY, RestartRecord(now, attempt, false)))
    && after.breaker == Breaker.RecordRestart(
         before.breaker, CountSince(after.restartHistory, SaturatingSub(now, e.breakerWindow)),
         e.maxRestarts, e.breakerCooldown, now)
  }

  lemma TryRestarts(svc: SvcState, e: ServiceEntry, now: nat)
    requires svc.maintenance == None && MayTry(svc, e, now)
    ensures var d, after := EvaluateSingle(false, svc, e, None, false, now), Unwell(svc, e, now);
            if Tries(svc.status) < TriesAllowed(e.severity) then
              d.Restart? && WasRestarted(svc, after, e, now)
            else d.Failed? && after == svc.(status := Status.Failed(now))
  {
    hide CountSince, Pushed;
    var after := Unwell(svc, e, now);
    if Tries(svc.status) < TriesAllowed(e.severity) {
      assert after.restartHistory ==
             Pushed(svc.restartHistory, MAX_RESTART_HISTORY, RestartRecord(now, Tries(svc.status) + 1, false));
    }
  }

  /** A service that fails gets one restart as soon as breaker and cooldown allow: with its
      attempts used up, one cycle sets it failed and another, in the same second, restarts it. */
  lemma OneRestart(w: World, cfg: Config, g: BuiltGraph, e: ServiceEntry, now: nat) returns (acts: seq<Action>)
    requires cfg.Valid() && Ready(w, cfg, e) && w.m.clock <= now && MayTry(w.m.view.services[e.id], e, now)
    ensures Probing(acts) && Ready(Run(w, acts, cfg, g), cfg, e) && Run(w, acts, cfg, g).m.clock == now
    ensures WasRestarted(w.m.view.services[e.id], Run(w, acts, cfg, g).m.view.services[e.id], e, now)
    ensures RestartTimes(w, acts, cfg, g, e.id) == [now]
  {
    hide Run, RestartTimes, Unwell, EvaluateSingle, WasRestarted, Model.FindIn;
    TryRestarts(w.m.view.services[e.id], e, now);
    acts := FailedProbe(w, cfg, g, e, now);
    if Tries(w.m.view.services[e.id].status) >= TriesAllowed(e.severity) {
      var w1 := Run(w, acts, cfg, g);
      TryRestarts(w1.m.view.services[e.id], e, now);
      var more := FailedProbe(w1, cfg, g, e, now);
      RunAppend(w, acts, more, cfg, g);
      TimesAppend(w, acts, more, cfg, g, e.id);
      SameRestart(w.m.view.services[e.id], Status.Failed(now), Run(w1, more, cfg, g).m.view.services[e.id], e, now);
      acts := acts + more;
    }
  }

  lemma SameRestart(svc: SvcState, status: Status, after: SvcState, e: ServiceEntry, now: nat)
    requires WasRestarted(svc.(status := status), after, e, now)
    ensures WasRestarted(svc, after, e, now)
  {
  }
}
