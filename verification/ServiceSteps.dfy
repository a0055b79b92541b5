/** One step of a run, as one service sees it. */
module ServiceSteps {
  import opened Model
  import opened Wrappers
  import opened History
  import opened Lease
  import opened Graph
  import opened Recovery
  import opened Reducer
  import opened Runtime
  import opened World
  import opened ProbeCycle
  import opened BackupConsistency
  import opened BackupPolicy

  /** The commands a step adds to the queue. */
  ghost function Emitted(w: World, a: Action, cfg: Config, g: BuiltGraph): seq<Command>
  {
    if !Enabled(w, a) then []
    else
      match a
      case Deliver(e, ctx) => Delivered(w, e, ctx, cfg, g).cmds
      case Exec(r) => ExecOne(w.m, w.queue[0], r, cfg, g).1
      case Crash(_, _) => []
  }

  // ---- Steps that run a probe cycle ----

  datatype ProbeRun = ProbeRun(results: seq<ProbeResult>, ctx: Ctx)

  ghost function CycleOf(w: World, a: Action, cfg: Config): Option<ProbeRun> {
    if !Enabled(w, a) || w.m.view.shuttingDown then None
    else
      match a
      case Exec(r) =>
        if w.queue[0].RunProbes? then
          Some(ProbeRun(Probe(w.queue[0].ids, cfg, r.healthy), At(w.m.clock, r.ctx)))
        else None
      case _ => None
  }

  lemma CycleStep(w: World, a: Action, cfg: Config, g: BuiltGraph)
    requires CycleOf(w, a, cfg).Some?
    ensures var c, w' := CycleOf(w, a, cfg).value, Step(w, a, cfg, g);
            && Out(w'.m.view, Emitted(w, a, cfg, g)) == HandleProbes(w.m.view, c.results, cfg, g, c.ctx)
            && w'.m.clock == c.ctx.mono >= w.m.clock
  {
    hide HandleProbes, HandleTick, HandleRemediation, HandleEffect, Observe, Boot;
  }

  // ---- Every other step ----

  ghost predicate NoProbeRestarts(cmds: seq<Command>) {
    forall c :: c in cmds ==> !ProbeRestart(c)
  }

  /** Emits no probe-driven restart and leaves the services alone. */
  ghost predicate Passive(v: View, out: Out) {
    out.view.services == v.services && NoProbeRestarts(out.cmds)
  }

  lemma TaskIsPassive(v: View, task: TaskKind, cfg: Config, ctx: Ctx)
    ensures Passive(v, RunTask(v, task, cfg, ctx))
  {
    hide ShouldStart, Free;
    StopsStartNothing(StopEntries(cfg.services), ctx.mono);
  }

  lemma {:induction false} TickIsPassive(v: View, tasks: seq<TaskKind>, cfg: Config, ctx: Ctx)
    ensures Passive(v, HandleTick(v, tasks, cfg, ctx))
  {
    hide RunTask;
    if tasks == [] {
    } else {
      var before := HandleTick(v, tasks[..|tasks| - 1], cfg, ctx);
      TickIsPassive(v, tasks[..|tasks| - 1], cfg, ctx);
      TaskIsPassive(before.view, tasks[|tasks| - 1], cfg, ctx);
    }
  }

  lemma EffectIsPassive(v: View, id: nat, result: EffectResult, cfg: Config)
    ensures Passive(v, HandleEffect(v, id, result, cfg))
  {
    var pre := v.phase.PreBackupServices();
    if pre.Some? {
      RestoresStartNothing(pre.value);
    }
  }

  /** What a remediation request does to one service. */
  function Remedied(svc: SvcState, a: RemediationAction, now: nat): SvcState {
    match a
    case ClearBreaker => svc.(breaker := Closed)
    case ClearFlapping => svc.(breaker := Closed, restartHistory := [])
    case MarkMaintenance => svc.(maintenance := Some(now + MAINTENANCE_SECS))
    case ClearMaintenance => svc.(maintenance := None)
    case _ => svc
  }

  lemma RemediationOnService(
      v: View, a: RemediationAction, target: Option<ServiceId>, source: string, reason: string, cfg: Config,
      ctx: Ctx, id: ServiceId)
    requires id in v.services
    ensures var out := HandleRemediation(v, a, target, source, reason, cfg, ctx);
            && NoProbeRestarts(out.cmds)
            && id in out.view.services
            && out.view.services[id] ==
               if target == Some(id) && !OverLimit(v.log, a, target, ctx.mono) then
                 Remedied(v.services[id], a, ctx.mono)
               else v.services[id]
  {
    hide OverLimit, Pushed, HandleTick;
    TickIsPassive(v, [Backup], cfg, ctx);
  }

  lemma {:induction false} ObserveOne(
      services: map<ServiceId, SvcState>, results: seq<ProbeResult>, blocked: map<ServiceId, ServiceId>, now: nat,
      id: ServiceId)
    requires id in services
    ensures var m := Observe(services, results, blocked, now);
            && id in m
            && m[id] == match Verdict(results, id)
                        case None => services[id]
                        case Some(healthy) =>
                          services[id].(status := ObservedStatus(ProbeResult(id, healthy), blocked, now))
  {
    if results == [] {
    } else {
      ObserveOne(services, results[..|results| - 1], blocked, now, id);
    }
  }

  // ---- The moves of one service ----

  datatype SvcMove =
    | Still
    | Observes(status: Status)
    | Decides(d: Decision, leaseFree: bool)
    | Remedies(action: RemediationAction)

  function Moved(svc: SvcState, entry: ServiceEntry, move: SvcMove, now: nat): SvcState {
    match move
    case Still => svc
    case Observes(status) => svc.(status := status)
    case Decides(d, leaseFree) => ApplyDecision(svc, entry, d, leaseFree, now)
    case Remedies(action) => Remedied(svc, action, now)
  }

  predicate Asks(move: SvcMove) {
    move.Decides? && move.d.Restart? && move.leaseFree
  }

  /** What the policy has checked before it decides. */
  predicate Justified(svc: SvcState, entry: ServiceEntry, move: SvcMove, now: nat) {
    && (move.Decides? && move.d.Restart? ==>
        && !(svc.maintenance.Some? && now < svc.maintenance.value)
        && !HeldByBreaker(svc, now) && !TriedRecently(svc, entry, now)
        && move.d.attempt == Tries(svc.status) + 1 <= TriesAllowed(entry.severity)
        && move.d.unit == entry.unit)
    && (move.Observes? ==> move.status.Healthy? || move.status.BlockedByDep? || move.status == Unhealthy(now, 1))
  }

  /** An admitted remediation request on the service. */
  ghost predicate Admits(w: World, a: Action, action: RemediationAction, id: ServiceId) {
    && Enabled(w, a) && a.Deliver? && !w.m.view.shuttingDown
    && a.event.HttpCommand? && a.event.request.Remediate?
    && a.event.request.action == action && a.event.request.target == Some(id)
    && !OverLimit(w.m.view.log, action, Some(id), At(w.m.clock, a.ctx).mono)
  }

  ghost predicate Tracks(w: World, cfg: Config, id: ServiceId, entry: ServiceEntry) {
    id in w.m.view.services && cfg.FindService(id) == Some(entry)
  }

  ghost predicate StepMoves(
      w: World, a: Action, cfg: Config, g: BuiltGraph, id: ServiceId, entry: ServiceEntry, move: SvcMove)
    requires Tracks(w, cfg, id, entry)
  {
    var w', svc := Step(w, a, cfg, g), w.m.view.services[id];
    && w'.m.clock >= w.m.clock
    && Tracks(w', cfg, id, entry)
    && w'.m.view.services[id] == Moved(svc, entry, move, w'.m.clock)
    && RestartsOf(Emitted(w, a, cfg, g), id) ==
       (if Asks(move) then [RestartService(id, entry.unit, UnhealthyProbe(Tries(svc.status) + 1))] else [])
    && Justified(svc, entry, move, w'.m.clock)
    && (move.Decides? ==> move.leaseFree == Free(w.m.view.held, LEASE_TTL, Service(id), w'.m.clock))
    && (forall action :: move == Remedies(action) <==> Admits(w, a, action, id))
  }

  lemma CycleMoves(
      w: World, a: Action, cfg: Config, g: BuiltGraph, id: ServiceId, entry: ServiceEntry) returns (move: SvcMove)
    requires cfg.Valid() && Tracks(w, cfg, id, entry) && CycleOf(w, a, cfg).Some?
    ensures StepMoves(w, a, cfg, g, id, entry, move)
  {
    hide Step, Emitted, HandleProbes, Plan, ApplyDecision, Free, Model.FindIn, RestartsOf, EvaluateSingle;
    var v, c := w.m.view, CycleOf(w, a, cfg).value;
    CycleStep(w, a, cfg, g);
    CycleTreats(v, c.results, cfg, g, c.ctx, id);
    var d := DecisionFor(Plan(c.results, v.services, cfg, g, c.ctx.mono).decisions, cfg.order, id);
    move := if d.None? then Still else Decides(d.value, Free(v.held, LEASE_TTL, Service(id), c.ctx.mono));
    DecidesJustly(v, c.results, cfg, g, c.ctx.mono, id, entry, d);
  }

  lemma DecidesJustly(
      v: View, results: seq<ProbeResult>, cfg: Config, g: BuiltGraph, now: nat, id: ServiceId, entry: ServiceEntry,
      d: Option<Decision>)
    requires cfg.Valid() && id in v.services && cfg.FindService(id) == Some(entry)
    requires d == DecisionFor(Plan(results, v.services, cfg, g, now).decisions, cfg.order, id)
    ensures d.Some? ==> Justified(v.services[id], entry, Decides(d.value, true), now)
    ensures d.Some? ==> Justified(v.services[id], entry, Decides(d.value, false), now)
  {
    hide Model.FindIn, DockerIsRoot, RootCauses, Blocked;
    var unhealthy := UnhealthyIn(results);
    var dockerRoot := DockerIsRoot(cfg, RootCauses(g, unhealthy));
    DecisionIsVerdict(results, v.services, cfg, Blocked(g, unhealthy), dockerRoot, now, id);
  }

  lemma OtherDelivery(
      w: World, a: Action, cfg: Config, g: BuiltGraph, id: ServiceId, entry: ServiceEntry) returns (move: SvcMove)
    requires cfg.Valid() && Tracks(w, cfg, id, entry)
    requires CycleOf(w, a, cfg).None? && Enabled(w, a) && a.Deliver?
    ensures StepMoves(w, a, cfg, g, id, entry, move)
  {
    hide HandleProbes, HandleTick, HandleRemediation, HandleEffect, Observe, OverLimit, Free, Model.FindIn,
        RestartsOf, Remedied;
    var v, ctx := w.m.view, At(w.m.clock, a.ctx);
    move := Still;
    if !v.shuttingDown {
      match a.event {
        case Tick(tasks) => TickIsPassive(v, tasks, cfg, ctx);
        case EffectCompleted(cmd, result) => EffectIsPassive(v, cmd, result, cfg);
        case StartupProbeResults(results) =>
          var blocked := Blocked(g, UnhealthyIn(results));
          ObserveOne(v.services, results, blocked, ctx.mono, id);
          var verdict := Verdict(results, id);
          if verdict.Some? {
            move := Observes(ObservedStatus(ProbeResult(id, verdict.value), blocked, ctx.mono));
          }
        case HttpCommand(request) =>
          match request {
            case Trigger(task) => TickIsPassive(v, [task], cfg, ctx);
            case Remediate(action, target, source, reason) =>
              RemediationOnService(v, action, target, source, reason, cfg, ctx, id);
              if target == Some(id) && !OverLimit(v.log, action, target, ctx.mono) {
                move := Remedies(action);
              }
          }
        case _ =>
      }
    }
    assert NoProbeRestarts(Emitted(w, a, cfg, g));
    NoRestarts(Emitted(w, a, cfg, g), id);
  }

  lemma StillStep(w: World, a: Action, cfg: Config, g: BuiltGraph, id: ServiceId, entry: ServiceEntry)
    requires Tracks(w, cfg, id, entry)
    requires CycleOf(w, a, cfg).None? && !a.Crash? && (a.Deliver? ==> !Enabled(w, a))
    ensures StepMoves(w, a, cfg, g, id, entry, Still)
  {
    hide HandleProbes, HandleTick, HandleRemediation, HandleEffect, Observe, Model.FindIn;
  }

  /** Every step but a crash moves each service in one of the four ways, and the commands
      it emits for the service are those of the move. */
  lemma ServiceStep(
      w: World, a: Action, cfg: Config, g: BuiltGraph, id: ServiceId, entry: ServiceEntry) returns (move: SvcMove)
    requires cfg.Valid() && Tracks(w, cfg, id, entry) && !a.Crash?
    ensures StepMoves(w, a, cfg, g, id, entry, move)
  {
    hide StepMoves;
    if CycleOf(w, a, cfg).Some? {
      move := CycleMoves(w, a, cfg, g, id, entry);
    } else if a.Deliver? && Enabled(w, a) {
      move := OtherDelivery(w, a, cfg, g, id, entry);
    } else {
      move := Still;
      StillStep(w, a, cfg, g, id, entry);
    }
  }

  // ---- An executed probe command ----

  /** An executed probe command treats each service by the first reason that applies; a
      service that probes healthy has its half-open breaker closed. */
  lemma ProbeCommandIsExact(
      w: World, r: Reading, cfg: Config, g: BuiltGraph, id: ServiceId, entry: ServiceEntry)
    requires cfg.Valid() && Tracks(w, cfg, id, entry) && !w.m.view.shuttingDown
    requires w.queue != [] && w.queue[0].RunProbes?
    ensures var w', svc := Step(w, Exec(r), cfg, g), w.m.view.services[id];
            var results := Probe(w.queue[0].ids, cfg, r.healthy);
            && Tracks(w', cfg, id, entry)
            && var after, what := w'.m.view.services[id], CaseOf(w.m.view, results, cfg, g, w'.m.clock, id);
            && Becomes(svc, after, what, results, cfg, g, w'.m.clock, id)
            && (what.Unprobed? <==> id !in w.queue[0].ids) && (what.Well? <==> id in w.queue[0].ids && id in r.healthy)
            && (what.Well? && svc.breaker.HalfOpen? ==> after.breaker == Closed && after.status.Healthy?)
  {
    hide HandleProbes, Model.FindIn, Behind, DockerBlamed, Probe;
    var ids := w.queue[0].ids;
    ProbesCoverServices(ids, cfg, r.healthy, id);
    CycleStep(w, Exec(r), cfg, g);
    CycleIsExact(w.m.view, Probe(ids, cfg, r.healthy), cfg, g, At(w.m.clock, r.ctx), id);
  }

  // ---- A recovery tick, from the timer to the restarts ----

  lemma {:induction false} ProbesCoverServices(ids: seq<ServiceId>, cfg: Config, healthy: set<ServiceId>, id: ServiceId)
    ensures Verdict(Probe(ids, cfg, healthy), id) ==
            if id in ids && cfg.FindService(id).Some? then Some(id in healthy) else None
    ensures id in UnhealthyIn(Probe(ids, cfg, healthy)) <==> id in ids && cfg.FindService(id).Some? && id !in healthy
  {
    hide Model.FindIn;
    if ids == [] {
    } else {
      var rest, last := ids[..|ids| - 1], ids[|ids| - 1];
      ProbesCoverServices(rest, cfg, healthy, id);
      assert ids == rest + [last];
      var more := if cfg.FindService(last).Some? then [ProbeResult(last, last in healthy)] else [];
      var before, all := Probe(rest, cfg, healthy), Probe(ids, cfg, healthy);
      assert all == before + more;
      assert UnhealthyIn(all) == UnhealthyIn(before) + UnhealthyIn(more);
      assert more != [] ==> all[..|all| - 1] == before;
      assert more == [] ==> all == before;
    }
  }

  /** A recovery tick asks for the probes of all services; once they are executed, the
      restarts next in the queue are those of the services that failed, alone and not
      behind another failing one, as far as breaker, cooldown, attempts and leases allow. */
  lemma RecoveryTickRestarts(
      w: World, ctx: Ctx, r: Reading, cfg: Config, g: BuiltGraph, id: ServiceId)
    requires cfg.Valid() && w.queue == [] && w.observed && !w.m.view.shuttingDown
    ensures var asked := Step(w, Deliver(Tick([TaskKind.Recovery]), ctx), cfg, g);
            var probed := Step(asked, Exec(r), cfg, g);
            var results := Probe(cfg.order, cfg, r.healthy);
            && (Verdict(results, id) == Some(false) <==> id in cfg.Ids() && id !in r.healthy)
            && (id in UnhealthyIn(results) <==> id in cfg.Ids() && id !in r.healthy)
            && RestartsOf(probed.queue, id) ==
               if MayRestart(w.m.view, results, cfg, g, probed.m.clock, id)
               then
                 [RestartService(
                    id, cfg.FindService(id).value.unit, UnhealthyProbe(Tries(w.m.view.services[id].status) + 1))]
               else []
  {
    hide HandleProbes, MayRestart, RestartsOf, Model.FindIn, Tries;
    var asked := Step(w, Deliver(Tick([TaskKind.Recovery]), ctx), cfg, g);
    TickAsksForProbes(w, ctx, cfg, g);
    var results := Probe(cfg.order, cfg, r.healthy);
    ProbesCoverServices(cfg.order, cfg, r.healthy, id);
    CycleStep(asked, Exec(r), cfg, g);
    var probed := Step(asked, Exec(r), cfg, g);
    RestartedExactlyWhen(asked.m.view, results, cfg, g, At(asked.m.clock, r.ctx), id);
    assert probed.queue == Emitted(asked, Exec(r), cfg, g);
  }

  lemma TickAsksForProbes(w: World, ctx: Ctx, cfg: Config, g: BuiltGraph)
    requires w.queue == [] && w.observed && !w.m.view.shuttingDown
    ensures var asked := Step(w, Deliver(Tick([TaskKind.Recovery]), ctx), cfg, g);
            asked.queue == [RunProbes(cfg.order)] && asked.m.view == w.m.view
  {
    hide HandleProbes, HandleRemediation, HandleEffect, Observe;
    var v, due := w.m.view, [TaskKind.Recovery];
    assert due[..0] == [];
    assert HandleTick(v, [], cfg, At(w.m.clock, ctx)) == Out(v, []);
  }
}
