/** What one probe cycle does to each service, and which services it restarts. */
module ProbeCycle {
  import opened Model
  import opened Wrappers
  import opened History
  import opened Lease
  import opened Graph
  import opened Recovery
  import opened Reducer

  predicate ProbeRestart(c: Command) {
    c.RestartService? && c.cause.UnhealthyProbe?
  }

  predicate IsProbeRestart(c: Command, id: ServiceId) {
    ProbeRestart(c) && c.id == id
  }

  /** The restarts of a service a probe cycle asks for, in order. */
  function RestartsOf(cmds: seq<Command>, id: ServiceId): seq<Command> {
    if cmds == [] then []
    else RestartsOf(cmds[..|cmds| - 1], id) + if IsProbeRestart(cmds[|cmds| - 1], id) then [cmds[|cmds| - 1]] else []
  }

  lemma {:induction false} RestartsAppend(a: seq<Command>, b: seq<Command>, id: ServiceId)
    ensures RestartsOf(a + b, id) == RestartsOf(a, id) + RestartsOf(b, id)
  {
    if b == [] {
      assert a + b == a;
    } else {
      RestartsAppend(a, b[..|b| - 1], id);
      assert (a + b)[..|a + b| - 1] == a + b[..|b| - 1];
    }
  }

  lemma {:induction false} NoRestarts(cmds: seq<Command>, id: ServiceId)
    requires forall c :: c in cmds ==> !IsProbeRestart(c, id)
    ensures RestartsOf(cmds, id) == []
  {
    if cmds == [] {
    } else {
      assert !IsProbeRestart(cmds[|cmds| - 1], id);
      NoRestarts(cmds[..|cmds| - 1], id);
    }
  }

  // ---- Services do not interfere with each other ----

  /** How one decision treats one service: its next state, and the restarts asked for. */
  function Treatment(
      svc: SvcState, id: ServiceId, d: Option<Decision>, cfg: Config, held: Held, now: nat): (SvcState, seq<Command>) {
    var entry, free := cfg.FindService(id), Free(held, LEASE_TTL, Service(id), now);
    if d.None? || entry.None? then (svc, [])
    else
      (ApplyDecision(svc, entry.value, d.value, free, now),
       if d.value.Restart? && free then [RestartService(id, d.value.unit, UnhealthyProbe(d.value.attempt))] else [])
  }

  function DecisionFor(decisions: map<ServiceId, Decision>, order: seq<ServiceId>, id: ServiceId): Option<Decision> {
    if id in order && id in decisions then Some(decisions[id]) else None
  }

  lemma RestartsOfDecision(last: ServiceId, entry: ServiceEntry, d: Decision, free: bool, id: ServiceId)
    ensures RestartsOf(DecisionCommands(last, entry, d, free), id) ==
            if id == last && d.Restart? && free then [RestartService(id, d.unit, UnhealthyProbe(d.attempt))] else []
  {
    var more := DecisionCommands(last, entry, d, free);
    assert |more| <= 1;
    if more != [] {
      assert more[..0] == [];
    }
  }

  lemma OneService(c: CycleResult, last: ServiceId, d: Decision, cfg: Config, held: Held, now: nat, id: ServiceId)
    ensures var after := ApplyTo(c, last, d, cfg, held, now);
            && after.services.Keys == c.services.Keys
            && (id in c.services ==>
                var t := Treatment(c.services[id], id, if id == last then Some(d) else None, cfg, held, now);
                after.services[id] == t.0 && RestartsOf(after.cmds, id) == RestartsOf(c.cmds, id) + t.1)
            && (id !in c.services ==> RestartsOf(after.cmds, id) == RestartsOf(c.cmds, id))
  {
    hide ApplyDecision, Free, Model.FindIn, RestartsOf, DecisionCommands;
    var entry, free := cfg.FindService(last), Free(held, LEASE_TTL, Service(last), now);
    if last in c.services && entry.Some? {
      RestartsAppend(c.cmds, DecisionCommands(last, entry.value, d, free), id);
      RestartsOfDecision(last, entry.value, d, free, id);
    }
  }

  /** Each service is treated once, by its own decision, whatever the others get. */
  lemma {:induction false} EachServiceAlone(
    services: map<ServiceId, SvcState>, decisions: map<ServiceId, Decision>, order: seq<ServiceId>,
    cfg: Config, held: Held, now: nat, id: ServiceId)
    requires NoDuplicates(order)
    ensures var c := ApplyDecisions(services, decisions, order, cfg, held, now);
            && c.services.Keys == services.Keys
            && (id in services ==>
                (c.services[id], RestartsOf(c.cmds, id)) ==
                    Treatment(services[id], id, DecisionFor(decisions, order, id), cfg, held, now))
            && (id !in services ==> RestartsOf(c.cmds, id) == [])
  {
    hide ApplyDecision, Free, Model.FindIn, ApplyTo, RestartsOf;
    if order == [] {
      NoRestarts([], id);
    } else {
      var rest, last := order[..|order| - 1], order[|order| - 1];
      EachServiceAlone(services, decisions, rest, cfg, held, now, id);
      assert order == rest + [last] && last !in rest;
      if last in decisions {
        var before := ApplyDecisions(services, decisions, rest, cfg, held, now);
        OneService(before, last, decisions[last], cfg, held, now, id);
        assert forall t: seq<Command> :: [] + t == t == t + [];
      }
    }
  }

  // ---- Exactly which services are restarted ----

  lemma ClosingRestartsNothing(docker: seq<Command>, recovered: seq<ServiceId>, failed: seq<ServiceId>, id: ServiceId)
    requires docker == [] || docker == [RestartDockerDaemon]
    ensures RestartsOf(docker + Alerts(recovered, failed) + [UpdateLlmContext, NotifyWatchdog], id) == []
  {
    hide RestartsOf;
    NoRestarts(docker + Alerts(recovered, failed) + [UpdateLlmContext, NotifyWatchdog], id);
  }

  /** The state of a service and the restarts asked for it, after a probe cycle. */
  lemma CycleTreats(v: View, results: seq<ProbeResult>, cfg: Config, g: BuiltGraph, ctx: Ctx, id: ServiceId)
    requires cfg.Valid()
    ensures var out := HandleProbes(v, results, cfg, g, ctx);
            var d := DecisionFor(Plan(results, v.services, cfg, g, ctx.mono).decisions, cfg.order, id);
            && (id in v.services ==>
                && id in out.view.services
                && (out.view.services[id], RestartsOf(out.cmds, id)) ==
                    Treatment(v.services[id], id, d, cfg, v.held, ctx.mono))
            && (id !in v.services ==> id !in out.view.services && RestartsOf(out.cmds, id) == [])
  {
    hide Plan, Treatment, ApplyDecisions, RestartsOf, DecisionFor, Alerts;
    var plan := Plan(results, v.services, cfg, g, ctx.mono);
    var c := ApplyDecisions(v.services, plan.decisions, cfg.order, cfg, v.held, ctx.mono);
    EachServiceAlone(v.services, plan.decisions, cfg.order, cfg, v.held, ctx.mono, id);
    var docker := if plan.dockerRestartNeeded then [RestartDockerDaemon] else [];
    var rest := docker + Alerts(c.recovered, c.failed) + [UpdateLlmContext, NotifyWatchdog];
    ClosingRestartsNothing(docker, c.recovered, c.failed, id);
    RestartsAppend(c.cmds, rest, id);
    assert HandleProbes(v, results, cfg, g, ctx).cmds == c.cmds + rest;
    assert RestartsOf(c.cmds, id) + [] == RestartsOf(c.cmds, id);
  }

  // ---- The policy, written out ----

  /** How often the service was tried, or found unhealthy at the start, in a row. */
  function Tries(status: Status): nat {
    match status
    case Recovering(attempt, _) => attempt
    case Unhealthy(_, consecutive) => consecutive
    case _ => 0
  }

  function TriesAllowed(severity: Severity): nat {
    match severity
    case Info => 1
    case Warning => 2
    case Critical => 3
  }

  ghost predicate Fails(results: seq<ProbeResult>, id: ServiceId) {
    ProbeResult(id, false) in results
  }

  /** A direct dependency fails too. */
  ghost predicate Behind(results: seq<ProbeResult>, g: BuiltGraph, id: ServiceId) {
    id in g.parents && exists d :: d in g.parents[id] && Fails(results, d)
  }

  ghost predicate RootFailure(results: seq<ProbeResult>, g: BuiltGraph, id: ServiceId) {
    Fails(results, id) && !Behind(results, g, id)
  }

  ghost predicate OfKind(cfg: Config, id: ServiceId, kind: ServiceKind) {
    exists e :: e in cfg.services && e.id == id && e.kind == kind
  }

  ghost predicate DockerFailure(results: seq<ProbeResult>, cfg: Config, g: BuiltGraph, id: ServiceId) {
    RootFailure(results, g, id) && OfKind(cfg, id, DockerSystemd)
  }

  /** Two Docker services fail by themselves, or the virtual service of the daemon does. */
  ghost predicate DockerBlamed(results: seq<ProbeResult>, cfg: Config, g: BuiltGraph) {
    || (exists a, b :: a != b && DockerFailure(results, cfg, g, a) && DockerFailure(results, cfg, g, b))
    || (RootFailure(results, g, "docker_daemon") && OfKind(cfg, "docker_daemon", Virtual))
  }

  predicate HeldByBreaker(svc: SvcState, now: nat) {
    svc.breaker.Open? && now < svc.breaker.until
  }

  predicate TriedRecently(svc: SvcState, entry: ServiceEntry, now: nat) {
    && svc.lastRestart.Some? && entry.restartCooldown > 0
    && now < svc.lastRestart.value + entry.restartCooldown
  }

  predicate Leased(held: Held, id: ServiceId, now: nat) {
    Service(id) in held && now < held[Service(id)].acquired + 7200
  }

  /** What must hold for a probe cycle to restart a service. */
  ghost predicate MayRestart(v: View, results: seq<ProbeResult>, cfg: Config, g: BuiltGraph, now: nat, id: ServiceId) {
    var found := cfg.FindService(id);
    && id in v.services && found.Some?
    && var svc, entry := v.services[id], found.value;
    && Verdict(results, id) == Some(false) && !Behind(results, g, id)
    && !(svc.maintenance.Some? && now < svc.maintenance.value)
    && !(entry.kind == DockerSystemd && DockerBlamed(results, cfg, g))
    && !HeldByBreaker(svc, now) && !TriedRecently(svc, entry, now)
    && Tries(svc.status) < TriesAllowed(entry.severity) && !Leased(v.held, id, now)
  }

  lemma {:induction false} FindsById(services: seq<ServiceEntry>, e: ServiceEntry)
    requires Model.UniqueIds(services) && e in services
    ensures FindIn(services, e.id) == Some(e)
  {
    if services[0].id == e.id {
    } else {
      FindsById(services[1..], e);
    }
  }

  lemma KindIsConfigured(cfg: Config, id: ServiceId, kind: ServiceKind)
    requires cfg.Valid()
    ensures HasKind(cfg, id, kind) <==> OfKind(cfg, id, kind)
  {
    hide Model.FindIn;
    if OfKind(cfg, id, kind) {
      var e :| e in cfg.services && e.id == id && e.kind == kind;
      FindsById(cfg.services, e);
    }
  }

  lemma TwoMembers(s: set<ServiceId>)
    ensures |s| >= 2 <==> exists a, b :: a != b && a in s && b in s
  {
    if |s| >= 2 {
      var a :| a in s;
      assert |s - {a}| == |s| - 1;
      var b :| b in s - {a};
    } else {
      forall a, b | a in s && b in s
        ensures a == b
      {
        if a != b {
          SubsetIsNoLarger({a, b}, s);
        }
      }
    }
  }

  lemma UnhealthyFail(results: seq<ProbeResult>, id: ServiceId)
    ensures id in UnhealthyIn(results) <==> Fails(results, id)
  {
    if id in UnhealthyIn(results) {
      var r :| r in results && !r.healthy && r.service == id;
      assert r == ProbeResult(id, false);
    }
  }

  lemma RootsFail(results: seq<ProbeResult>, g: BuiltGraph, id: ServiceId)
    ensures id in RootCauses(g, UnhealthyIn(results)) <==> RootFailure(results, g, id)
    ensures IsBlocked(g, UnhealthyIn(results), id) <==> Behind(results, g, id)
  {
    hide UnhealthyIn, Fails;
    UnhealthyFail(results, id);
    forall d
      ensures d in UnhealthyIn(results) <==> Fails(results, d)
    {
      UnhealthyFail(results, d);
    }
  }

  lemma BlamedExactly(results: seq<ProbeResult>, cfg: Config, g: BuiltGraph)
    requires cfg.Valid()
    ensures DockerIsRoot(cfg, RootCauses(g, UnhealthyIn(results))) <==> DockerBlamed(results, cfg, g)
  {
    hide UnhealthyIn, RootCauses, RootFailure, HasKind, OfKind;
    var roots := RootCauses(g, UnhealthyIn(results));
    forall id
      ensures id in roots <==> RootFailure(results, g, id)
    {
      RootsFail(results, g, id);
    }
    forall id, kind
      ensures HasKind(cfg, id, kind) <==> OfKind(cfg, id, kind)
    {
      KindIsConfigured(cfg, id, kind);
    }
    var docker := DockerServices(cfg, roots);
    assert forall id :: id in docker <==> DockerFailure(results, cfg, g, id);
    TwoMembers(docker);
    assert (exists a, b :: a != b && a in docker && b in docker) <==>
           (exists a, b :: a != b && DockerFailure(results, cfg, g, a) && DockerFailure(results, cfg, g, b));
  }

  // ---- Every outcome of a cycle for one service ----

  datatype Case =
    | Unprobed | Well | Maintained | BehindAnother | DockersFault | BreakerHolds | CoolingOff | GivenUp | Withheld
    | Tried

  /** The first reason that applies. */
  ghost function CaseOf(
      v: View, results: seq<ProbeResult>, cfg: Config, g: BuiltGraph, now: nat, id: ServiceId): Case
    requires id in v.services
  {
    var svc, found, verdict := v.services[id], cfg.FindService(id), Verdict(results, id);
    if found.None? || verdict.None? then Unprobed
    else if verdict.value then Well
    else if svc.maintenance.Some? && now < svc.maintenance.value then Maintained
    else if Behind(results, g, id) then BehindAnother
    else if found.value.kind == DockerSystemd && DockerBlamed(results, cfg, g) then DockersFault
    else if HeldByBreaker(svc, now) then BreakerHolds
    else if TriedRecently(svc, found.value, now) then CoolingOff
    else if Tries(svc.status) >= TriesAllowed(found.value.severity) then GivenUp
    else if Leased(v.held, id, now) then Withheld
    else Tried
  }

  /** What each outcome does to the service. */
  ghost predicate Becomes(
      svc: SvcState, after: SvcState, what: Case, results: seq<ProbeResult>, cfg: Config, g: BuiltGraph, now: nat,
      id: ServiceId) {
    match what
    case Well => after == svc.(status := Status.Healthy(now),
                               breaker := if svc.breaker.HalfOpen? then Closed else svc.breaker)
    case BehindAnother =>
      && after == svc.(status := after.status)
      && after.status.BlockedByDep? && RootFailure(results, g, after.status.root)
    case CoolingOff =>
      after == svc.(breaker := if svc.breaker.Open? then HalfOpen(0, svc.breaker.tripCount) else svc.breaker)
    case GivenUp => after == svc.(status := Status.Failed(now))
    case Tried =>
      && var tries, found := Tries(svc.status) + 1, cfg.FindService(id);
      && found.Some? && after.status == Recovering(tries, now) && after.lastRestart == Some(now)
      && after.maintenance == svc.maintenance
      && after.restartHistory ==
         (if |svc.restartHistory| == 20 then svc.restartHistory[1..] else svc.restartHistory)
         + [RestartRecord(now, tries, false)]
      && (match svc.breaker
          case Closed =>
            after.breaker ==
            if CountSince(after.restartHistory, SaturatingSub(now, found.value.breakerWindow))
               >= found.value.maxRestarts
            then Open(now + found.value.breakerCooldown, 1) else Closed
          case HalfOpen(_, trips) => after.breaker == Open(now + found.value.breakerCooldown, trips + 1)
          case Open(_, _) => after.breaker == svc.breaker)
    case _ => after == svc
  }

  /** The decision of the policy, by the case. */
  lemma DecisionByCase(v: View, results: seq<ProbeResult>, cfg: Config, g: BuiltGraph, now: nat, id: ServiceId)
    requires cfg.Valid() && id in v.services
    ensures var d := DecisionFor(Plan(results, v.services, cfg, g, now).decisions, cfg.order, id);
            match CaseOf(v, results, cfg, g, now, id)
            case Unprobed => d.None?
            case Well => d == Some(Decision.Healthy)
            case Maintained => d == Some(InMaintenance)
            case BehindAnother =>
              d.Some? && d.value.BlockedByDependency? && RootFailure(results, g, d.value.root)
            case DockersFault => d == Some(DockerRootCause)
            case BreakerHolds => d == Some(BreakerOpen)
            case CoolingOff => d == Some(BreakerOpen)
            case GivenUp => d == Some(Decision.Failed)
            case _ =>
              && cfg.FindService(id).Some?
              && var entry := cfg.FindService(id).value;
                 d == Some(Restart(entry.unit, Tries(v.services[id].status) + 1, entry.severity))
  {
    hide DockerIsRoot, DockerBlamed, Model.FindIn, RootFailure, RootCauses, IsBlocked, Behind, UnhealthyIn, RootCause;
    var unhealthy := UnhealthyIn(results);
    var blocked, dockerRoot := Blocked(g, unhealthy), DockerIsRoot(cfg, RootCauses(g, unhealthy));
    DecisionIsVerdict(results, v.services, cfg, blocked, dockerRoot, now, id);
    BlamedExactly(results, cfg, g);
    RootsFail(results, g, id);
    VerdictIsResult(results, id);
    assert cfg.FindService(id).Some? ==> id in cfg.order;
    if id in blocked {
      ClassificationPartitions(g, unhealthy);
      RootsFail(results, g, blocked[id]);
    }
  }

  lemma CaseTreats(
      v: View, results: seq<ProbeResult>, cfg: Config, g: BuiltGraph, now: nat, id: ServiceId, d: Option<Decision>)
    requires cfg.Valid() && id in v.services
    requires d == DecisionFor(Plan(results, v.services, cfg, g, now).decisions, cfg.order, id)
    ensures var what, t := CaseOf(v, results, cfg, g, now, id), Treatment(v.services[id], id, d, cfg, v.held, now);
            && Becomes(v.services[id], t.0, what, results, cfg, g, now, id)
            && (what.Tried? ==> cfg.FindService(id).Some?)
            && t.1 == if what.Tried?
                      then
                        [RestartService(
                           id, cfg.FindService(id).value.unit, UnhealthyProbe(Tries(v.services[id].status) + 1))]
                      else []
  {
    hide Plan, DecisionFor, Model.FindIn, RootFailure, Behind, DockerBlamed, CountSince;
    DecisionByCase(v, results, cfg, g, now, id);
  }

  /** What one probe cycle does to each service, and the restart it asks for: exactly the
      outcome of the first reason that applies. */
  lemma CycleIsExact(v: View, results: seq<ProbeResult>, cfg: Config, g: BuiltGraph, ctx: Ctx, id: ServiceId)
    requires cfg.Valid() && id in v.services
    ensures var out, what := HandleProbes(v, results, cfg, g, ctx), CaseOf(v, results, cfg, g, ctx.mono, id);
            && id in out.view.services
            && Becomes(v.services[id], out.view.services[id], what, results, cfg, g, ctx.mono, id)
            && (what.Tried? ==> cfg.FindService(id).Some?)
            && RestartsOf(out.cmds, id) ==
               if what.Tried?
               then
                 [RestartService(
                    id, cfg.FindService(id).value.unit, UnhealthyProbe(Tries(v.services[id].status) + 1))]
               else []
  {
    hide HandleProbes, Plan, DecisionFor, Treatment, CaseOf, Becomes, RestartsOf, Model.FindIn;
    CycleTreats(v, results, cfg, g, ctx, id);
    CaseTreats(
      v, results, cfg, g, ctx.mono, id,
      DecisionFor(Plan(results, v.services, cfg, g, ctx.mono).decisions, cfg.order, id));
  }

  /** A probe cycle asks for the restart of a service, once, exactly when: its last result
      was unhealthy, none of its direct dependencies is unhealthy, it is not in maintenance,
      the failure is not put down to Docker, its breaker allows recovery, its cooldown is
      over, its severity allows one more attempt, and its lease is free. */
  lemma RestartedExactlyWhen(v: View, results: seq<ProbeResult>, cfg: Config, g: BuiltGraph, ctx: Ctx, id: ServiceId)
    requires cfg.Valid() && !v.shuttingDown
    ensures RestartsOf(Reduce(v, ProbeResults(results), cfg, g, ctx).cmds, id) ==
            if MayRestart(v, results, cfg, g, ctx.mono, id)
            then
              [RestartService(
                 id, cfg.FindService(id).value.unit, UnhealthyProbe(Tries(v.services[id].status) + 1))]
            else []
  {
    hide HandleProbes, MayRestart, RestartsOf, Becomes, CaseOf, Model.FindIn;
    if id in v.services {
      CycleIsExact(v, results, cfg, g, ctx, id);
      TriedIfMayRestart(v, results, cfg, g, ctx.mono, id);
    } else {
      CycleTreats(v, results, cfg, g, ctx, id);
      NotTrackedMayNot(v, results, cfg, g, ctx.mono, id);
    }
    assert Reduce(v, ProbeResults(results), cfg, g, ctx) == HandleProbes(v, results, cfg, g, ctx);
  }

  lemma TriedIfMayRestart(v: View, results: seq<ProbeResult>, cfg: Config, g: BuiltGraph, now: nat, id: ServiceId)
    requires id in v.services
    ensures CaseOf(v, results, cfg, g, now, id).Tried? <==> MayRestart(v, results, cfg, g, now, id)
  {
    hide Behind, DockerBlamed, Model.FindIn;
  }

  lemma NotTrackedMayNot(v: View, results: seq<ProbeResult>, cfg: Config, g: BuiltGraph, now: nat, id: ServiceId)
    requires id !in v.services
    ensures !MayRestart(v, results, cfg, g, now, id)
  {
  }

  /** Restarts of one cycle never meet along a dependency, and when the cycle blames Docker
      it restarts the Docker daemon and none of the services that run on it. */
  lemma RestartsDoNotMeet(
      v: View, results: seq<ProbeResult>, cfg: Config, g: BuiltGraph, ctx: Ctx, a: ServiceId, b: ServiceId)
    requires cfg.Valid() && !v.shuttingDown
    ensures var cmds := Reduce(v, ProbeResults(results), cfg, g, ctx).cmds;
            && (RestartsOf(cmds, a) != [] && RestartsOf(cmds, b) != [] ==> b !in g.DependenciesOf(a))
            && (DockerBlamed(results, cfg, g) ==>
                RestartDockerDaemon in cmds && (OfKind(cfg, a, DockerSystemd) ==> RestartsOf(cmds, a) == []))
  {
    hide HandleProbes, RestartsOf, Model.FindIn, DockerBlamed, Fails;
    CycleReports(v, results, cfg, g, ctx);
    RestartedExactlyWhen(v, results, cfg, g, ctx, a);
    RestartedExactlyWhen(v, results, cfg, g, ctx, b);
    VerdictIsResult(results, b);
    UnhealthyFail(results, b);
    KindIsConfigured(cfg, a, DockerSystemd);
  }

  // ---- What a cycle reports ----

  /** Those of a list that are in a set, in order. */
  function Those(ids: seq<ServiceId>, chosen: set<ServiceId>): seq<ServiceId> {
    if ids == [] then []
    else Those(ids[..|ids| - 1], chosen) + if ids[|ids| - 1] in chosen then [ids[|ids| - 1]] else []
  }

  /** Configured, tracked and decided so. */
  ghost predicate Decided(
      services: map<ServiceId, SvcState>, decisions: map<ServiceId, Decision>, cfg: Config, id: ServiceId) {
    id in services && cfg.FindService(id).Some? && id in decisions
  }

  ghost function Recoveries(
      services: map<ServiceId, SvcState>, decisions: map<ServiceId, Decision>, cfg: Config): set<ServiceId> {
    set id | id in services && Decided(services, decisions, cfg, id) && decisions[id].Healthy?
             && !services[id].status.Unknown? && !services[id].status.Healthy?
  }

  ghost function Failures(
      services: map<ServiceId, SvcState>, decisions: map<ServiceId, Decision>, cfg: Config): set<ServiceId> {
    set id | id in services && Decided(services, decisions, cfg, id) && decisions[id].Failed?
  }

  lemma {:induction false} ListsAreExact(
      services: map<ServiceId, SvcState>, decisions: map<ServiceId, Decision>, order: seq<ServiceId>, cfg: Config,
      held: Held, now: nat)
    requires forall i, j :: 0 <= i < j < |order| ==> order[i] != order[j]
    ensures var c := ApplyDecisions(services, decisions, order, cfg, held, now);
            && c.recovered == Those(order, Recoveries(services, decisions, cfg))
            && c.failed == Those(order, Failures(services, decisions, cfg))
  {
    hide Model.FindIn, ApplyDecision, DecisionCommands, Free;
    if order == [] {
    } else {
      var rest, last := order[..|order| - 1], order[|order| - 1];
      ListsAreExact(services, decisions, rest, cfg, held, now);
      EachServiceAlone(services, decisions, rest, cfg, held, now, last);
      assert last !in rest;
    }
  }

  lemma {:induction false} IncidentsAreExact(
      services: map<ServiceId, SvcState>, decisions: map<ServiceId, Decision>, order: seq<ServiceId>, cfg: Config,
      held: Held, now: nat, id: ServiceId)
    ensures WriteIncident(Some(id)) in ApplyDecisions(services, decisions, order, cfg, held, now).cmds <==>
            && id in order && Decided(services, decisions, cfg, id) && decisions[id].Failed?
            && cfg.FindService(id).value.severity == Critical
    ensures forall c :: c in ApplyDecisions(services, decisions, order, cfg, held, now).cmds ==>
              c.WriteIncident? || c.RestartService?
    ensures ApplyDecisions(services, decisions, order, cfg, held, now).services.Keys == services.Keys
  {
    hide Model.FindIn, ApplyDecision, Free;
    if order == [] {
    } else {
      var rest, last := order[..|order| - 1], order[|order| - 1];
      IncidentsAreExact(services, decisions, rest, cfg, held, now, id);
      assert order == rest + [last];
    }
  }

  /** The services given up, and those found well again. */
  ghost function GivenUpIn(v: View, results: seq<ProbeResult>, cfg: Config, g: BuiltGraph, now: nat): set<ServiceId> {
    set id | id in v.services && CaseOf(v, results, cfg, g, now, id).GivenUp?
  }

  ghost function WellAgainIn(v: View, results: seq<ProbeResult>, cfg: Config, g: BuiltGraph, now: nat): set<ServiceId> {
    set id | id in v.services && CaseOf(v, results, cfg, g, now, id).Well?
             && !v.services[id].status.Unknown? && !v.services[id].status.Healthy?
  }

  lemma CasesAreDecisions(v: View, results: seq<ProbeResult>, cfg: Config, g: BuiltGraph, now: nat)
    requires cfg.Valid()
    ensures var decisions := Plan(results, v.services, cfg, g, now).decisions;
            && Failures(v.services, decisions, cfg) == GivenUpIn(v, results, cfg, g, now)
            && Recoveries(v.services, decisions, cfg) == WellAgainIn(v, results, cfg, g, now)
            && forall id :: id in v.services ==>
                 (CaseOf(v, results, cfg, g, now, id).GivenUp? <==>
                  Decided(v.services, decisions, cfg, id) && decisions[id].Failed?)
  {
    hide Plan, CaseOf, Model.FindIn;
    var decisions := Plan(results, v.services, cfg, g, now).decisions;
    forall id | id in v.services
      ensures var what := CaseOf(v, results, cfg, g, now, id);
              && (what.GivenUp? <==> Decided(v.services, decisions, cfg, id) && decisions[id].Failed?)
              && (what.Well? <==> Decided(v.services, decisions, cfg, id) && decisions[id].Healthy?)
    {
      DecisionByCase(v, results, cfg, g, now, id);
      UndecidedIsUnprobed(v, results, cfg, g, now, id);
      assert cfg.FindService(id).Some? ==> id in cfg.order;
    }
  }

  lemma UndecidedIsUnprobed(v: View, results: seq<ProbeResult>, cfg: Config, g: BuiltGraph, now: nat, id: ServiceId)
    requires id in v.services
    ensures cfg.FindService(id).None? ==> CaseOf(v, results, cfg, g, now, id).Unprobed?
  {
  }

  /** A cycle writes an incident for each critical service it gives up, alerts once if it
      gives up any, names those found well again in service order, restarts the Docker
      daemon exactly if Docker is to blame, and feeds the watchdog. */
  lemma CycleReports(v: View, results: seq<ProbeResult>, cfg: Config, g: BuiltGraph, ctx: Ctx)
    requires cfg.Valid()
    ensures var cmds := HandleProbes(v, results, cfg, g, ctx).cmds;
            var failed := GivenUpIn(v, results, cfg, g, ctx.mono);
            var well := Those(cfg.order, WellAgainIn(v, results, cfg, g, ctx.mono));
            && (forall id :: WriteIncident(Some(id)) in cmds <==>
                  id in failed && cfg.FindService(id).Some? && cfg.FindService(id).value.severity == Critical)
            && (SendAlert(ServicesFailed) in cmds <==> Those(cfg.order, failed) != [])
            && (forall ids :: SendAlert(ServicesRecovered(ids)) in cmds <==> ids == well != [])
            && (RestartDockerDaemon in cmds <==> DockerBlamed(results, cfg, g))
            && NotifyWatchdog in cmds && UpdateLlmContext in cmds
  {
    hide Plan, ApplyDecisions, Those, Failures, Recoveries, GivenUpIn, WellAgainIn, Model.FindIn, DockerBlamed, CaseOf,
        Alerts;
    var plan := Plan(results, v.services, cfg, g, ctx.mono);
    var c := ApplyDecisions(v.services, plan.decisions, cfg.order, cfg, v.held, ctx.mono);
    CasesAreDecisions(v, results, cfg, g, ctx.mono);
    ListsAreExact(v.services, plan.decisions, cfg.order, cfg, v.held, ctx.mono);
    DockerIsRestarted(v, results, cfg, g, ctx.mono);
    forall id
      ensures WriteIncident(Some(id)) in c.cmds <==>
              && id in GivenUpIn(v, results, cfg, g, ctx.mono) && cfg.FindService(id).Some?
              && cfg.FindService(id).value.severity == Critical
    {
      IncidentsAreExact(v.services, plan.decisions, cfg.order, cfg, v.held, ctx.mono, id);
      IncidentOfGivenUp(v, results, cfg, g, ctx.mono, id);
    }
    IncidentsAreExact(v.services, plan.decisions, cfg.order, cfg, v.held, ctx.mono, "");
    ClosingIsExact(c.cmds, plan.dockerRestartNeeded, c.recovered, c.failed);
  }

  lemma ClosingIsExact(cmds: seq<Command>, docker: bool, recovered: seq<ServiceId>, failed: seq<ServiceId>)
    requires forall c :: c in cmds ==> c.WriteIncident? || c.RestartService?
    ensures var all := cmds + (if docker then [RestartDockerDaemon] else []) + Alerts(recovered, failed)
                       + [UpdateLlmContext, NotifyWatchdog];
            && (forall id :: WriteIncident(Some(id)) in all <==> WriteIncident(Some(id)) in cmds)
            && (SendAlert(ServicesFailed) in all <==> failed != [])
            && (forall ids :: SendAlert(ServicesRecovered(ids)) in all <==> ids == recovered != [])
            && (RestartDockerDaemon in all <==> docker)
            && NotifyWatchdog in all && UpdateLlmContext in all
  {
    var all := cmds + (if docker then [RestartDockerDaemon] else []) + Alerts(recovered, failed)
               + [UpdateLlmContext, NotifyWatchdog];
    assert all[|all| - 1] == NotifyWatchdog && all[|all| - 2] == UpdateLlmContext;
  }

  /** What a cycle asks for on behalf of single services, in their order. */
  ghost function InOrder(
      v: View, results: seq<ProbeResult>, cfg: Config, g: BuiltGraph, now: nat, order: seq<ServiceId>): seq<Command> {
    if order == [] then []
    else
      var id, found := order[|order| - 1], cfg.FindService(order[|order| - 1]);
      InOrder(v, results, cfg, g, now, order[..|order| - 1])
      + if id !in v.services || found.None? then []
        else if CaseOf(v, results, cfg, g, now, id).Tried? then
          [RestartService(id, found.value.unit, UnhealthyProbe(Tries(v.services[id].status) + 1))]
        else if CaseOf(v, results, cfg, g, now, id).GivenUp? && found.value.severity == Critical then
          [WriteIncident(Some(id))]
        else []
  }

  lemma {:induction false} ServicesInOrder(
      v: View, results: seq<ProbeResult>, cfg: Config, g: BuiltGraph, now: nat, order: seq<ServiceId>)
    requires cfg.Valid() && forall id :: id in order ==> id in cfg.order
    ensures ApplyDecisions(
              v.services, Plan(results, v.services, cfg, g, now).decisions, order, cfg, v.held, now).cmds ==
            InOrder(v, results, cfg, g, now, order)
    ensures ApplyDecisions(
              v.services, Plan(results, v.services, cfg, g, now).decisions, order, cfg, v.held, now).services.Keys ==
            v.services.Keys
  {
    hide Plan, CaseOf, Model.FindIn, ApplyDecision, Free;
    if order == [] {
    } else {
      var rest, id := order[..|order| - 1], order[|order| - 1];
      var decisions := Plan(results, v.services, cfg, g, now).decisions;
      ServicesInOrder(v, results, cfg, g, now, rest);
      assert id in cfg.order;
      if id in v.services && cfg.FindService(id).Some? {
        DecisionByCase(v, results, cfg, g, now, id);
        WithheldIfLeased(v, results, cfg, g, now, id);
      }
    }
  }

  lemma WithheldIfLeased(v: View, results: seq<ProbeResult>, cfg: Config, g: BuiltGraph, now: nat, id: ServiceId)
    requires id in v.services
    ensures var what := CaseOf(v, results, cfg, g, now, id);
            && (what.Withheld? ==> !Free(v.held, LEASE_TTL, Service(id), now))
            && (what.Tried? ==> Free(v.held, LEASE_TTL, Service(id), now))
  {
    hide Behind, DockerBlamed, Model.FindIn;
  }

  /** The commands of a cycle, in order: restarts and incidents service by service, the
      restart of the Docker daemon, the alerts, and the closing two. */
  lemma CommandsInOrder(v: View, results: seq<ProbeResult>, cfg: Config, g: BuiltGraph, ctx: Ctx)
    requires cfg.Valid()
    ensures var failed := Those(cfg.order, GivenUpIn(v, results, cfg, g, ctx.mono));
            var well := Those(cfg.order, WellAgainIn(v, results, cfg, g, ctx.mono));
            HandleProbes(v, results, cfg, g, ctx).cmds ==
            InOrder(v, results, cfg, g, ctx.mono, cfg.order)
            + (if DockerBlamed(results, cfg, g) then [RestartDockerDaemon] else [])
            + (if failed != [] then [SendAlert(ServicesFailed)] else [])
            + (if well != [] then [SendAlert(ServicesRecovered(well))] else [])
            + [UpdateLlmContext, NotifyWatchdog]
  {
    hide Plan, ApplyDecisions, Those, Failures, Recoveries, GivenUpIn, WellAgainIn, Model.FindIn, DockerBlamed, CaseOf,
        InOrder;
    var plan := Plan(results, v.services, cfg, g, ctx.mono);
    ServicesInOrder(v, results, cfg, g, ctx.mono, cfg.order);
    CasesAreDecisions(v, results, cfg, g, ctx.mono);
    ListsAreExact(v.services, plan.decisions, cfg.order, cfg, v.held, ctx.mono);
    DockerIsRestarted(v, results, cfg, g, ctx.mono);
    var c := ApplyDecisions(v.services, plan.decisions, cfg.order, cfg, v.held, ctx.mono);
    var docker := if plan.dockerRestartNeeded then [RestartDockerDaemon] else [];
    assert c.cmds + docker + Alerts(c.recovered, c.failed) ==
           c.cmds + docker + (if c.failed != [] then [SendAlert(ServicesFailed)] else [])
           + (if c.recovered != [] then [SendAlert(ServicesRecovered(c.recovered))] else []);
  }

  lemma IncidentOfGivenUp(v: View, results: seq<ProbeResult>, cfg: Config, g: BuiltGraph, now: nat, id: ServiceId)
    requires cfg.Valid()
    ensures var decisions := Plan(results, v.services, cfg, g, now).decisions;
            id in GivenUpIn(v, results, cfg, g, now) <==>
            id in cfg.order && Decided(v.services, decisions, cfg, id) && decisions[id].Failed?
  {
    hide Plan, CaseOf, Model.FindIn;
    CasesAreDecisions(v, results, cfg, g, now);
    assert cfg.FindService(id).Some? ==> id in cfg.order;
  }

  lemma DockerIsRestarted(v: View, results: seq<ProbeResult>, cfg: Config, g: BuiltGraph, now: nat)
    requires cfg.Valid()
    ensures Plan(results, v.services, cfg, g, now).dockerRestartNeeded <==> DockerBlamed(results, cfg, g)
  {
    hide Decisions, UnhealthyIn, DockerBlamed, Blocked;
    BlamedExactly(results, cfg, g);
    var roots := RootCauses(g, UnhealthyIn(results));
    if UnhealthyIn(results) == {} {
      assert roots == {} && DockerServices(cfg, roots) == {};
    }
  }

  lemma {:induction false} VerdictIsResult(results: seq<ProbeResult>, id: ServiceId)
    ensures Verdict(results, id) == Some(false) ==> id in UnhealthyIn(results)
  {
    if results == [] {
    } else {
      VerdictIsResult(results[..|results| - 1], id);
      assert results[|results| - 1] in results;
    }
  }

  lemma BlockedIsDecided(
      v: View, results: seq<ProbeResult>, cfg: Config, g: BuiltGraph, now: nat, id: ServiceId)
    requires cfg.Valid() && id in v.services && cfg.FindService(id).Some?
    requires Verdict(results, id) == Some(false)
    requires !(v.services[id].maintenance.Some? && now < v.services[id].maintenance.value)
    requires exists d :: d in g.DependenciesOf(id) && d in UnhealthyIn(results)
    ensures id in Blocked(g, UnhealthyIn(results))
    ensures DecisionFor(Plan(results, v.services, cfg, g, now).decisions, cfg.order, id) ==
            Some(BlockedByDependency(Blocked(g, UnhealthyIn(results))[id]))
  {
    hide Model.FindIn, DockerIsRoot, RootCauses, RootCause;
    var unhealthy := UnhealthyIn(results);
    DecisionIsVerdict(
      results, v.services, cfg, Blocked(g, unhealthy), DockerIsRoot(cfg, RootCauses(g, unhealthy)), now, id);
    VerdictIsResult(results, id);
    assert id in cfg.order;
  }

  /** An unhealthy service behind another unhealthy one is not touched but for its status,
      which names a root cause at the end of a chain of failing dependencies. */
  lemma BlockedNamesItsRoot(
      v: View, results: seq<ProbeResult>, cfg: Config, g: BuiltGraph, ctx: Ctx, id: ServiceId)
    requires cfg.Valid() && id in v.services && cfg.FindService(id).Some?
    requires Verdict(results, id) == Some(false)
    requires !(v.services[id].maintenance.Some? && ctx.mono < v.services[id].maintenance.value)
    requires exists d :: d in g.DependenciesOf(id) && d in UnhealthyIn(results)
    ensures var unhealthy, after := UnhealthyIn(results), HandleProbes(v, results, cfg, g, ctx).view.services;
            && id in after && after[id].status.BlockedByDep?
            && after[id] == v.services[id].(status := after[id].status)
            && after[id].status.root in RootCauses(g, unhealthy)
            && exists w :: ChainOfFailures(g, unhealthy, w, id, after[id].status.root)
  {
    hide HandleProbes, Model.FindIn, Free, Plan, Blocked, RootCauses, ChainOfFailures, Verdict, UnhealthyIn;
    CycleTreats(v, results, cfg, g, ctx, id);
    BlockedIsDecided(v, results, cfg, g, ctx.mono, id);
    ClassificationPartitions(g, UnhealthyIn(results));
  }
}
