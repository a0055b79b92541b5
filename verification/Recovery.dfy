/** The recovery policy: what to do with each service after a probe cycle (src/policy/recovery.rs). */
module Recovery {
  import opened Model
  import opened Wrappers
  import opened Graph
  import Breaker

  const DOCKER_DAEMON: ServiceId := "docker_daemon"

  datatype Decision =
    | Healthy
    | Restart(unit: string, attempt: nat, severity: Severity)
    | Failed
    | BlockedByDependency(root: ServiceId)
    | BreakerOpen
    | InMaintenance
    | DockerRootCause

  datatype RecoveryPlan = RecoveryPlan(decisions: map<ServiceId, Decision>, dockerRestartNeeded: bool)

  predicate InMaintenanceAt(svc: SvcState, now: nat) {
    svc.maintenance.Some? && now < svc.maintenance.value
  }

  predicate CoolingDown(svc: SvcState, entry: ServiceEntry, now: nat) {
    svc.lastRestart.Some? && SaturatingSub(now, svc.lastRestart.value) < entry.restartCooldown
  }

  function NextAttempt(status: Status): nat {
    match status
    case Recovering(attempt, _) => attempt + 1
    case Unhealthy(_, consecutive) => consecutive + 1
    case _ => 1
  }

  function EvaluateSingle(
      healthy: bool, svc: SvcState, entry: ServiceEntry, root: Option<ServiceId>, dockerRoot: bool,
      now: nat): Decision {
    if healthy then Decision.Healthy
    else if InMaintenanceAt(svc, now) then InMaintenance
    else if root.Some? then BlockedByDependency(root.value)
    else if dockerRoot && entry.kind == DockerSystemd then DockerRootCause
    else if !Breaker.AllowsRecovery(svc.breaker, now) then BreakerOpen
    else if CoolingDown(svc, entry, now) then BreakerOpen
    else if NextAttempt(svc.status) > entry.severity.MaxRestartAttempts() then Decision.Failed
    else Restart(entry.unit, NextAttempt(svc.status), entry.severity)
  }

  function UnhealthyIn(results: seq<ProbeResult>): set<ServiceId> {
    set r | r in results && !r.healthy :: r.service
  }

  predicate HasKind(cfg: Config, id: ServiceId, kind: ServiceKind) {
    var s := cfg.FindService(id);
    s.Some? && s.value.kind == kind
  }

  function DockerServices(cfg: Config, roots: set<ServiceId>): set<ServiceId> {
    set id | id in roots && HasKind(cfg, id, DockerSystemd)
  }

  /** Two or more failing Docker services, or the daemon itself, point at Docker. */
  predicate DockerIsRoot(cfg: Config, roots: set<ServiceId>) {
    |DockerServices(cfg, roots)| >= 2 || (DOCKER_DAEMON in roots && HasKind(cfg, DOCKER_DAEMON, Virtual))
  }

  function Lookup(m: map<ServiceId, ServiceId>, id: ServiceId): Option<ServiceId> {
    if id in m then Some(m[id]) else None
  }

  /** The decisions of a probe cycle; a later result for a service replaces an earlier one. */
  function Decisions(
    results: seq<ProbeResult>, services: map<ServiceId, SvcState>, cfg: Config,
    blocked: map<ServiceId, ServiceId>, dockerRoot: bool, now: nat): map<ServiceId, Decision>
  {
    if results == [] then map[]
    else
      var last := results[|results| - 1];
      var before := Decisions(results[..|results| - 1], services, cfg, blocked, dockerRoot, now);
      var entry := cfg.FindService(last.service);
      if entry.None? || last.service !in services then before
      else before[last.service :=
                    EvaluateSingle(
                      last.healthy, services[last.service], entry.value,
                      Lookup(blocked, last.service), dockerRoot, now)]
  }

  ghost function Plan(
    results: seq<ProbeResult>, services: map<ServiceId, SvcState>, cfg: Config, g: BuiltGraph, now: nat): RecoveryPlan
  {
    var unhealthy := UnhealthyIn(results);
    var dockerRoot := DockerIsRoot(cfg, RootCauses(g, unhealthy));
    RecoveryPlan(
      Decisions(results, services, cfg, Blocked(g, unhealthy), dockerRoot, now),
      dockerRoot && unhealthy != {})
  }

  /** The last result for a service. */
  function Verdict(results: seq<ProbeResult>, id: ServiceId): Option<bool> {
    if results == [] then None
    else
      var last := results[|results| - 1];
      if last.service == id then Some(last.healthy) else Verdict(results[..|results| - 1], id)
  }

  /** A decision is made exactly for the services that are configured, tracked and probed,
      and it is the policy's answer to the last result. */
  lemma {:induction false} DecisionIsVerdict(
    results: seq<ProbeResult>, services: map<ServiceId, SvcState>, cfg: Config,
    blocked: map<ServiceId, ServiceId>, dockerRoot: bool, now: nat, id: ServiceId)
    ensures var decisions, verdict := Decisions(results, services, cfg, blocked, dockerRoot, now), Verdict(results, id);
            && (id in decisions <==> id in services && cfg.FindService(id).Some? && verdict.Some?)
            && (id in decisions ==>
                decisions[id] == EvaluateSingle(
                  verdict.value, services[id], cfg.FindService(id).value, Lookup(blocked, id), dockerRoot, now))
            && (verdict.Some? ==> ProbeResult(id, verdict.value) in results)
  {
    hide EvaluateSingle, Model.FindIn;
    if results == [] {
    } else {
      DecisionIsVerdict(results[..|results| - 1], services, cfg, blocked, dockerRoot, now, id);
      assert results[|results| - 1] in results;
    }
  }

  // ---- The policy as the daemon runs it ----

  method CollectUnhealthy(results: seq<ProbeResult>) returns (unhealthy: seq<ServiceId>)
    ensures Elements(unhealthy) == UnhealthyIn(results)
    ensures unhealthy == [] <==> UnhealthyIn(results) == {}
  {
    unhealthy := [];
    for k := 0 to |results|
      invariant Elements(unhealthy) == UnhealthyIn(results[..k])
    {
      assert results[..k + 1] == results[..k] + [results[k]];
      if !results[k].healthy && results[k].service !in unhealthy {
        unhealthy := unhealthy + [results[k].service];
      }
      assert Elements(unhealthy) == UnhealthyIn(results[..k + 1]);
    }
    assert results[..|results|] == results;
    assert unhealthy != [] ==> unhealthy[0] in Elements(unhealthy);
  }

  method FindDockerRoot(cfg: Config, rootCauses: seq<ServiceId>) returns (dockerRoot: bool)
    ensures dockerRoot == DockerIsRoot(cfg, Elements(rootCauses))
  {
    var down: set<ServiceId> := {};
    var daemon := false;
    for k := 0 to |rootCauses|
      invariant down == DockerServices(cfg, Elements(rootCauses[..k]))
      invariant daemon == (DOCKER_DAEMON in rootCauses[..k] && HasKind(cfg, DOCKER_DAEMON, Virtual))
    {
      var id := rootCauses[k];
      assert rootCauses[..k + 1] == rootCauses[..k] + [id];
      if HasKind(cfg, id, DockerSystemd) {
        down := down + {id};
      }
      if HasKind(cfg, id, Virtual) && id == DOCKER_DAEMON {
        daemon := true;
      }
    }
    assert rootCauses[..|rootCauses|] == rootCauses;
    return |down| >= 2 || daemon;
  }

  method Decide(
    results: seq<ProbeResult>, services: map<ServiceId, SvcState>, cfg: Config,
    blocked: map<ServiceId, ServiceId>, dockerRoot: bool, now: nat)
    returns (decisions: map<ServiceId, Decision>)
    ensures decisions == Decisions(results, services, cfg, blocked, dockerRoot, now)
  {
    decisions := map[];
    for k := 0 to |results|
      invariant decisions == Decisions(results[..k], services, cfg, blocked, dockerRoot, now)
    {
      assert results[..k + 1][..k] == results[..k];
      var id := results[k].service;
      var entry := cfg.FindService(id);
      if entry.Some? && id in services {
        var root := Lookup(blocked, id);
        var decision := EvaluateSingle(results[k].healthy, services[id], entry.value, root, dockerRoot, now);
        decisions := decisions[id := decision];
      }
    }
    assert results[..|results|] == results;
  }

  method Evaluate(
      results: seq<ProbeResult>, services: map<ServiceId, SvcState>, cfg: Config, g: BuiltGraph,
      now: nat) returns (plan: RecoveryPlan)
    ensures plan == Plan(results, services, cfg, g, now)
  {
    var unhealthy := CollectUnhealthy(results);
    var rootCauses, blocked := ClassifyFailures(g, unhealthy);
    var dockerRoot := FindDockerRoot(cfg, rootCauses);
    var decisions := Decide(results, services, cfg, blocked, dockerRoot, now);
    return RecoveryPlan(decisions, dockerRoot && unhealthy != []);
  }
}
