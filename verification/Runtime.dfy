/** The executor: how emitted commands act on the state, the disk and the services, one
    command at a time, and the recursive loop of the daemon (src/runtime.rs). */
module Runtime {
  import opened Model
  import opened Wrappers
  import opened Lease
  import opened Graph
  import opened Reducer
  import Recovery

  /** Everything a command can touch. `stopped` holds the services whose last systemctl
      action was a stop; `spawnFailed` tells whether a backup worker failed to spawn since
      the daemon started; `clock` is the last monotonic instant read. */
  datatype Machine = Machine(view: View, disk: BackupPhase, stopped: set<ServiceId>, spawnFailed: bool, clock: nat)

  /** What the outside world answers to one command: the clocks, the services that probe
      healthy, and whether a worker thread could be spawned. A reading of the monotonic
      clock below an earlier one counts as the earlier one, so that every sequence of
      readings stands for a non-decreasing clock. */
  datatype Reading = Reading(ctx: Ctx, healthy: set<ServiceId>, spawnOk: bool)

  function At(clock: nat, ctx: Ctx): Ctx {
    ctx.(mono := Max(clock, ctx.mono))
  }

  /** One result per probed service the configuration knows. */
  function Probe(ids: seq<ServiceId>, cfg: Config, healthy: set<ServiceId>): seq<ProbeResult> {
    if ids == [] then []
    else
      var id := ids[|ids| - 1];
      Probe(ids[..|ids| - 1], cfg, healthy)
      + if cfg.FindService(id).Some? then [ProbeResult(id, id in healthy)] else []
  }

  predicate IsJob(c: Command) {
    c.ResticBackup? || c.ResticForget? || c.ResticCheck?
  }

  /** The effect of every command but `RunProbes`. */
  function Effect(m: Machine, c: Command, r: Reading): Machine {
    var now := Max(m.clock, r.ctx.mono);
    var m' := m.(clock := now);
    var v := m.view;
    if IsJob(c) then
      m'.(view := v.(nextCmdId := v.nextCmdId + 1, pending := if r.spawnOk then Some(v.nextCmdId) else None),
          spawnFailed := m.spawnFailed || !r.spawnOk)
    else
      match c
      case RestartService(id, _, _) => m'.(stopped := m.stopped - {id})
      case StartService(id, _) => m'.(stopped := m.stopped - {id})
      case StopService(id, _, _) => m'.(stopped := m.stopped + {id})
      case PersistBackupState(phase) => m'.(disk := phase)
      case Shutdown => m'.(view := v.(shuttingDown := true))
      case AcquireLease(res, holder) => m'.(view := v.(held := Acquired(v.held, LEASE_TTL, res, holder, now)))
      case ReleaseLease(res) => m'.(view := v.(held := v.held - {res}))
      case _ => m'
  }

  ghost function Probed(m: Machine, ids: seq<ServiceId>, r: Reading, cfg: Config, g: BuiltGraph): Out
  {
    Reduce(m.view, ProbeResults(Probe(ids, cfg, r.healthy)), cfg, g, At(m.clock, r.ctx))
  }

  /** One command, and the commands it makes the executor run at once. */
  ghost function ExecOne(m: Machine, c: Command, r: Reading, cfg: Config, g: BuiltGraph): (Machine, seq<Command>)
  {
    if c.RunProbes? then
      var out := Probed(m, c.ids, r, cfg, g);
      (m.(clock := Max(m.clock, r.ctx.mono), view := out.view), out.cmds)
    else (Effect(m, c, r), [])
  }

  function CountProbes(cmds: seq<Command>): nat {
    if cmds == [] then 0 else (if cmds[0].RunProbes? then 1 else 0) + CountProbes(cmds[1..])
  }

  // ---- Probe cycles never ask for probes, so the recursion ends ----

  /** Commands a probe cycle may emit: they leave the backup state machine, the leases and
      the disk alone. */
  predicate Quiet(c: Command) {
    || c.RestartDockerDaemon? || c.SendAlert? || c.WriteIncident? || c.UpdateLlmContext? || c.NotifyWatchdog?
    || (c.RestartService? && c.cause.UnhealthyProbe?)
  }

  ghost predicate AllQuiet(cmds: seq<Command>) {
    forall c :: c in cmds ==> Quiet(c)
  }

  lemma {:induction false} QuietHasNoProbes(cmds: seq<Command>)
    requires AllQuiet(cmds)
    ensures CountProbes(cmds) == 0
  {
    if cmds == [] {
    } else {
      assert Quiet(cmds[0]);
      QuietHasNoProbes(cmds[1..]);
    }
  }

  lemma {:induction false} ApplyDecisionsIsQuiet(
    services: map<ServiceId, SvcState>, decisions: map<ServiceId, Recovery.Decision>, order: seq<ServiceId>,
    cfg: Config, held: Held, now: nat)
    ensures AllQuiet(ApplyDecisions(services, decisions, order, cfg, held, now).cmds)
    ensures ApplyDecisions(services, decisions, order, cfg, held, now).services.Keys == services.Keys
  {
    if order == [] {
    } else {
      ApplyDecisionsIsQuiet(services, decisions, order[..|order| - 1], cfg, held, now);
    }
  }

  /** A probe cycle changes the services alone, and emits quiet commands only. */
  ghost predicate OnlyServicesMove(v: View, out: Out) {
    && AllQuiet(out.cmds) && CountProbes(out.cmds) == 0
    && out.view == v.(services := out.view.services)
    && out.view.services.Keys == v.services.Keys
  }

  lemma ProbesAreQuiet(v: View, results: seq<ProbeResult>, cfg: Config, g: BuiltGraph, ctx: Ctx)
    ensures OnlyServicesMove(v, Reduce(v, ProbeResults(results), cfg, g, ctx))
  {
    var out := Reduce(v, ProbeResults(results), cfg, g, ctx);
    if !v.shuttingDown {
      var plan := Recovery.Plan(results, v.services, cfg, g, ctx.mono);
      ApplyDecisionsIsQuiet(v.services, plan.decisions, cfg.order, cfg, v.held, ctx.mono);
    }
    QuietHasNoProbes(out.cmds);
  }

  /** Only a probe command has nested commands, and none of those probes again. */
  lemma NestedCommandsAreQuiet(m: Machine, c: Command, r: Reading, cfg: Config, g: BuiltGraph)
    ensures c.RunProbes? ==> OnlyServicesMove(m.view, Probed(m, c.ids, r, cfg, g))
    ensures var nested := ExecOne(m, c, r, cfg, g).1;
            AllQuiet(nested) && CountProbes(nested) == 0 && (nested == [] || c.RunProbes?)
  {
    ProbesAreQuiet(m.view, if c.RunProbes? then Probe(c.ids, cfg, r.healthy) else [], cfg, g, At(m.clock, r.ctx));
  }

  /** The executor's meaning: commands in order, the commands of a nested probe cycle
      before the rest. `env(i)` answers the i-th command executed. */
  ghost function ExecuteAll(
      m: Machine, cmds: seq<Command>, env: nat -> Reading, i: nat, cfg: Config, g: BuiltGraph): (r: (Machine, nat))
    ensures r.1 >= i
    decreases CountProbes(cmds), |cmds|
  {
    if cmds == [] then (m, i)
    else
      var (m1, nested) := ExecOne(m, cmds[0], env(i), cfg, g);
      NestedCommandsAreQuiet(m, cmds[0], env(i), cfg, g);
      var (m2, j) := ExecuteAll(m1, nested, env, i + 1, cfg, g);
      ExecuteAll(m2, cmds[1..], env, j, cfg, g)
  }
}
