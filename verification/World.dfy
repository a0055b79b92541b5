/** Whole runs of the daemon, in steps small enough to be cut anywhere: the event loop
    delivers an event when the command queue is empty, the executor takes one command off
    the queue, the process crashes and starts again (src/runtime.rs). */
module World {
  import opened Model
  import opened Wrappers
  import opened Schedule
  import opened Graph
  import opened Reducer
  import opened Runtime

  datatype BackupRun = BackupRun(run: RunId, pre: seq<ServiceSnapshot>)

  /** `queue` holds the commands still to execute. The other fields record history:
      `promised` is the set of services the last persisted snapshot promised to restore,
      `lastRun` the last backup started by this process, `starts` the dates on which this
      process started one, `observed` whether it has made its startup probes. */
  datatype World = World(
    m: Machine, queue: seq<Command>, promised: set<ServiceId>, lastRun: Option<BackupRun>, starts: seq<WallClock>,
    observed: bool)

  datatype Action =
    | Deliver(event: Event, ctx: Ctx)
    | Exec(reading: Reading)
    | Crash(ctx: Ctx, maintenance: map<ServiceId, nat>)

  /** The services a phase on disk obliges startup recovery to start. */
  ghost function Covered(phase: BackupPhase): set<ServiceId> {
    var pre := phase.PreBackupServices();
    if pre.Some? then WasRunning(pre.value) else {}
  }

  ghost function WasRunning(pre: seq<ServiceSnapshot>): set<ServiceId> {
    set snap | snap in pre && snap.wasRunning :: snap.id
  }

  ghost function PromisedAfter(promised: set<ServiceId>, c: Command): set<ServiceId> {
    if !c.PersistBackupState? then promised
    else if c.phase.Locked? then {}
    else promised + Covered(c.phase)
  }

  /** A process starting on what the previous one left: memory is fresh, the persisted
      maintenance is loaded, and an unfinished backup is compensated first. */
  ghost function Boot(
      disk: BackupPhase, stopped: set<ServiceId>, promised: set<ServiceId>, mono: nat,
      maintenance: map<ServiceId, nat>, cfg: Config): World {
    var out := HandleStartupRecovery(InitialView(cfg, maintenance), disk);
    World(Machine(out.view, disk, stopped, false, mono), out.cmds, promised, None, [], false)
  }

  /** An event is delivered once the commands of the last one are executed, and no more once
      the daemon is shutting down: the loop ends with the event that says so. The startup
      probes come first, once in a process; the results of all later probes are never
      delivered, since the command that asks for them reduces them itself. */
  ghost predicate Enabled(w: World, a: Action) {
    match a
    case Deliver(e, _) =>
      && w.queue == [] && !w.m.view.shuttingDown
      && !e.StartupRecovery? && !e.ProbeResults? && (e.StartupProbeResults? <==> !w.observed)
    case Exec(_) => w.queue != []
    case Crash(_, _) => true
  }

  ghost function Delivered(w: World, e: Event, ctx: Ctx, cfg: Config, g: BuiltGraph): Out
  {
    Reduce(w.m.view, e, cfg, g, At(w.m.clock, ctx))
  }

  /** An action that is not enabled changes nothing. */
  ghost function Step(w: World, a: Action, cfg: Config, g: BuiltGraph): World
  {
    if !Enabled(w, a) then w
    else
      match a
      case Deliver(e, ctx) =>
        var out := Delivered(w, e, ctx, cfg, g);
        var m := w.m.(view := out.view, clock := At(w.m.clock, ctx).mono);
        var started := w.m.view.phase.Idle? && out.view.phase.ResticRunning?;
        World(m, out.cmds, w.promised,
              if started then Some(BackupRun(out.view.phase.run, out.view.phase.pre)) else w.lastRun,
              if started then w.starts + [ctx.wall] else w.starts, true)
      case Exec(r) =>
        var (m, nested) := ExecOne(w.m, w.queue[0], r, cfg, g);
        w.(m := m, queue := nested + w.queue[1..], promised := PromisedAfter(w.promised, w.queue[0]))
      case Crash(ctx, maintenance) =>
        Boot(w.m.disk, w.m.stopped, w.promised, ctx.mono, maintenance, cfg)
  }

  ghost function Run(w: World, acts: seq<Action>, cfg: Config, g: BuiltGraph): World
  {
    if acts == [] then w else Step(Run(w, acts[..|acts| - 1], cfg, g), acts[|acts| - 1], cfg, g)
  }

  lemma {:induction false} RunAppend(w: World, a: seq<Action>, b: seq<Action>, cfg: Config, g: BuiltGraph)
    ensures Run(w, a + b, cfg, g) == Run(Run(w, a, cfg, g), b, cfg, g)
  {
    hide Step;
    if b == [] {
      assert a + b == a;
    } else {
      RunAppend(w, a, b[..|b| - 1], cfg, g);
      assert (a + b)[..|a + b| - 1] == a + b[..|b| - 1];
    }
  }

  lemma RunOne(w: World, a: Action, cfg: Config, g: BuiltGraph)
    ensures Run(w, [a], cfg, g) == Step(w, a, cfg, g)
  {
    hide Step;
    assert [a][..0] == [];
    assert Run(w, [], cfg, g) == w;
  }

  // ---- The recursive executor is the queue, flattened ----

  function Execs(env: nat -> Reading, i: nat, n: nat): seq<Action> {
    seq(n, k requires 0 <= k < n => Exec(env(i + k)))
  }

  lemma RunExecs(w: World, env: nat -> Reading, i: nat, a: nat, b: nat, cfg: Config, g: BuiltGraph)
    ensures Run(w, Execs(env, i, a + b), cfg, g) == Run(Run(w, Execs(env, i, a), cfg, g), Execs(env, i + a, b), cfg, g)
  {
    hide Step;
    RunAppend(w, Execs(env, i, a), Execs(env, i + a, b), cfg, g);
    assert Execs(env, i, a) + Execs(env, i + a, b) == Execs(env, i, a + b);
  }

  lemma NoExecs(w: World, env: nat -> Reading, i: nat, cfg: Config, g: BuiltGraph)
    ensures Run(w, Execs(env, i, 0), cfg, g) == w
  {
    hide Step;
    assert Execs(env, i, 0) == [];
  }

  lemma RunFirst(w: World, env: nat -> Reading, i: nat, cfg: Config, g: BuiltGraph)
    requires w.queue != []
    ensures var (m, nested) := ExecOne(w.m, w.queue[0], env(i), cfg, g);
            var end := Run(w, Execs(env, i, 1), cfg, g);
            end.m == m && end.queue == nested + w.queue[1..]
  {
    hide Reducer.Reduce;
    assert Execs(env, i, 1) == [Exec(env(i))];
    RunOne(w, Exec(env(i)), cfg, g);
  }

  lemma SplitExecs(w: World, env: nat -> Reading, i: nat, k: nat, j: nat, cfg: Config, g: BuiltGraph)
    requires i <= k <= j
    ensures Run(w, Execs(env, i, j - i), cfg, g) ==
            Run(Run(w, Execs(env, i, k - i), cfg, g), Execs(env, k, j - k), cfg, g)
  {
    hide Step;
    RunExecs(w, env, i, k - i, j - k, cfg, g);
  }

  ghost predicate Executes(
      w: World, rest: seq<Command>, env: nat -> Reading, i: nat, m: Machine, j: nat, cfg: Config, g: BuiltGraph)
  {
    i <= j && Run(w, Execs(env, i, j - i), cfg, g).m == m && Run(w, Execs(env, i, j - i), cfg, g).queue == rest
  }

  lemma ExecutesTwice(
      w: World, mid: World, rest: seq<Command>, env: nat -> Reading, i: nat, k: nat, m: Machine, j: nat, cfg: Config,
      g: BuiltGraph)
    requires i <= k && mid == Run(w, Execs(env, i, k - i), cfg, g)
    requires Executes(mid, rest, env, k, m, j, cfg, g)
    ensures Executes(w, rest, env, i, m, j, cfg, g)
  {
    hide Step;
    SplitExecs(w, env, i, k, j, cfg, g);
  }

  /** What the executor's recursion does to a command list, nested probe cycles included,
      is what single steps do to a queue that starts with it: so every point at which the
      executor can be interrupted is a state of a run. */
  lemma {:induction false} ExecutorFlattens(
      w: World, cmds: seq<Command>, rest: seq<Command>, env: nat -> Reading, i: nat, cfg: Config, g: BuiltGraph)
    requires w.queue == cmds + rest
    ensures var (m, j) := ExecuteAll(w.m, cmds, env, i, cfg, g);
            Executes(w, rest, env, i, m, j, cfg, g)
    decreases CountProbes(cmds), |cmds|
  {
    hide Runtime.ExecOne, Step, Run;
    if cmds == [] {
      NoExecs(w, env, i, cfg, g);
    } else {
      RunFirst(w, env, i, cfg, g);
      assert w.queue[1..] == cmds[1..] + rest;
      var w1 := Run(w, Execs(env, i, 1), cfg, g);
      NestedCommandsAreQuiet(w.m, cmds[0], env(i), cfg, g);
      var nested := ExecOne(w.m, cmds[0], env(i), cfg, g).1;
      ExecutorFlattens(w1, nested, cmds[1..] + rest, env, i + 1, cfg, g);
      var (m2, k) := ExecuteAll(w1.m, nested, env, i + 1, cfg, g);
      ExecutesTwice(w, w1, cmds[1..] + rest, env, i, i + 1, m2, k, cfg, g);
      var w2 := Run(w, Execs(env, i, k - i), cfg, g);
      ExecutorFlattens(w2, cmds[1..], rest, env, k, cfg, g);
      var (m, j) := ExecuteAll(w2.m, cmds[1..], env, k, cfg, g);
      ExecutesTwice(w, w2, rest, env, i, k, m, j, cfg, g);
    }
  }
}
