/** The executor of the daemon, updating its state in place and re-entering the reducer for
    probe cycles (src/runtime.rs). */
module Executor {
  import opened Model
  import opened Wrappers
  import opened Graph
  import opened Reducer
  import opened DaemonState
  import opened Runtime

  class Daemon {
    const state: State
    var disk: BackupPhase
    var stopped: set<ServiceId>
    var spawnFailed: bool
    var clock: nat

    ghost predicate Valid()
      reads this, state, state.leases, state.remediationLog
    {
      state.Valid()
    }

    ghost function Value(): Machine
      reads this, state, state.leases, state.remediationLog
    {
      Machine(state.View(), disk, stopped, spawnFailed, clock)
    }

    constructor (cfg: Config, disk: BackupPhase, stopped: set<ServiceId>, clock: nat)
      ensures Valid() && fresh(state) && fresh(state.leases) && fresh(state.remediationLog)
      ensures Value() == Machine(InitialView(cfg, map[]), disk, stopped, false, clock)
    {
      state := new State(cfg);
      this.disk, this.stopped, this.spawnFailed, this.clock := disk, stopped, false, clock;
    }

    /** Starts a backup worker under a new command id. */
    method StartJob(spawnOk: bool)
      requires Valid()
      modifies this, state
      ensures Valid()
      ensures var v := old(state.View());
              Value() == old(Value()).(
                view := v.(nextCmdId := v.nextCmdId + 1, pending := if spawnOk then Some(v.nextCmdId) else None),
                spawnFailed := old(spawnFailed) || !spawnOk)
    {
      var id := state.AllocCmdId();
      state.backupPendingCmd := Some(id);
      if !spawnOk {
        state.backupPendingCmd := None;
        spawnFailed := true;
      }
    }

    method PerformOther(c: Command, r: Reading)
      requires Valid() && !c.RunProbes? && !IsJob(c)
      modifies this, state, state.leases
      ensures Valid() && Value() == Effect(old(Value()), c, r)
    {
      clock := Max(clock, r.ctx.mono);
      match c {
        case RestartService(id, _, _) => stopped := stopped - {id};
        case StartService(id, _) => stopped := stopped - {id};
        case StopService(id, _, _) => stopped := stopped + {id};
        case PersistBackupState(phase) => disk := phase;
        case Shutdown => state.shuttingDown := true;
        case AcquireLease(resource, holder) =>
          var _ := state.leases.Acquire(resource, holder, clock);
        case ReleaseLease(resource) => state.leases.ForceRelease(resource);
        case _ =>
      }
    }

    method Perform(c: Command, r: Reading)
      requires Valid() && !c.RunProbes?
      modifies this, state, state.leases
      ensures Valid() && Value() == Effect(old(Value()), c, r)
    {
      if IsJob(c) {
        StartJob(r.spawnOk);
        clock := Max(clock, r.ctx.mono);
      } else {
        PerformOther(c, r);
      }
    }

    /** The recursion of the executor, measured by the probe commands left. */
    method ExecuteCommands(cmds: seq<Command>, env: nat -> Reading, i: nat, cfg: Config, g: BuiltGraph) returns (j: nat)
      requires Valid()
      modifies this, state, state.leases, state.remediationLog
      ensures Valid()
      ensures (Value(), j) == ExecuteAll(old(Value()), cmds, env, i, cfg, g)
      decreases CountProbes(cmds), 0
    {
      j := i;
      ghost var m0 := Value();
      assert cmds[0..] == cmds;
      for k := 0 to |cmds|
        invariant Valid()
        invariant ExecuteAll(m0, cmds, env, i, cfg, g) == ExecuteAll(Value(), cmds[k..], env, j, cfg, g)
      {
        var c := cmds[k];
        ghost var m := Value();
        assert cmds[k..][0] == c && cmds[k..][1..] == cmds[k + 1..];
        NestedCommandsAreQuiet(m, c, env(j), cfg, g);
        if c.RunProbes? {
          ProbesLeft(cmds, k);
          j := ExecRunProbes(c.ids, env, j, cfg, g);
        } else {
          Perform(c, env(j));
          j := j + 1;
        }
      }
    }

    method ExecRunProbes(ids: seq<ServiceId>, env: nat -> Reading, i: nat, cfg: Config, g: BuiltGraph) returns (j: nat)
      requires Valid()
      modifies this, state, state.leases, state.remediationLog
      ensures Valid()
      ensures var (m, nested) := ExecOne(old(Value()), RunProbes(ids), env(i), cfg, g);
              (Value(), j) == ExecuteAll(m, nested, env, i + 1, cfg, g)
      decreases 0, 1
    {
      var r := env(i);
      var results := Probe(ids, cfg, r.healthy);
      var ctx := At(clock, r.ctx);
      NestedCommandsAreQuiet(Value(), RunProbes(ids), r, cfg, g);
      var cmds := state.Reduce(ProbeResults(results), cfg, g, ctx);
      clock := ctx.mono;
      j := ExecuteCommands(cmds, env, i + 1, cfg, g);
    }
  }

  lemma {:induction false} ProbesLeft(cmds: seq<Command>, k: nat)
    requires k < |cmds| && cmds[k].RunProbes?
    ensures CountProbes(cmds) > 0
  {
    if k == 0 {
    } else {
      ProbesLeft(cmds[1..], k - 1);
    }
  }
}
