/** Counting failed backups over the runs of a process. */
module BackupFailures {
  import opened Model
  import opened Wrappers
  import opened Graph
  import opened Reducer
  import opened Runtime
  import opened World
  import opened ServiceSteps
  import opened BackupConsistency
  import opened BackupLifecycle

  /** The count after a step: a finished main job resets it, a failed main job or a failed
      retention raises it, and a failed verification does not count. */
  ghost function Counted(count: nat, w: World, a: Action): nat {
    if !Accepts(w, a) then count
    else
      var success := a.event.result.Success?;
      match w.m.view.phase
      case ResticRunning(_, _) => if success then 0 else count + 1
      case RetentionRunning(_) => if success then count else count + 1
      case _ => count
  }

  ghost function FailuresInARow(w: World, acts: seq<Action>, cfg: Config, g: BuiltGraph): nat
  {
    if acts == [] then 0
    else Counted(FailuresInARow(w, acts[..|acts| - 1], cfg, g), Run(w, acts[..|acts| - 1], cfg, g), acts[|acts| - 1])
  }

  lemma {:induction false} TickKeepsCount(v: View, tasks: seq<TaskKind>, cfg: Config, ctx: Ctx)
    ensures HandleTick(v, tasks, cfg, ctx).view.failures == v.failures
  {
    if tasks == [] {
    } else {
      TickKeepsCount(v, tasks[..|tasks| - 1], cfg, ctx);
    }
  }

  lemma RemediationKeepsCount(
      v: View, a: RemediationAction, target: Option<ServiceId>, source: string, reason: string, cfg: Config, ctx: Ctx)
    ensures HandleRemediation(v, a, target, source, reason, cfg, ctx).view.failures == v.failures
  {
    hide HandleTick, OverLimit;
    TickKeepsCount(v, [Backup], cfg, ctx);
  }

  lemma CycleKeepsCount(v: View, results: seq<ProbeResult>, cfg: Config, g: BuiltGraph, ctx: Ctx)
    ensures HandleProbes(v, results, cfg, g, ctx).view.failures == v.failures
  {
  }

  lemma CompletionCounts(w: World, a: Action, cfg: Config, g: BuiltGraph)
    requires Accepts(w, a)
    ensures Step(w, a, cfg, g).m.view.failures == Counted(w.m.view.failures, w, a)
    ensures WriteIncident(None) in Emitted(w, a, cfg, g) <==>
              Counted(w.m.view.failures, w, a) > w.m.view.failures && Counted(w.m.view.failures, w, a) >= 3
  {
    hide HandleProbes, HandleTick, HandleRemediation, Observe, RestoreCommands;
    var pre := w.m.view.phase.PreBackupServices();
    if pre.Some? {
      RestoresStartNothing(pre.value);
    }
  }

  lemma OtherStepKeepsCount(w: World, a: Action, cfg: Config, g: BuiltGraph)
    requires !Accepts(w, a) && !a.Crash?
    ensures Step(w, a, cfg, g).m.view.failures == w.m.view.failures
  {
    hide HandleProbes, HandleTick, HandleRemediation, Observe, BackupEffect;
    if CycleOf(w, a, cfg).Some? {
      var c := CycleOf(w, a, cfg).value;
      CycleStep(w, a, cfg, g);
      CycleKeepsCount(w.m.view, c.results, cfg, g, c.ctx);
    } else if a.Deliver? && Enabled(w, a) {
      var ctx := At(w.m.clock, a.ctx);
      match a.event {
        case Tick(tasks) => TickKeepsCount(w.m.view, tasks, cfg, ctx);
        case HttpCommand(request) =>
          match request {
            case Trigger(task) => TickKeepsCount(w.m.view, [task], cfg, ctx);
            case Remediate(r, target, source, reason) =>
              RemediationKeepsCount(w.m.view, r, target, source, reason, cfg, ctx);
          }
        case _ =>
      }
    }
  }

  /** The daemon's count is the number of failures since a main job last succeeded, and the
      completion that brings it to three or more, and no other, writes an incident. */
  lemma {:induction false} CountIsFailuresInARow(w: World, acts: seq<Action>, cfg: Config, g: BuiltGraph)
    requires NoCrash(acts) && w.m.view.failures == 0
    ensures Run(w, acts, cfg, g).m.view.failures == FailuresInARow(w, acts, cfg, g)
    ensures acts != [] && Accepts(Run(w, acts[..|acts| - 1], cfg, g), acts[|acts| - 1]) ==>
              var n, before := FailuresInARow(w, acts, cfg, g), FailuresInARow(w, acts[..|acts| - 1], cfg, g);
              WriteIncident(None) in Emitted(Run(w, acts[..|acts| - 1], cfg, g), acts[|acts| - 1], cfg, g) <==>
                n > before && n >= 3
  {
    hide Step, Emitted, Accepts, Counted;
    if acts == [] {
    } else {
      var rest, last := acts[..|acts| - 1], acts[|acts| - 1];
      CountIsFailuresInARow(w, rest, cfg, g);
      var before := Run(w, rest, cfg, g);
      if Accepts(before, last) {
        CompletionCounts(before, last, cfg, g);
      } else {
        OtherStepKeepsCount(before, last, cfg, g);
        NotAcceptedIsNotCounted(FailuresInARow(w, rest, cfg, g), before, last);
      }
    }
  }

  lemma NotAcceptedIsNotCounted(count: nat, w: World, a: Action)
    requires !Accepts(w, a)
    ensures Counted(count, w, a) == count
  {
  }
}
