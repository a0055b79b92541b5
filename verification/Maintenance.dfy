/** What maintenance does to a service over a run. */
module Maintenance {
  import opened Model
  import opened Recovery
  import opened Wrappers
  import opened History
  import opened Graph
  import opened Reducer
  import opened World
  import opened ProbeCycle
  import opened ServiceSteps
  import opened ServiceRuns
  import opened BackupLifecycle

  /** No request that marks the service for maintenance or ends it is admitted. */
  ghost predicate LeftAlone(w: World, acts: seq<Action>, cfg: Config, g: BuiltGraph, id: ServiceId)
  {
    acts != [] ==>
      var before, last := Run(w, acts[..|acts| - 1], cfg, g), acts[|acts| - 1];
      && LeftAlone(w, acts[..|acts| - 1], cfg, g, id)
      && !Admits(before, last, MarkMaintenance, id) && !Admits(before, last, ClearMaintenance, id)
  }

  lemma OnlyRequestsMove(svc: SvcState, entry: ServiceEntry, move: SvcMove, now: nat)
    requires Justified(svc, entry, move, now)
    ensures move != Remedies(MarkMaintenance) && move != Remedies(ClearMaintenance) ==>
              Moved(svc, entry, move, now).maintenance == svc.maintenance
    ensures move == Remedies(MarkMaintenance) ==> Moved(svc, entry, move, now).maintenance == Some(now + 3600)
    ensures move == Remedies(ClearMaintenance) ==> Moved(svc, entry, move, now).maintenance == None
    ensures Asks(move) && svc.maintenance.Some? ==> now >= svc.maintenance.value
  {
    hide Pushed;
  }

  /** The step of a request: maintenance lasts an hour from it, or is over. */
  lemma MaintenanceStep(w: World, a: Action, cfg: Config, g: BuiltGraph, id: ServiceId, entry: ServiceEntry)
    requires cfg.Valid() && !a.Crash? && Tracks(w, cfg, id, entry)
    ensures var w' := Step(w, a, cfg, g);
            && Tracks(w', cfg, id, entry) && w'.m.clock >= w.m.clock
            && w'.m.view.services[id].maintenance ==
               (if Admits(w, a, MarkMaintenance, id) then Some(w'.m.clock + 3600)
                else if Admits(w, a, ClearMaintenance, id) then None
                else w.m.view.services[id].maintenance)
            && (Restarting(w, a, cfg, g, id) && w.m.view.services[id].maintenance.Some? ==>
                w'.m.clock >= w.m.view.services[id].maintenance.value)
  {
    hide Step, Emitted, Model.FindIn, Moved, RestartsOf, Admits, Justified;
    var move := ServiceStep(w, a, cfg, g, id, entry);
    assert move == Remedies(MarkMaintenance) <==> Admits(w, a, MarkMaintenance, id);
    assert move == Remedies(ClearMaintenance) <==> Admits(w, a, ClearMaintenance, id);
    OnlyRequestsMove(w.m.view.services[id], entry, move, Step(w, a, cfg, g).m.clock);
  }

  lemma {:induction false} MaintenanceStays(
      w: World, acts: seq<Action>, until: nat, cfg: Config, g: BuiltGraph, id: ServiceId, entry: ServiceEntry)
    requires cfg.Valid() && NoCrash(acts) && Tracks(w, cfg, id, entry) && LeftAlone(w, acts, cfg, g, id)
    requires w.m.view.services[id].maintenance == Some(until)
    ensures var w' := Run(w, acts, cfg, g);
            Tracks(w', cfg, id, entry) && w'.m.view.services[id].maintenance == Some(until)
    ensures forall t :: t in RestartTimes(w, acts, cfg, g, id) ==> t >= until
  {
    hide Step, Restarting, Admits, Model.FindIn;
    if acts == [] {
    } else {
      var rest := acts[..|acts| - 1];
      MaintenanceStays(w, rest, until, cfg, g, id, entry);
      MaintenanceStep(Run(w, rest, cfg, g), acts[|acts| - 1], cfg, g, id, entry);
    }
  }

  /** After an admitted request for maintenance no probe restarts the service for an hour,
      unless a later request marks it again or ends its maintenance. */
  lemma MaintenanceLastsAnHour(
      w: World, mark: Action, acts: seq<Action>, cfg: Config, g: BuiltGraph, id: ServiceId, entry: ServiceEntry)
    requires cfg.Valid() && NoCrash(acts) && Tracks(w, cfg, id, entry)
    requires Admits(w, mark, MarkMaintenance, id) && LeftAlone(Step(w, mark, cfg, g), acts, cfg, g, id)
    ensures var marked := Step(w, mark, cfg, g);
            && (forall t :: t in RestartTimes(marked, acts, cfg, g, id) ==> t >= marked.m.clock + 3600)
            && id in Run(marked, acts, cfg, g).m.view.services
            && Run(marked, acts, cfg, g).m.view.services[id].maintenance == Some(marked.m.clock + 3600)
  {
    hide Step, Run, RestartTimes, LeftAlone, Model.FindIn;
    MaintenanceStep(w, mark, cfg, g, id, entry);
    var marked := Step(w, mark, cfg, g);
    MaintenanceStays(marked, acts, marked.m.clock + 3600, cfg, g, id, entry);
  }

  /** Maintenance holds a failing service back exactly until its instant: before, nothing
      about the service moves; from then on the outcome of a cycle is as without it. */
  lemma MaintenanceEnds(
      v: View, results: seq<ProbeResult>, cfg: Config, g: BuiltGraph, ctx: Ctx, id: ServiceId, until: nat)
    requires cfg.Valid() && id in v.services && v.services[id].maintenance == Some(until)
    requires cfg.FindService(id).Some? && Verdict(results, id) == Some(false)
    ensures var after := HandleProbes(v, results, cfg, g, ctx).view.services;
            ctx.mono < until ==> id in after && after[id] == v.services[id]
    ensures ctx.mono >= until ==>
              var free := v.(services := v.services[id := v.services[id].(maintenance := None)]);
              CaseOf(v, results, cfg, g, ctx.mono, id) == CaseOf(free, results, cfg, g, ctx.mono, id)
  {
    hide HandleProbes, Behind, DockerBlamed, Model.FindIn;
    CycleIsExact(v, results, cfg, g, ctx, id);
  }
}
