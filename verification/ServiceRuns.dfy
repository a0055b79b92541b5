/** Theorems about the restarts of one service over whole runs of a process. */
module ServiceRuns {
  import opened Model
  import opened Wrappers
  import opened History
  import opened Lease
  import opened Graph
  import opened Reducer
  import opened World
  import opened ProbeCycle
  import opened ServiceSteps
  import opened BackupLifecycle
  import opened BackupRuns
  import Breaker

  /** Whether a step restarts the service because of its probes. */
  ghost predicate Restarting(w: World, a: Action, cfg: Config, g: BuiltGraph, id: ServiceId)
  {
    RestartsOf(Emitted(w, a, cfg, g), id) != []
  }

  // ---- Configured services are tracked ----

  lemma {:induction false} FindsEntry(services: seq<ServiceEntry>, e: ServiceEntry)
    requires Model.UniqueIds(services) && e in services
    ensures FindIn(services, e.id) == Some(e)
  {
    if services[0] == e {
    } else {
      var i :| 0 <= i < |services| && services[i] == e;
      assert services[0].id != services[i].id;
      assert services[1..][i - 1] == e;
      FindsEntry(services[1..], e);
    }
  }

  lemma BootTracks(
      disk: BackupPhase, stopped: set<ServiceId>, promised: set<ServiceId>, mono: nat,
      maintenance: map<ServiceId, nat>, cfg: Config, e: ServiceEntry)
    requires cfg.Valid() && e in cfg.services
    ensures Tracks(Boot(disk, stopped, promised, mono, maintenance, cfg), cfg, e.id, e)
  {
    hide HandleStartupRecovery, Model.FindIn, Boot;
    FindsEntry(cfg.services, e);
    BootState(disk, stopped, promised, mono, maintenance, cfg);
  }

  /** Every configured service is tracked at every point of every run, crashes included. */
  lemma {:induction false} DaemonTracks(
      disk: BackupPhase, stopped: set<ServiceId>, mono: nat, maintenance: map<ServiceId, nat>, acts: seq<Action>,
      cfg: Config, g: BuiltGraph, e: ServiceEntry)
    requires cfg.Valid() && e in cfg.services
    ensures Tracks(Daemon(disk, stopped, mono, maintenance, acts, cfg, g), cfg, e.id, e)
  {
    hide Step, Boot, Tracks;
    if acts == [] {
      BootTracks(disk, stopped, Covered(disk), mono, maintenance, cfg, e);
    } else {
      var rest, last := acts[..|acts| - 1], acts[|acts| - 1];
      DaemonTracks(disk, stopped, mono, maintenance, rest, cfg, g, e);
      TracksStep(Daemon(disk, stopped, mono, maintenance, rest, cfg, g), last, cfg, g, e);
    }
  }

  lemma TracksStep(w: World, a: Action, cfg: Config, g: BuiltGraph, e: ServiceEntry)
    requires cfg.Valid() && e in cfg.services && Tracks(w, cfg, e.id, e)
    ensures Tracks(Step(w, a, cfg, g), cfg, e.id, e)
  {
    hide Step, Boot, Tracks, Emitted, Moved, Justified, RestartsOf, Admits;
    if a.Crash? {
      CrashStep(w, a.ctx, a.maintenance, cfg, g);
      BootTracks(w.m.disk, w.m.stopped, w.promised, a.ctx.mono, a.maintenance, cfg, e);
    } else {
      var _ := ServiceStep(w, a, cfg, g, e.id, e);
    }
  }

  // ---- The bounded history refines an unbounded log ----

  function Recorded(asked: seq<Command>, now: nat, id: ServiceId): seq<RestartRecord> {
    if asked != [] && IsProbeRestart(asked[0], id) then [RestartRecord(now, asked[0].cause.attempt, false)] else []
  }

  /** The unbounded log of probe-driven restarts since the last ClearFlapping. */
  ghost function Logged(
      log: seq<RestartRecord>, w: World, a: Action, cfg: Config, g: BuiltGraph, id: ServiceId): seq<RestartRecord>
  {
    (if Admits(w, a, ClearFlapping, id) then [] else log)
    + Recorded(RestartsOf(Emitted(w, a, cfg, g), id), Step(w, a, cfg, g).m.clock, id)
  }

  ghost function RestartLog(w: World, acts: seq<Action>, cfg: Config, g: BuiltGraph, id: ServiceId): seq<RestartRecord>
  {
    if acts == [] then []
    else
      var rest := acts[..|acts| - 1];
      Logged(RestartLog(w, rest, cfg, g, id), Run(w, rest, cfg, g), acts[|acts| - 1], cfg, g, id)
  }

  /** The history holds the newest records of the log, which is in order of time. */
  ghost predicate Refines(w: World, log: seq<RestartRecord>, id: ServiceId) {
    && id in w.m.view.services
    && w.m.view.services[id].restartHistory == Newest(log, MAX_RESTART_HISTORY)
    && InOrder(log, w.m.clock)
  }

  ghost predicate InOrder(log: seq<RestartRecord>, now: nat) {
    Ascending(log) && forall r :: r in log ==> r.mono <= now
  }

  lemma MoveRefines(svc: SvcState, entry: ServiceEntry, move: SvcMove, log: seq<RestartRecord>, before: nat, now: nat)
    requires svc.restartHistory == Newest(log, MAX_RESTART_HISTORY) && InOrder(log, before) && before <= now
    ensures var record := if Asks(move) then [RestartRecord(now, move.d.attempt, false)] else [];
            var after := (if move == Remedies(ClearFlapping) then [] else log) + record;
            Moved(svc, entry, move, now).restartHistory == Newest(after, MAX_RESTART_HISTORY) && InOrder(after, now)
  {
    hide Breaker.RecordRestart, CountSince;
    EmptyIsNewest();
    if Asks(move) {
      PushedIsNewest(log, MAX_RESTART_HISTORY, RestartRecord(now, move.d.attempt, false));
    } else {
      assert forall s: seq<RestartRecord> :: s + [] == s;
    }
  }

  lemma RefinesStep(
      w: World, log: seq<RestartRecord>, a: Action, cfg: Config, g: BuiltGraph, id: ServiceId, entry: ServiceEntry)
    requires cfg.Valid() && !a.Crash? && Tracks(w, cfg, id, entry) && Refines(w, log, id)
    ensures Tracks(Step(w, a, cfg, g), cfg, id, entry)
    ensures Refines(Step(w, a, cfg, g), Logged(log, w, a, cfg, g, id), id)
  {
    hide Step, Emitted, Newest, Admits, Free, Model.FindIn, Moved, Ascending, RestartsOf;
    var move := ServiceStep(w, a, cfg, g, id, entry);
    MoveRefines(w.m.view.services[id], entry, move, log, w.m.clock, Step(w, a, cfg, g).m.clock);
    assert move == Remedies(ClearFlapping) <==> Admits(w, a, ClearFlapping, id);
  }

  lemma EmptyIsNewest()
    ensures Newest<RestartRecord>([], MAX_RESTART_HISTORY) == []
  {
  }

  lemma {:induction false} HistoryRefinesLog(
      w: World, acts: seq<Action>, cfg: Config, g: BuiltGraph, id: ServiceId, entry: ServiceEntry)
    requires cfg.Valid() && NoCrash(acts)
    requires Tracks(w, cfg, id, entry) && w.m.view.services[id].restartHistory == []
    ensures Tracks(Run(w, acts, cfg, g), cfg, id, entry)
    ensures Refines(Run(w, acts, cfg, g), RestartLog(w, acts, cfg, g, id), id)
  {
    hide Step, Emitted, Logged, Model.FindIn;
    if acts == [] {
      EmptyIsNewest();
    } else {
      var rest := acts[..|acts| - 1];
      HistoryRefinesLog(w, rest, cfg, g, id, entry);
      RefinesStep(Run(w, rest, cfg, g), RestartLog(w, rest, cfg, g, id), acts[|acts| - 1], cfg, g, id, entry);
    }
  }

  /** Counting a window in the bounded history gives the true count, capped at 20. */
  lemma WindowCountIsCapped(
      w: World, acts: seq<Action>, cfg: Config, g: BuiltGraph, id: ServiceId, entry: ServiceEntry, cutoff: nat)
    requires cfg.Valid() && NoCrash(acts)
    requires Tracks(w, cfg, id, entry) && w.m.view.services[id].restartHistory == []
    ensures id in Run(w, acts, cfg, g).m.view.services
    ensures var truth := CountSince(RestartLog(w, acts, cfg, g, id), cutoff);
            CountSince(Run(w, acts, cfg, g).m.view.services[id].restartHistory, cutoff) ==
                if truth <= 20 then truth else 20
  {
    hide Run, RestartLog, CountSince, Newest, Model.FindIn;
    HistoryRefinesLog(w, acts, cfg, g, id, entry);
    BoundedCountIsCapped(RestartLog(w, acts, cfg, g, id), MAX_RESTART_HISTORY, cutoff);
  }

  lemma TripOfMove(svc: SvcState, entry: ServiceEntry, move: SvcMove, now: nat)
    requires Asks(move) && svc.breaker.Closed?
    ensures var after := Moved(svc, entry, move, now);
            after.breaker ==
            if CountSince(after.restartHistory, SaturatingSub(now, entry.breakerWindow)) >= entry.maxRestarts
            then Open(now + entry.breakerCooldown, 1) else Closed
  {
    hide CountSince, Pushed;
  }

  /** A restart trips a closed breaker exactly when the unbounded log has reached the limit
      in the window, if the limit is at most 20; a greater limit is never reached. */
  lemma ClosedTripsExactly(
      w: World, acts: seq<Action>, a: Action, cfg: Config, g: BuiltGraph, id: ServiceId, entry: ServiceEntry)
    requires cfg.Valid() && NoCrash(acts + [a])
    requires Tracks(w, cfg, id, entry) && w.m.view.services[id].restartHistory == []
    requires var w1 := Run(w, acts, cfg, g);
             id in w1.m.view.services && w1.m.view.services[id].breaker.Closed? && Restarting(w1, a, cfg, g, id)
    ensures var w2 := Run(w, acts + [a], cfg, g);
            && id in w2.m.view.services
            && w2.m.view.services[id].breaker ==
               if entry.maxRestarts <= 20
                  && CountSince(
                       RestartLog(w, acts + [a], cfg, g, id), SaturatingSub(w2.m.clock, entry.breakerWindow))
                     >= entry.maxRestarts
               then Open(w2.m.clock + entry.breakerCooldown, 1) else Closed
  {
    hide Step, Emitted, RestartLog, CountSince, Model.FindIn, Moved, Newest, RestartsOf, Free;
    var w1, w2 := Run(w, acts, cfg, g), Run(w, acts + [a], cfg, g);
    assert (acts + [a])[..|acts|] == acts && a in acts + [a];
    assert w2 == Step(w1, a, cfg, g);
    assert NoCrash(acts) by {
      assert forall x :: x in acts ==> x in acts + [a];
    }
    HistoryRefinesLog(w, acts, cfg, g, id, entry);
    var move := ServiceStep(w1, a, cfg, g, id, entry);
    TripOfMove(w1.m.view.services[id], entry, move, w2.m.clock);
    WindowCountIsCapped(w, acts + [a], cfg, g, id, entry, SaturatingSub(w2.m.clock, entry.breakerWindow));
  }

  // ---- An open breaker stops restarts ----

  /** The instants at which a service was restarted because of its probes. */
  ghost function RestartTimes(w: World, acts: seq<Action>, cfg: Config, g: BuiltGraph, id: ServiceId): seq<nat>
  {
    if acts == [] then []
    else
      var rest := acts[..|acts| - 1];
      RestartTimes(w, rest, cfg, g, id)
      + if Restarting(Run(w, rest, cfg, g), acts[|acts| - 1], cfg, g, id) then [Run(w, acts, cfg, g).m.clock] else []
  }

  /** No admitted request closes the breaker of the service. */
  ghost predicate NoClears(w: World, acts: seq<Action>, cfg: Config, g: BuiltGraph, id: ServiceId)
  {
    acts != [] ==>
      var before, last := Run(w, acts[..|acts| - 1], cfg, g), acts[|acts| - 1];
      && NoClears(w, acts[..|acts| - 1], cfg, g, id)
      && !Admits(before, last, ClearBreaker, id) && !Admits(before, last, ClearFlapping, id)
  }

  lemma OpenMove(svc: SvcState, entry: ServiceEntry, move: SvcMove, now: nat)
    requires svc.breaker.Open? && now < svc.breaker.until && Justified(svc, entry, move, now)
    requires move != Remedies(ClearBreaker) && move != Remedies(ClearFlapping)
    ensures Moved(svc, entry, move, now).breaker == svc.breaker && !Asks(move)
  {
  }

  lemma OpenStep(w: World, a: Action, cfg: Config, g: BuiltGraph, id: ServiceId, entry: ServiceEntry)
    requires cfg.Valid() && !a.Crash? && Tracks(w, cfg, id, entry)
    requires var b := w.m.view.services[id].breaker;
             b.Open? && Step(w, a, cfg, g).m.clock < b.until
    requires !Admits(w, a, ClearBreaker, id) && !Admits(w, a, ClearFlapping, id)
    ensures Tracks(Step(w, a, cfg, g), cfg, id, entry)
    ensures Step(w, a, cfg, g).m.view.services[id].breaker == w.m.view.services[id].breaker
    ensures !Restarting(w, a, cfg, g, id)
  {
    hide Step, Emitted, Model.FindIn, Moved, RestartsOf, Free, Admits, Justified;
    var move := ServiceStep(w, a, cfg, g, id, entry);
    assert move == Remedies(ClearBreaker) <==> Admits(w, a, ClearBreaker, id);
    assert move == Remedies(ClearFlapping) <==> Admits(w, a, ClearFlapping, id);
    OpenMove(w.m.view.services[id], entry, move, Step(w, a, cfg, g).m.clock);
  }

  lemma ClockStep(w: World, a: Action, cfg: Config, g: BuiltGraph)
    requires !a.Crash?
    ensures Step(w, a, cfg, g).m.clock >= w.m.clock
  {
    hide Reduce;
  }

  lemma {:induction false} OpenHolds(
      w: World, acts: seq<Action>, cfg: Config, g: BuiltGraph, id: ServiceId, entry: ServiceEntry)
    requires cfg.Valid() && NoCrash(acts) && Tracks(w, cfg, id, entry) && NoClears(w, acts, cfg, g, id)
    requires var b := w.m.view.services[id].breaker;
             b.Open? && Run(w, acts, cfg, g).m.clock < b.until
    ensures Tracks(Run(w, acts, cfg, g), cfg, id, entry)
    ensures Run(w, acts, cfg, g).m.view.services[id].breaker == w.m.view.services[id].breaker
    ensures RestartTimes(w, acts, cfg, g, id) == []
  {
    hide Step, Model.FindIn, Admits, Restarting;
    if acts == [] {
    } else {
      var rest := acts[..|acts| - 1];
      ClockStep(Run(w, rest, cfg, g), acts[|acts| - 1], cfg, g);
      OpenHolds(w, rest, cfg, g, id, entry);
      OpenStep(Run(w, rest, cfg, g), acts[|acts| - 1], cfg, g, id, entry);
    }
  }

  lemma TrippingMove(svc: SvcState, entry: ServiceEntry, move: SvcMove, now: nat)
    requires !svc.breaker.Open? && Moved(svc, entry, move, now).breaker.Open?
    ensures Moved(svc, entry, move, now).breaker.until == now + entry.breakerCooldown
  {
    hide CountSince, Pushed;
  }

  /** Once a breaker trips, nothing but a request to clear it brings a probe-driven restart
      of the service before the breaker's cooldown is over. */
  lemma TripStopsRestarts(
      w: World, a: Action, acts: seq<Action>, cfg: Config, g: BuiltGraph, id: ServiceId, entry: ServiceEntry)
    requires cfg.Valid() && !a.Crash? && NoCrash(acts) && Tracks(w, cfg, id, entry)
    requires id in Step(w, a, cfg, g).m.view.services
    requires !w.m.view.services[id].breaker.Open? && Step(w, a, cfg, g).m.view.services[id].breaker.Open?
    requires var tripped := Step(w, a, cfg, g);
             && NoClears(tripped, acts, cfg, g, id)
             && Run(tripped, acts, cfg, g).m.clock < tripped.m.clock + entry.breakerCooldown
    ensures RestartTimes(Step(w, a, cfg, g), acts, cfg, g, id) == []
  {
    hide Step, Run, Model.FindIn, Moved, Emitted, RestartsOf, Free, Admits, NoClears, RestartTimes;
    var move := ServiceStep(w, a, cfg, g, id, entry);
    TrippingMove(w.m.view.services[id], entry, move, Step(w, a, cfg, g).m.clock);
    OpenHolds(Step(w, a, cfg, g), acts, cfg, g, id, entry);
  }

  // ---- Trip counts ----

  ghost function BreakerOf(w: World, id: ServiceId): BreakerState {
    if id in w.m.view.services then w.m.view.services[id].breaker else Closed
  }

  /** The moves from HalfOpen to Open since the breaker was last Closed. */
  ghost function Reopenings(w: World, acts: seq<Action>, cfg: Config, g: BuiltGraph, id: ServiceId): nat
  {
    if acts == [] then 0
    else
      var rest := acts[..|acts| - 1];
      var before, after := BreakerOf(Run(w, rest, cfg, g), id), BreakerOf(Run(w, acts, cfg, g), id);
      if after.Closed? then 0
      else Reopenings(w, rest, cfg, g, id) + if before.HalfOpen? && after.Open? then 1 else 0
  }

  ghost predicate CountsTrips(b: BreakerState, reopenings: nat) {
    match b
    case Closed => reopenings == 0
    case Open(_, tripCount) => tripCount == 1 + reopenings
    case HalfOpen(_, previous) => previous == 1 + reopenings
  }

  lemma CountingMove(svc: SvcState, entry: ServiceEntry, move: SvcMove, now: nat, reopenings: nat)
    requires CountsTrips(svc.breaker, reopenings)
    ensures var after := Moved(svc, entry, move, now).breaker;
            var more := if svc.breaker.HalfOpen? && after.Open? then 1 else 0;
            CountsTrips(after, if after.Closed? then 0 else reopenings + more)
  {
    hide CountSince, Pushed;
  }

  /** The trip count is one more than the times the breaker reopened since it was closed. */
  lemma {:induction false} TripCountIsExact(
      w: World, acts: seq<Action>, cfg: Config, g: BuiltGraph, id: ServiceId, entry: ServiceEntry)
    requires cfg.Valid() && NoCrash(acts)
    requires Tracks(w, cfg, id, entry) && w.m.view.services[id].breaker.Closed?
    ensures Tracks(Run(w, acts, cfg, g), cfg, id, entry)
    ensures CountsTrips(Run(w, acts, cfg, g).m.view.services[id].breaker, Reopenings(w, acts, cfg, g, id))
  {
    hide Step, Model.FindIn, CountsTrips, Emitted, RestartsOf, Free, Admits, Moved;
    if acts == [] {
      assert CountsTrips(Closed, 0) by {
        ClosedCounts();
      }
    } else {
      var rest := acts[..|acts| - 1];
      TripCountIsExact(w, rest, cfg, g, id, entry);
      var w1 := Run(w, rest, cfg, g);
      var move := ServiceStep(w1, acts[|acts| - 1], cfg, g, id, entry);
      CountingMove(w1.m.view.services[id], entry, move, Run(w, acts, cfg, g).m.clock, Reopenings(w, rest, cfg, g, id));
    }
  }

  lemma ClosedCounts()
    ensures CountsTrips(Closed, 0)
  {
  }
}
