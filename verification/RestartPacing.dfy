/** How often a service can be restarted because of its probes. */
module RestartPacing {
  import opened Model
  import opened Wrappers
  import opened History
  import opened Lease
  import opened Graph
  import opened World
  import opened ProbeCycle
  import opened ServiceSteps
  import opened ServiceRuns
  import opened BackupLifecycle

  // ---- The cooldown keeps restarts apart ----

  ghost predicate Spaced(times: seq<nat>, gap: nat) {
    forall i :: 0 <= i < |times| - 1 ==> times[i] + gap <= times[i + 1]
  }

  /** The restart times are spaced, and the service remembers the last one. */
  ghost predicate Paced(w: World, times: seq<nat>, id: ServiceId, gap: nat) {
    && id in w.m.view.services
    && Spaced(times, gap)
    && (times != [] ==>
        && w.m.view.services[id].lastRestart == Some(times[|times| - 1])
        && times[|times| - 1] <= w.m.clock)
  }

  lemma PacingMove(svc: SvcState, entry: ServiceEntry, move: SvcMove, now: nat)
    requires Justified(svc, entry, move, now)
    ensures Moved(svc, entry, move, now).lastRestart == if Asks(move) then Some(now) else svc.lastRestart
    ensures Asks(move) && svc.lastRestart.Some? && svc.lastRestart.value <= now ==>
            svc.lastRestart.value + entry.restartCooldown <= now
  {
    hide CountSince, Pushed;
  }

  lemma {:induction false} RestartsArePaced(
      w: World, acts: seq<Action>, cfg: Config, g: BuiltGraph, id: ServiceId, entry: ServiceEntry)
    requires cfg.Valid() && NoCrash(acts) && Tracks(w, cfg, id, entry)
    ensures Tracks(Run(w, acts, cfg, g), cfg, id, entry)
    ensures Paced(Run(w, acts, cfg, g), RestartTimes(w, acts, cfg, g, id), id, entry.restartCooldown)
  {
    hide Step, Model.FindIn, Emitted, RestartsOf, Free, Admits, Moved, Justified;
    if acts == [] {
    } else {
      var rest := acts[..|acts| - 1];
      RestartsArePaced(w, rest, cfg, g, id, entry);
      var w1, w2 := Run(w, rest, cfg, g), Run(w, acts, cfg, g);
      var move := ServiceStep(w1, acts[|acts| - 1], cfg, g, id, entry);
      PacingMove(w1.m.view.services[id], entry, move, w2.m.clock);
    }
  }

  /** The instants in the interval [from, to]. */
  function CountIn(times: seq<nat>, from: nat, to: nat): nat {
    if times == [] then 0
    else CountIn(times[..|times| - 1], from, to) + if from <= times[|times| - 1] <= to then 1 else 0
  }

  lemma {:induction false} SpacedAscends(times: seq<nat>, gap: nat, i: nat)
    requires Spaced(times, gap) && i < |times| - 1
    ensures times[i] + gap <= times[|times| - 1]
  {
    if i == |times| - 2 {
    } else {
      SpacedAscends(times[..|times| - 1], gap, i);
    }
  }

  lemma {:induction false} CountUpTo(times: seq<nat>, from: nat, to: nat, upTo: nat)
    requires forall i :: 0 <= i < |times| ==> times[i] <= upTo
    ensures CountIn(times, from, to) == CountIn(times, from, if to <= upTo then to else upTo)
  {
    if times == [] {
    } else {
      CountUpTo(times[..|times| - 1], from, to, upTo);
    }
  }

  lemma {:induction false} NoneBefore(times: seq<nat>, from: nat, to: nat)
    requires forall i :: 0 <= i < |times| ==> times[i] < from
    ensures CountIn(times, from, to) == 0
  {
    if times == [] {
    } else {
      NoneBefore(times[..|times| - 1], from, to);
    }
  }

  lemma OneMoreFits(n: nat, gap: nat, length: nat)
    requires gap <= length && (n > 0 ==> (n - 1) * gap <= length - gap)
    ensures n * gap <= length
  {
    if n > 0 {
      assert n * gap == (n - 1) * gap + gap;
    }
  }

  lemma {:induction false} SpacedIsSparse(times: seq<nat>, gap: nat, from: nat, to: nat)
    requires Spaced(times, gap) && gap > 0 && from <= to
    ensures CountIn(times, from, to) > 0 ==> (CountIn(times, from, to) - 1) * gap <= to - from
  {
    if times == [] {
    } else {
      var rest, last := times[..|times| - 1], times[|times| - 1];
      if from <= last <= to {
        forall i | 0 <= i < |rest|
          ensures rest[i] + gap <= last
        {
          SpacedAscends(times, gap, i);
        }
        if last < from + gap {
          NoneBefore(rest, from, to);
        } else {
          CountUpTo(rest, from, to, last - gap);
          SpacedIsSparse(rest, gap, from, last - gap);
          OneMoreFits(CountIn(rest, from, last - gap), gap, last - from);
        }
      } else {
        SpacedIsSparse(rest, gap, from, to);
      }
    }
  }

  /** In any interval of a run of length L the service is restarted at most
      L / cooldown + 1 times, here without the division. */
  lemma RestartsAreSparse(
      w: World, acts: seq<Action>, cfg: Config, g: BuiltGraph, id: ServiceId, entry: ServiceEntry, from: nat, to: nat)
    requires cfg.Valid() && NoCrash(acts) && Tracks(w, cfg, id, entry)
    requires entry.restartCooldown > 0 && from <= to
    ensures var n := CountIn(RestartTimes(w, acts, cfg, g, id), from, to);
            n > 0 ==> (n - 1) * entry.restartCooldown <= to - from
  {
    hide Run, RestartTimes, CountIn;
    RestartsArePaced(w, acts, cfg, g, id, entry);
    SpacedIsSparse(RestartTimes(w, acts, cfg, g, id), entry.restartCooldown, from, to);
  }

  // ---- The severity bounds attempts ----

  /** The restarts since the service last had another status than Recovering. */
  ghost function Attempts(w: World, acts: seq<Action>, cfg: Config, g: BuiltGraph, id: ServiceId): nat
  {
    if acts == [] then 0
    else
      var rest, after := acts[..|acts| - 1], Run(w, acts, cfg, g).m.view.services;
      if id !in after || !after[id].status.Recovering? then 0
      else
        var again := Restarting(Run(w, rest, cfg, g), acts[|acts| - 1], cfg, g, id);
        Attempts(w, rest, cfg, g, id) + if again then 1 else 0
  }

  lemma AttemptMove(svc: SvcState, entry: ServiceEntry, move: SvcMove, now: nat)
    requires Justified(svc, entry, move, now)
    ensures var after := Moved(svc, entry, move, now).status;
            if Asks(move) then
              && after == Recovering(Tries(svc.status) + 1, now)
              && Tries(svc.status) < TriesAllowed(entry.severity)
            else after.Recovering? ==> after == svc.status
  {
    hide CountSince, Pushed;
  }

  ghost predicate WithinAttempts(svc: SvcState, entry: ServiceEntry, attempts: nat) {
    && attempts <= TriesAllowed(entry.severity)
    && (attempts > 0 ==> svc.status.Recovering? && attempts <= svc.status.attempt)
  }

  lemma {:induction false} AttemptsAreBounded(
      w: World, acts: seq<Action>, cfg: Config, g: BuiltGraph, id: ServiceId, entry: ServiceEntry)
    requires cfg.Valid() && NoCrash(acts) && Tracks(w, cfg, id, entry)
    ensures Tracks(Run(w, acts, cfg, g), cfg, id, entry)
    ensures WithinAttempts(Run(w, acts, cfg, g).m.view.services[id], entry, Attempts(w, acts, cfg, g, id))
  {
    hide Step, Model.FindIn, Emitted, RestartsOf, Free, Admits, Moved, Justified;
    if acts == [] {
    } else {
      var rest := acts[..|acts| - 1];
      AttemptsAreBounded(w, rest, cfg, g, id, entry);
      var w1, w2 := Run(w, rest, cfg, g), Run(w, acts, cfg, g);
      var move := ServiceStep(w1, acts[|acts| - 1], cfg, g, id, entry);
      AttemptMove(w1.m.view.services[id], entry, move, w2.m.clock);
    }
  }
}
