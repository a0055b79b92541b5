/** When the limit on restarts per window holds: exactly when the cooldown alone enforces it. */
module RestartLimit {
  import opened Model
  import opened Wrappers
  import opened History
  import opened Graph
  import opened Reducer
  import opened World
  import opened ProbeCycle
  import opened ServiceSteps
  import opened ServiceRuns
  import opened RestartPacing
  import opened Rounds
  import opened BackupLifecycle

  // ---- Times in an interval ----

  lemma {:induction false} CountAppend(a: seq<nat>, b: seq<nat>, from: nat, to: nat)
    ensures CountIn(a + b, from, to) == CountIn(a, from, to) + CountIn(b, from, to)
  {
    if b == [] {
      assert a + b == a;
    } else {
      CountAppend(a, b[..|b| - 1], from, to);
      assert (a + b)[..|a + b| - 1] == a + b[..|b| - 1];
    }
  }

  lemma {:induction false} CountWhole(times: seq<nat>, from: nat, to: nat)
    requires forall i :: 0 <= i < |times| ==> from <= times[i] <= to
    ensures CountIn(times, from, to) == |times|
  {
    if times == [] {
    } else {
      CountWhole(times[..|times| - 1], from, to);
    }
  }

  // ---- Once the breaker holds nothing back ----

  /** The breaker will let every restart through from now on: it is open and its time is
      over, or it is closed and its limit is beyond the history. */
  ghost predicate Loose(svc: SvcState, e: ServiceEntry, now: nat) {
    && |svc.restartHistory| <= MAX_RESTART_HISTORY
    && match svc.breaker
       case Closed => e.maxRestarts > MAX_RESTART_HISTORY
       case Open(until, _) => until <= now
       case HalfOpen(_, _) => false
  }

  lemma LooseStays(before: SvcState, after: SvcState, e: ServiceEntry, now: nat)
    requires Loose(before, e, now) && WasRestarted(before, after, e, now)
    ensures Loose(after, e, now + e.restartCooldown) && MayTry(after, e, now + e.restartCooldown)
    ensures after.breaker == before.breaker
  {
    CountSinceAtMostLength(after.restartHistory, SaturatingSub(now, e.breakerWindow));
  }

  ghost predicate Within(times: seq<nat>, from: nat, n: nat, gap: nat) {
    |times| == n && forall i :: 0 <= i < n ==> from <= times[i] <= from + (n - 1) * gap
  }

  lemma WithinOneMore(times: seq<nat>, from: nat, n: nat, gap: nat)
    requires n > 0 && Within(times, from + gap, n - 1, gap)
    ensures Within([from] + times, from, n, gap)
  {
    assert n > 1 ==> from + gap + (n - 2) * gap == from + (n - 1) * gap;
    assert (n - 1) * gap >= 0;
  }

  lemma WithinAlone(times: seq<nat>, from: nat, gap: nat)
    requires times == [from]
    ensures Within(times, from, 1, gap)
  {
  }

  /** `n` restarts, one per cooldown. */
  lemma {:induction false} Barrage(w: World, cfg: Config, g: BuiltGraph, e: ServiceEntry, from: nat, n: nat)
    returns (acts: seq<Action>)
    requires cfg.Valid() && Ready(w, cfg, e) && w.m.clock <= from && n > 0
    requires Loose(w.m.view.services[e.id], e, from) && MayTry(w.m.view.services[e.id], e, from)
    ensures Probing(acts) && Ready(Run(w, acts, cfg, g), cfg, e)
    ensures Run(w, acts, cfg, g).m.view.services[e.id].breaker == w.m.view.services[e.id].breaker
    ensures Within(RestartTimes(w, acts, cfg, g, e.id), from, n, e.restartCooldown)
    ensures Run(w, acts, cfg, g).m.clock == from + (n - 1) * e.restartCooldown
    decreases n
  {
    hide Run, RestartTimes, Loose, MayTry, WasRestarted, Model.FindIn, Within;
    var first := OneRestart(w, cfg, g, e, from);
    var w1 := Run(w, first, cfg, g);
    LooseStays(w.m.view.services[e.id], w1.m.view.services[e.id], e, from);
    if n == 1 {
      acts := first;
      WithinAlone(RestartTimes(w, first, cfg, g, e.id), from, e.restartCooldown);
    } else {
      var rest := Barrage(w1, cfg, g, e, from + e.restartCooldown, n - 1);
      acts := first + rest;
      RunAppend(w, first, rest, cfg, g);
      TimesAppend(w, first, rest, cfg, g, e.id);
      WithinOneMore(RestartTimes(w1, rest, cfg, g, e.id), from, n, e.restartCooldown);
      assert from + e.restartCooldown + (n - 2) * e.restartCooldown == from + (n - 1) * e.restartCooldown;
    }
  }

  // ---- Tripping the breaker ----

  ghost predicate Since(history: seq<RestartRecord>, from: nat) {
    forall i :: 0 <= i < |history| ==> history[i].mono >= from
  }

  lemma OneMoreCounts(before: SvcState, after: SvcState, e: ServiceEntry, from: nat, now: nat)
    requires WasRestarted(before, after, e, now) && before.breaker.Closed?
    requires |before.restartHistory| < MAX_RESTART_HISTORY && Since(before.restartHistory, from)
    requires from <= now <= from + e.breakerWindow
    ensures |after.restartHistory| == |before.restartHistory| + 1 && Since(after.restartHistory, from)
    ensures after.breaker ==
            if |after.restartHistory| >= e.maxRestarts then Open(now + e.breakerCooldown, 1) else Closed
    ensures MayTry(after, e, now + e.restartCooldown) || after.breaker.Open?
  {
    CountSinceAtMostLength(after.restartHistory, SaturatingSub(now, e.breakerWindow));
  }

  lemma StillInWindow(i: nat, e: ServiceEntry)
    requires e.maxRestarts * e.restartCooldown <= e.breakerWindow && i <= e.maxRestarts
    ensures i * e.restartCooldown <= e.breakerWindow
  {
    ProductGrows(i, e.maxRestarts, e.restartCooldown);
  }

  /** With a limit within the history and restarts one per cooldown, the breaker trips. */
  lemma {:induction false} Trip(w: World, cfg: Config, g: BuiltGraph, e: ServiceEntry, i: nat)
    returns (acts: seq<Action>)
    requires cfg.Valid() && Ready(w, cfg, e) && w.m.clock <= i * e.restartCooldown
    requires e.maxRestarts * e.restartCooldown <= e.breakerWindow && e.maxRestarts <= MAX_RESTART_HISTORY
    requires i == 0 || i < e.maxRestarts
    requires var svc := w.m.view.services[e.id];
             svc.breaker.Closed? && |svc.restartHistory| == i && MayTry(svc, e, i * e.restartCooldown)
    ensures Probing(acts) && Ready(Run(w, acts, cfg, g), cfg, e)
    ensures var w', svc := Run(w, acts, cfg, g), Run(w, acts, cfg, g).m.view.services[e.id];
            svc.breaker.Open? && svc.lastRestart == Some(w'.m.clock) && |svc.restartHistory| <= MAX_RESTART_HISTORY
    decreases e.maxRestarts - i
  {
    hide Run, RestartTimes, MayTry, WasRestarted, Model.FindIn;
    var now := i * e.restartCooldown;
    StillInWindow(i, e);
    var first := OneRestart(w, cfg, g, e, now);
    var w1 := Run(w, first, cfg, g);
    OneMoreCounts(w.m.view.services[e.id], w1.m.view.services[e.id], e, 0, now);
    WasRestartedAt(w.m.view.services[e.id], w1.m.view.services[e.id], e, now);
    if w1.m.view.services[e.id].breaker.Open? {
      acts := first;
    } else {
      assert now + e.restartCooldown == (i + 1) * e.restartCooldown;
      var rest := Trip(w1, cfg, g, e, i + 1);
      acts := first + rest;
      RunAppend(w, first, rest, cfg, g);
    }
  }

  lemma WasRestartedAt(before: SvcState, after: SvcState, e: ServiceEntry, now: nat)
    requires WasRestarted(before, after, e, now)
    ensures after.lastRestart == Some(now)
  {
  }

  // ---- The exact condition ----

  /** Restarts of a service in a window, in a run of one process from its start. */
  ghost function RestartsWithin(
      disk: BackupPhase, stopped: set<ServiceId>, mono: nat, maintenance: map<ServiceId, nat>, acts: seq<Action>,
      cfg: Config, g: BuiltGraph, e: ServiceEntry, from: nat): nat
  {
    CountIn(
      RestartTimes(Boot(disk, stopped, Covered(disk), mono, maintenance, cfg), acts, cfg, g, e.id),
      from, from + e.breakerWindow)
  }

  /** On every run of a process, no window of the configured length holds more probe-driven
      restarts than the configured limit. */
  ghost predicate LimitHolds(cfg: Config, g: BuiltGraph, e: ServiceEntry)
  {
    forall disk, stopped, mono, maintenance, acts, from: nat :: NoCrash(acts) ==>
      RestartsWithin(disk, stopped, mono, maintenance, acts, cfg, g, e, from) <= e.maxRestarts
  }

  lemma ProductGrows(a: nat, b: nat, gap: nat)
    requires a <= b
    ensures a * gap <= b * gap
  {
    assert b * gap == a * gap + (b - a) * gap && (b - a) * gap >= 0;
  }

  lemma FewerThan(n: nat, limit: nat, gap: nat, window: nat)
    requires n > 0 ==> (n - 1) * gap <= window
    requires window < limit * gap
    ensures n <= limit
  {
    if n > limit {
      ProductGrows(limit, n - 1, gap);
    }
  }

  lemma CooldownEnforcesLimit(
      disk: BackupPhase, stopped: set<ServiceId>, mono: nat, maintenance: map<ServiceId, nat>, acts: seq<Action>,
      cfg: Config, g: BuiltGraph, e: ServiceEntry, from: nat)
    requires cfg.Valid() && NoCrash(acts) && e in cfg.services
    requires e.breakerWindow < e.maxRestarts * e.restartCooldown
    ensures RestartsWithin(disk, stopped, mono, maintenance, acts, cfg, g, e, from) <= e.maxRestarts
  {
    hide Boot, RestartTimes, CountIn, Model.FindIn;
    var b := Boot(disk, stopped, Covered(disk), mono, maintenance, cfg);
    BootTracks(disk, stopped, Covered(disk), mono, maintenance, cfg, e);
    SomeCooldown(e);
    RestartsAreSparse(b, acts, cfg, g, e.id, e, from, from + e.breakerWindow);
    var n := RestartsWithin(disk, stopped, mono, maintenance, acts, cfg, g, e, from);
    FewerThan(n, e.maxRestarts, e.restartCooldown, e.breakerWindow);
  }

  lemma SomeCooldown(e: ServiceEntry)
    requires e.breakerWindow < e.maxRestarts * e.restartCooldown
    ensures e.restartCooldown > 0
  {
  }

  /** Without the condition on the configuration, some run of a process has one restart too
      many: the breaker trips, its time passes, and as an open breaker is not set again it
      lets a restart through per cooldown. */
  lemma LimitCanBeExceeded(cfg: Config, g: BuiltGraph, e: ServiceEntry) returns (acts: seq<Action>, from: nat)
    requires cfg.Valid() && e in cfg.services
    requires e.maxRestarts * e.restartCooldown <= e.breakerWindow
    ensures Probing(acts) && RestartsWithin(Idle, {}, 0, map[], acts, cfg, g, e, from) > e.maxRestarts
  {
    hide Boot, Run, RestartTimes, CountIn, Within, Probing, Model.FindIn;
    var b, n := Fresh(cfg), e.maxRestarts + 1;
    var up := StartsReady(cfg, g, e);
    var w := Run(b, up, cfg, g);
    if e.maxRestarts > MAX_RESTART_HISTORY {
      from := 0;
      acts := Barrage(w, cfg, g, e, from, n);
      InWindow(RestartTimes(w, acts, cfg, g, e.id), from, e);
    } else {
      var trip := Trip(w, cfg, g, e, 0);
      var w1 := Run(w, trip, cfg, g);
      var svc := w1.m.view.services[e.id];
      from := Max(svc.breaker.until, w1.m.clock + e.restartCooldown);
      var more := Barrage(w1, cfg, g, e, from, n);
      acts := trip + more;
      ProbingAppend(trip, more);
      TimesAppend(w, trip, more, cfg, g, e.id);
      CountAppend(
        RestartTimes(w, trip, cfg, g, e.id), RestartTimes(w1, more, cfg, g, e.id), from, from + e.breakerWindow);
      InWindow(RestartTimes(w1, more, cfg, g, e.id), from, e);
    }
    TimesAppend(b, up, acts, cfg, g, e.id);
    assert [] + RestartTimes(w, acts, cfg, g, e.id) == RestartTimes(w, acts, cfg, g, e.id);
    ProbingAppend(up, acts);
    acts := up + acts;
  }

  lemma InWindow(times: seq<nat>, from: nat, e: ServiceEntry)
    requires Within(times, from, e.maxRestarts + 1, e.restartCooldown)
    requires e.maxRestarts * e.restartCooldown <= e.breakerWindow
    ensures CountIn(times, from, from + e.breakerWindow) == e.maxRestarts + 1
  {
    CountWhole(times, from, from + e.breakerWindow);
  }

  /** The limit on restarts per window holds on every run if and only if the configured
      cooldown enforces it by itself; the breaker enforces it nowhere else. */
  lemma LimitHoldsExactly(cfg: Config, g: BuiltGraph, e: ServiceEntry)
    requires cfg.Valid() && e in cfg.services
    ensures LimitHolds(cfg, g, e) <==> e.breakerWindow < e.maxRestarts * e.restartCooldown
  {
    hide RestartsWithin;
    if e.breakerWindow < e.maxRestarts * e.restartCooldown {
      forall disk, stopped, mono, maintenance, acts, from: nat | NoCrash(acts)
        ensures RestartsWithin(disk, stopped, mono, maintenance, acts, cfg, g, e, from) <= e.maxRestarts
      {
        CooldownEnforcesLimit(disk, stopped, mono, maintenance, acts, cfg, g, e, from);
      }
    } else {
      var acts, from := LimitCanBeExceeded(cfg, g, e);
    }
  }

  // ---- A limit beyond the history ----

  lemma {:induction false} ProbingClearsNothing(
      w: World, acts: seq<Action>, cfg: Config, g: BuiltGraph, id: ServiceId)
    requires Probing(acts)
    ensures NoClears(w, acts, cfg, g, id)
  {
    hide Step;
    if acts == [] {
    } else {
      ProbingClearsNothing(w, acts[..|acts| - 1], cfg, g, id);
      assert acts[|acts| - 1] in acts;
    }
  }

  /** While nothing is cleared, the log has one record per restart. */
  lemma {:induction false} LogIsTimes(
      w: World, acts: seq<Action>, cfg: Config, g: BuiltGraph, id: ServiceId, e: ServiceEntry)
    requires cfg.Valid() && NoCrash(acts) && Tracks(w, cfg, id, e) && NoClears(w, acts, cfg, g, id)
    ensures Tracks(Run(w, acts, cfg, g), cfg, id, e)
    ensures |RestartLog(w, acts, cfg, g, id)| == |RestartTimes(w, acts, cfg, g, id)|
  {
    hide Step, Emitted, Admits, Moved, Justified, Model.FindIn, RestartsOf;
    if acts == [] {
    } else {
      var rest := acts[..|acts| - 1];
      LogIsTimes(w, rest, cfg, g, id, e);
      var _ := ServiceStep(Run(w, rest, cfg, g), acts[|acts| - 1], cfg, g, id, e);
    }
  }

  /** A limit above 20 never trips the breaker, though the restarts in the window reach it:
      on a run from a process start, one restart per cooldown. */
  lemma LimitBeyondHistoryNeverTrips(cfg: Config, g: BuiltGraph, e: ServiceEntry) returns (acts: seq<Action>)
    requires cfg.Valid() && e in cfg.services && e.maxRestarts > MAX_RESTART_HISTORY
    requires (e.maxRestarts - 1) * e.restartCooldown <= e.breakerWindow
    ensures NoCrash(acts)
    ensures var b, w := Fresh(cfg), Run(Fresh(cfg), acts, cfg, g);
            && CountSince(RestartLog(b, acts, cfg, g, e.id), SaturatingSub(w.m.clock, e.breakerWindow)) == e.maxRestarts
            && e.id in w.m.view.services && w.m.view.services[e.id].breaker == Closed
  {
    hide Boot, Run, RestartTimes, RestartLog, NoClears, Model.FindIn;
    var b := Fresh(cfg);
    var up := StartsReady(cfg, g, e);
    var w := Run(b, up, cfg, g);
    var more := Barrage(w, cfg, g, e, 0, e.maxRestarts);
    acts := up + more;
    ProbingAppend(up, more);
    RunAppend(b, up, more, cfg, g);
    TimesAppend(b, up, more, cfg, g, e.id);
    BootTracks(Idle, {}, Covered(Idle), 0, map[], cfg, e);
    ProbingClearsNothing(b, acts, cfg, g, e.id);
    LogIsTimes(b, acts, cfg, g, e.id, e);
    CountSinceAtMostLength(RestartLog(b, acts, cfg, g, e.id), 0);
  }
}
