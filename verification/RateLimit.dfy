/** When the rate limits hold: exactly as long as the bounded log covers the window. */
module RateLimit {
  import opened Model
  import opened Wrappers
  import opened History
  import opened Graph
  import opened BackupPolicy
  import opened Reducer
  import opened Runtime
  import opened World
  import opened Remediation
  import opened BackupConsistency
  import opened BackupLifecycle
  import opened Rounds

  // ---- Equal records ----

  function Copies(r: RemediationRecord, n: nat): seq<RemediationRecord> {
    seq(n, i => r)
  }

  lemma CopiesOneMore(r: RemediationRecord, n: nat)
    ensures Copies(r, n + 1) == Copies(r, n) + [r]
  {
  }

  lemma {:induction false} CountCopies(
      r: RemediationRecord, n: nat, cutoff: nat, a: RemediationAction, target: Option<ServiceId>)
    requires r.mono >= cutoff
    ensures CountRequests(Copies(r, n), cutoff, a, target) == if r.action == a && r.target == target then n else 0
  {
    if n == 0 {
    } else {
      CountCopies(r, n - 1, cutoff, a, target);
      CopiesOneMore(r, n - 1);
      assert (Copies(r, n - 1) + [r])[..n - 1] == Copies(r, n - 1);
    }
  }

  lemma {:induction false} CountAllAtMostLength(log: seq<RemediationRecord>, cutoff: nat)
    ensures CountAll(log, cutoff) <= |log|
  {
    if log == [] {
    } else {
      CountAllAtMostLength(log[..|log| - 1], cutoff);
    }
  }

  // ---- A log one record too long ----

  function Request(a: RemediationAction, target: Option<ServiceId>): RemediationRecord {
    RemediationRecord(0, a, target, "cli", OutcomeOf(None, a))
  }

  const UNLOCK := Request(UnlockRestic, None)

  /** As many requests as the limit allows, and unlock requests up to one record more than
      the bounded log holds. */
  function Flood(a: RemediationAction, target: Option<ServiceId>): seq<RemediationRecord>
    requires IsLimited(a)
  {
    Copies(Request(a, target), Allowed(a)) + Copies(UNLOCK, 51 - Allowed(a))
  }

  /** The whole log has reached the limit, the bounded one has forgotten the first request. */
  lemma FloodIsMiscounted(a: RemediationAction, target: Option<ServiceId>)
    requires IsLimited(a)
    ensures var log := Flood(a, target);
            && Sorted(log) && CountAll(log, Cutoff(a, 0)) <= 51 == |log|
            && OverLimit(log, a, target, 0) && !OverLimit(Newest(log, 50), a, target, 0)
  {
    hide CountRequests, CountAll, Copies;
    var n, rest := Allowed(a), 51 - Allowed(a);
    var log, r := Flood(a, target), Request(a, target);
    CountAllAtMostLength(log, Cutoff(a, 0));
    CountsAppend(Copies(r, n), Copies(UNLOCK, rest), 0, a, target);
    CountCopies(r, n, 0, a, target);
    CountCopies(UNLOCK, rest, 0, a, target);
    FloodWithoutFirst(a, target);
    CountsAppend(Copies(r, n - 1), Copies(UNLOCK, rest), 0, a, target);
    CountCopies(r, n - 1, 0, a, target);
  }

  lemma FloodWithoutFirst(a: RemediationAction, target: Option<ServiceId>)
    requires IsLimited(a)
    ensures var n, log := Allowed(a), Flood(a, target);
            && Sorted(log) && |log| == 51
            && Newest(log, 50) ==
               Copies(Request(a, target), n - 1) + Copies(UNLOCK, 51 - n)
  {
  }

  // ---- The exact condition, on logs ----

  /** On every ordered log with at most `k` records of any kind in the window, the bounded
      log gives the verdict of the whole one. */
  ghost predicate VerdictsAgree(a: RemediationAction, k: nat) {
    forall log, target, now :: Sorted(log) && CountAll(log, Cutoff(a, now)) <= k ==>
      OverLimit(Newest(log, 50), a, target, now) == OverLimit(log, a, target, now)
  }

  /** The bounded log limits an action as the whole log would if and only if no more than 50
      records of any kind fall in the window. */
  lemma VerdictsAgreeExactly(a: RemediationAction, k: nat)
    requires IsLimited(a)
    ensures VerdictsAgree(a, k) <==> k <= 50
  {
    hide OverLimit, CountAll, Newest, Sorted, Flood;
    if k <= 50 {
      forall log, target, now | Sorted(log) && CountAll(log, Cutoff(a, now)) <= k
        ensures OverLimit(Newest(log, 50), a, target, now) == OverLimit(log, a, target, now)
      {
        BoundedVerdictIsTrue(log, a, target, now);
      }
    } else {
      FloodIsMiscounted(a, None);
    }
  }

  // ---- Requests, one after the other ----

  function Send(a: RemediationAction, target: Option<ServiceId>): Action {
    Deliver(HttpCommand(Remediate(a, target, "cli", "")), Ctx(0, NOON))
  }

  /** The loop serves requests at instant zero. */
  ghost predicate Serving(w: World) {
    w.queue == [] && w.observed && !w.m.view.shuttingDown && w.m.clock == 0
  }

  lemma BackupIsPlain(v: View, cfg: Config, ctx: Ctx)
    ensures var out := HandleTick(v, [TaskKind.Backup], cfg, ctx);
            Plain(out.cmds) && out.view.shuttingDown == v.shuttingDown
  {
    hide StopCommands;
    var due := [TaskKind.Backup];
    assert due[..0] == [];
    StopsStartNothing(StopEntries(cfg.services), ctx.mono);
  }

  lemma SendStep(w: World, a: RemediationAction, target: Option<ServiceId>, cfg: Config, g: BuiltGraph)
    requires Serving(w)
    ensures var w' := Step(w, Send(a, target), cfg, g);
            Plain(w'.queue) && w'.observed && !w'.m.view.shuttingDown && w'.m.clock == 0
  {
    hide HandleProbes, HandleTick, HandleEffect, Observe, OverLimit, Pushed, Model.FindIn;
    BackupIsPlain(w.m.view, cfg, At(w.m.clock, Ctx(0, NOON)));
  }

  lemma {:induction false} LogAppend(w: World, a: seq<Action>, b: seq<Action>, cfg: Config, g: BuiltGraph)
    ensures RequestLog(w, a + b, cfg, g) == RequestLog(w, a, cfg, g) + RequestLog(Run(w, a, cfg, g), b, cfg, g)
  {
    hide Step, NewRecords;
    if b == [] {
      assert a + b == a;
    } else {
      var rest := b[..|b| - 1];
      LogAppend(w, a, rest, cfg, g);
      assert (a + b)[..|a + b| - 1] == a + rest;
      RunAppend(w, a, rest, cfg, g);
    }
  }

  lemma LogOfOne(w: World, a: Action, cfg: Config, g: BuiltGraph)
    ensures RequestLog(w, [a], cfg, g) == NewRecords(w, a, cfg)
  {
    hide Step, NewRecords;
    assert [a][..0] == [];
    assert Run(w, [], cfg, g) == w && RequestLog(w, [], cfg, g) == [];
  }

  lemma {:induction false} ExecutionRequestsNothing(w: World, r: Reading, n: nat, cfg: Config, g: BuiltGraph)
    ensures RequestLog(w, Execution(r, n), cfg, g) == []
  {
    hide Step, Run;
    if n == 0 {
    } else {
      ExecutionRequestsNothing(w, r, n - 1, cfg, g);
      assert Execution(r, n)[..n - 1] == Execution(r, n - 1);
    }
  }

  /** One request, and the execution of what it emits. */
  lemma Served(w: World, a: RemediationAction, target: Option<ServiceId>, cfg: Config, g: BuiltGraph)
    returns (acts: seq<Action>)
    requires Serving(w) && Objection(w.m.view.log, a, target, cfg, 0) == None
    ensures NoCrash(acts) && Serving(Run(w, acts, cfg, g))
    ensures RequestLog(w, acts, cfg, g) == [Request(a, target)]
  {
    hide Step, Run, RequestLog, Objection;
    var send := Send(a, target);
    SendStep(w, a, target, cfg, g);
    var w1 := Step(w, send, cfg, g);
    ExecuteSome(w1, QUIETLY, |w1.queue|, cfg, g);
    ExecutionRequestsNothing(w1, QUIETLY, |w1.queue|, cfg, g);
    var rest := Execution(QUIETLY, |w1.queue|);
    acts := [send] + rest;
    RunOne(w, send, cfg, g);
    RunAppend(w, [send], rest, cfg, g);
    LogOfOne(w, send, cfg, g);
    LogAppend(w, [send], rest, cfg, g);
    assert NewRecords(w, send, cfg) == [Request(a, target)];
  }

  /** Nothing but the rate limit can refuse the request. */
  predicate Grantable(a: RemediationAction, target: Option<ServiceId>, cfg: Config) {
    && (NeedsTarget(a) ==> target.Some?)
    && (a.RestartUnit? ==> cfg.FindService(target.value).Some?)
  }

  /** A run from a process start that has answered these requests. */
  ghost predicate Answered(acts: seq<Action>, log: seq<RemediationRecord>, cfg: Config, g: BuiltGraph) {
    && NoCrash(acts) && Serving(Run(Fresh(cfg), acts, cfg, g))
    && RequestLog(Fresh(cfg), acts, cfg, g) == log
  }

  lemma BootLogIsEmpty(
      disk: BackupPhase, stopped: set<ServiceId>, mono: nat, maintenance: map<ServiceId, nat>, cfg: Config)
    ensures Boot(disk, stopped, Covered(disk), mono, maintenance, cfg).m.view.log == []
  {
    hide Compensation, CompensationCommands;
  }

  lemma OneMore(
      before: seq<Action>, log: seq<RemediationRecord>, a: RemediationAction, target: Option<ServiceId>, cfg: Config,
      g: BuiltGraph) returns (acts: seq<Action>)
    requires Answered(before, log, cfg, g) && Grantable(a, target, cfg)
    requires !OverLimit(Newest(log, 50), a, target, 0)
    ensures Answered(acts, log + [Request(a, target)], cfg, g)
  {
    hide Run, RequestLog, Boot, OverLimit, Newest, Serving, Admitted, Model.FindIn;
    BootLogIsEmpty(Idle, {}, 0, map[], cfg);
    LogRefinesRequests(Fresh(cfg), before, cfg, g);
    var w := Run(Fresh(cfg), before, cfg, g);
    var more := Served(w, a, target, cfg, g);
    acts := before + more;
    RunAppend(Fresh(cfg), before, more, cfg, g);
    LogAppend(Fresh(cfg), before, more, cfg, g);
  }

  lemma {:induction false} Repeated(
      before: seq<Action>, log: seq<RemediationRecord>, a: RemediationAction, target: Option<ServiceId>, n: nat,
      cfg: Config, g: BuiltGraph) returns (acts: seq<Action>)
    requires Answered(before, log, cfg, g) && Grantable(a, target, cfg)
    requires forall i: nat :: i < n ==>
               !OverLimit(Newest(log + Copies(Request(a, target), i), 50), a, target, 0)
    ensures Answered(acts, log + Copies(Request(a, target), n), cfg, g)
  {
    hide Answered, Grantable, OverLimit, Newest;
    if n == 0 {
      acts := before;
      assert log + Copies(Request(a, target), 0) == log;
    } else {
      var most := Repeated(before, log, a, target, n - 1, cfg, g);
      acts := OneMore(most, log + Copies(Request(a, target), n - 1), a, target, cfg, g);
      CopiesOneMore(Request(a, target), n - 1);
      assert log + Copies(Request(a, target), n) ==
             log + Copies(Request(a, target), n - 1) + [Request(a, target)];
    }
  }

  // ---- The exact condition, on runs ----

  lemma {:induction false} GrantedAppend(
      a: seq<RemediationRecord>, b: seq<RemediationRecord>, action: RemediationAction, target: Option<ServiceId>,
      from: nat, to: nat)
    ensures Granted(a + b, action, target, from, to) ==
            Granted(a, action, target, from, to) + Granted(b, action, target, from, to)
  {
    if b == [] {
      assert a + b == a;
    } else {
      GrantedAppend(a, b[..|b| - 1], action, target, from, to);
      assert (a + b)[..|a + b| - 1] == a + b[..|b| - 1];
    }
  }

  lemma {:induction false} GrantedCopies(a: RemediationAction, target: Option<ServiceId>, n: nat, to: nat)
    ensures Granted(Copies(Request(a, target), n), a, target, 0, to) == n
  {
    if n == 0 {
    } else {
      GrantedCopies(a, target, n - 1, to);
      CopiesOneMore(Request(a, target), n - 1);
      assert (Copies(Request(a, target), n - 1) + [Request(a, target)])[..n - 1] == Copies(Request(a, target), n - 1);
    }
  }

  /** As many requests as the limit allows, unlock requests that push the first of them out
      of the log, and one request more: with 51 records of any kind in the window before the
      last request, it is granted like the others. */
  lemma FloodLiftsLimits(a: RemediationAction, target: Option<ServiceId>, cfg: Config, g: BuiltGraph)
    returns (acts: seq<Action>)
    requires cfg.Valid() && IsLimited(a) && Grantable(a, target, cfg)
    ensures NoCrash(acts)
    ensures var log := RequestLog(Fresh(cfg), acts, cfg, g);
            && Calm(log, a, 51)
            && Granted(log, a, target, 0, WindowOf(a)) == Allowed(a) + 1
  {
    hide Answered, Run, RequestLog, Newest, OverLimit, CountAll, Granted, Grantable;
    var n, r, to := Allowed(a), Request(a, target), WindowOf(a);
    var up := ServesFirst(cfg, g);
    FewAreAdmitted(a, target);
    var some := Repeated(up, [], a, target, n, cfg, g);
    UnlocksAreAdmitted([] + Copies(r, n));
    GrantableUnlock(cfg);
    var many := Repeated(some, [] + Copies(r, n), UnlockRestic, None, 51 - n, cfg, g);
    assert ([] + Copies(r, n)) + Copies(UNLOCK, 51 - n) == Flood(a, target);
    FloodIsMiscounted(a, target);
    acts := OneMore(many, Flood(a, target), a, target, cfg, g);
    var log := Flood(a, target) + [r];
    AnsweredLog(acts, log, cfg, g);
    forall i | 0 <= i < |log| && log[i].action == a
      ensures CountAll(log[..i], Cutoff(a, log[i].mono)) <= 51
    {
      CountAllAtMostLength(log[..i], Cutoff(a, log[i].mono));
    }
    FloodIsGranted(a, target, to);
    GrantedAppend(Flood(a, target), [r], a, target, 0, to);
    GrantedOne(a, target, to);
  }

  lemma AnsweredLog(acts: seq<Action>, log: seq<RemediationRecord>, cfg: Config, g: BuiltGraph)
    requires Answered(acts, log, cfg, g)
    ensures NoCrash(acts) && RequestLog(Fresh(cfg), acts, cfg, g) == log
  {
  }

  lemma GrantableUnlock(cfg: Config)
    ensures Grantable(UnlockRestic, None, cfg)
  {
  }

  lemma GrantedOne(a: RemediationAction, target: Option<ServiceId>, to: nat)
    ensures Granted([Request(a, target)], a, target, 0, to) == 1
  {
    GrantedCopies(a, target, 1, to);
    assert Copies(Request(a, target), 1) == [Request(a, target)];
  }

  lemma FloodIsGranted(a: RemediationAction, target: Option<ServiceId>, to: nat)
    requires IsLimited(a)
    ensures Granted(Flood(a, target), a, target, 0, to) == Allowed(a)
  {
    hide Granted, CountRequests;
    var n, rest := Allowed(a), 51 - Allowed(a);
    GrantedAppend(Copies(Request(a, target), n), Copies(UNLOCK, rest), a, target, 0, to);
    GrantedCopies(a, target, n, to);
    GrantedWereCounted(Copies(UNLOCK, rest), a, target, 0, to, 0);
    CountCopies(UNLOCK, rest, 0, a, target);
  }

  lemma ServesFirst(cfg: Config, g: BuiltGraph) returns (up: seq<Action>)
    requires cfg.Valid()
    ensures Answered(up, [], cfg, g)
  {
    hide Step, Boot;
    up := [Startup(cfg, cfg.Ids())];
    StartsUp(cfg, g, cfg.Ids());
    RunOne(Fresh(cfg), up[0], cfg, g);
    LogOfOne(Fresh(cfg), up[0], cfg, g);
  }

  lemma FewAreAdmitted(a: RemediationAction, target: Option<ServiceId>)
    requires IsLimited(a)
    ensures forall i: nat :: i < Allowed(a) ==>
              !OverLimit(Newest([] + Copies(Request(a, target), i), 50), a, target, 0)
  {
    hide CountRequests;
    forall i: nat | i < Allowed(a)
      ensures !OverLimit(Newest([] + Copies(Request(a, target), i), 50), a, target, 0)
    {
      CountCopies(Request(a, target), i, 0, a, target);
      assert [] + Copies(Request(a, target), i) == Copies(Request(a, target), i);
    }
  }

  lemma UnlocksAreAdmitted(log: seq<RemediationRecord>)
    ensures forall i: nat :: !OverLimit(Newest(log + Copies(UNLOCK, i), 50), UnlockRestic, None, 0)
  {
  }

  /** The requests for an action on a target granted in a window, in a run of one process
      from its start. */
  ghost function GrantedWithin(
      disk: BackupPhase, stopped: set<ServiceId>, mono: nat, maintenance: map<ServiceId, nat>, acts: seq<Action>,
      cfg: Config, g: BuiltGraph, a: RemediationAction, target: Option<ServiceId>, from: nat): nat
    requires IsLimited(a)
  {
    var log := RequestLog(Boot(disk, stopped, Covered(disk), mono, maintenance, cfg), acts, cfg, g);
    Granted(log, a, target, from, from + WindowOf(a))
  }

  ghost predicate CalmRun(
      disk: BackupPhase, stopped: set<ServiceId>, mono: nat, maintenance: map<ServiceId, nat>, acts: seq<Action>,
      cfg: Config, g: BuiltGraph, a: RemediationAction, k: nat)
  {
    && NoCrash(acts)
    && Calm(RequestLog(Boot(disk, stopped, Covered(disk), mono, maintenance, cfg), acts, cfg, g), a, k)
  }

  /** On every run of a process with at most `k` records of any kind in the window before
      each request for the action, no window holds more granted ones than the limit. */
  ghost predicate RateHolds(a: RemediationAction, target: Option<ServiceId>, k: nat, cfg: Config, g: BuiltGraph)
    requires IsLimited(a)
  {
    forall disk, stopped, mono, maintenance, acts, from: nat ::
      CalmRun(disk, stopped, mono, maintenance, acts, cfg, g, a, k) ==>
        GrantedWithin(disk, stopped, mono, maintenance, acts, cfg, g, a, target, from) <= Allowed(a)
  }

  lemma {:induction false} RefusedIsNotGranted(
      log: seq<RemediationRecord>, a: RemediationAction, target: Option<ServiceId>, from: nat, to: nat)
    requires forall r :: r in log && r.action == a && r.target == target ==> r.result.Rejected?
    ensures Granted(log, a, target, from, to) == 0
  {
    if log == [] {
    } else {
      assert log[|log| - 1] in log;
      RefusedIsNotGranted(log[..|log| - 1], a, target, from, to);
    }
  }

  lemma {:induction false} AlwaysRefused(
      w: World, acts: seq<Action>, a: RemediationAction, target: Option<ServiceId>, cfg: Config, g: BuiltGraph)
    requires !Grantable(a, target, cfg)
    ensures forall r :: r in RequestLog(w, acts, cfg, g) && r.action == a && r.target == target ==> r.result.Rejected?
  {
    hide Step, OverLimit, Model.FindIn;
    if acts == [] {
    } else {
      AlwaysRefused(w, acts[..|acts| - 1], a, target, cfg, g);
    }
  }

  lemma NeverGranted(
      disk: BackupPhase, stopped: set<ServiceId>, mono: nat, maintenance: map<ServiceId, nat>, acts: seq<Action>,
      cfg: Config, g: BuiltGraph, a: RemediationAction, target: Option<ServiceId>, from: nat)
    requires IsLimited(a) && !Grantable(a, target, cfg)
    ensures GrantedWithin(disk, stopped, mono, maintenance, acts, cfg, g, a, target, from) == 0
  {
    hide Boot, RequestLog, Granted, Grantable;
    var b := Boot(disk, stopped, Covered(disk), mono, maintenance, cfg);
    AlwaysRefused(b, acts, a, target, cfg, g);
    RefusedIsNotGranted(RequestLog(b, acts, cfg, g), a, target, from, from + WindowOf(a));
  }

  /** The rate limit holds on every run with at most `k` records in the window if and only if
      the bounded log holds `k`, or the request is never granted for another reason. */
  lemma RateHoldsExactly(a: RemediationAction, target: Option<ServiceId>, k: nat, cfg: Config, g: BuiltGraph)
    requires cfg.Valid() && IsLimited(a)
    ensures RateHolds(a, target, k, cfg, g) <==> k <= 50 || !Grantable(a, target, cfg)
  {
    hide GrantedWithin, CalmRun, Grantable;
    if k <= 50 || !Grantable(a, target, cfg) {
      forall disk, stopped, mono, maintenance, acts, from: nat |
        CalmRun(disk, stopped, mono, maintenance, acts, cfg, g, a, k)
        ensures GrantedWithin(disk, stopped, mono, maintenance, acts, cfg, g, a, target, from) <= Allowed(a)
      {
        if k <= 50 {
          CalmRunIsLimited(disk, stopped, mono, maintenance, acts, cfg, g, a, target, from, k);
        } else {
          NeverGranted(disk, stopped, mono, maintenance, acts, cfg, g, a, target, from);
        }
      }
    } else {
      var acts := FloodLiftsLimits(a, target, cfg, g);
      FloodIsCalm(acts, cfg, g, a, target, k);
    }
  }

  lemma CalmGrows(log: seq<RemediationRecord>, a: RemediationAction, k: nat, more: nat)
    requires Calm(log, a, k) && k <= more
    ensures Calm(log, a, more)
  {
    hide CountAll, Cutoff;
  }

  lemma CalmRunIsLimited(
      disk: BackupPhase, stopped: set<ServiceId>, mono: nat, maintenance: map<ServiceId, nat>, acts: seq<Action>,
      cfg: Config, g: BuiltGraph, a: RemediationAction, target: Option<ServiceId>, from: nat, k: nat)
    requires IsLimited(a) && k <= 50
    requires CalmRun(disk, stopped, mono, maintenance, acts, cfg, g, a, k)
    ensures GrantedWithin(disk, stopped, mono, maintenance, acts, cfg, g, a, target, from) <= Allowed(a)
  {
    hide RequestLog, Granted, Calm, Run, Boot;
    var b := Boot(disk, stopped, Covered(disk), mono, maintenance, cfg);
    BootLogIsEmpty(disk, stopped, mono, maintenance, cfg);
    CalmGrows(RequestLog(b, acts, cfg, g), a, k, 50);
    RequestsAreLimited(b, acts, a, target, from, from + WindowOf(a), cfg, g);
  }

  lemma FloodIsCalm(
      acts: seq<Action>, cfg: Config, g: BuiltGraph, a: RemediationAction, target: Option<ServiceId>, k: nat)
    requires NoCrash(acts) && IsLimited(a) && k > 50
    requires var log := RequestLog(Fresh(cfg), acts, cfg, g);
             && Calm(log, a, 51)
             && Granted(log, a, target, 0, WindowOf(a)) == Allowed(a) + 1
    ensures CalmRun(Idle, {}, 0, map[], acts, cfg, g, a, k)
    ensures GrantedWithin(Idle, {}, 0, map[], acts, cfg, g, a, target, 0) > Allowed(a)
  {
    hide RequestLog, Granted, Calm, Boot;
    CalmGrows(RequestLog(Fresh(cfg), acts, cfg, g), a, 51, k);
  }
}
