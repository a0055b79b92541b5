/** Remediation requests: each is logged and acknowledged once, and the bounded log limits
    their rate as long as it covers the window. */
module Remediation {
  import opened Model
  import opened Wrappers
  import opened History
  import opened Graph
  import opened Reducer
  import opened Runtime
  import opened World
  import opened ServiceSteps
  import opened BackupLifecycle

  // ---- One request ----

  lemma {:induction false} TickKeepsLog(v: View, tasks: seq<TaskKind>, cfg: Config, ctx: Ctx)
    ensures HandleTick(v, tasks, cfg, ctx).view.log == v.log
  {
    if tasks == [] {
    } else {
      TickKeepsLog(v, tasks[..|tasks| - 1], cfg, ctx);
    }
  }

  /** Why a request is turned down, if it is. */
  predicate NeedsTarget(a: RemediationAction) {
    a.RestartUnit? || a.ClearBreaker? || a.MarkMaintenance? || a.ClearMaintenance? || a.ClearFlapping?
  }

  function Objection(
      log: seq<RemediationRecord>, a: RemediationAction, target: Option<ServiceId>, cfg: Config,
      now: nat): Option<Rejection> {
    if OverLimit(log, a, target, now) then Some(RateLimited)
    else if NeedsTarget(a) && target.None? then Some(NoTarget)
    else if a.RestartUnit? && cfg.FindService(target.value).None? then Some(UnknownService)
    else None
  }

  function OutcomeOf(objection: Option<Rejection>, a: RemediationAction): Outcome {
    if objection.Some? then Rejected(objection.value) else if a.TriggerBackup? then Triggered else Executed
  }

  /** On every path a request appends exactly one record, its own; the acknowledgement read
      from the end of the log is about that record; and a refused request emits nothing
      and changes nothing but the log. */
  lemma RequestIsAcknowledged(
      v: View, a: RemediationAction, target: Option<ServiceId>, source: string, reason: string, cfg: Config,
      g: BuiltGraph, ctx: Ctx)
    requires !v.shuttingDown
    ensures var request := Remediate(a, target, source, reason);
            var out := Reduce(v, HttpCommand(request), cfg, g, ctx);
            var objection := Objection(v.log, a, target, cfg, ctx.mono);
            var outcome := OutcomeOf(objection, a);
            && out.view.log ==
               Pushed(v.log, MAX_REMEDIATION_LOG, RemediationRecord(ctx.mono, a, target, source, outcome))
            && HttpResponse(request, out.view.log) ==
               (if objection.Some? then Refused(objection.value) else Accepted(outcome))
            && (objection.Some? ==> out.cmds == [] && out.view == v.(log := out.view.log))
  {
    hide HandleTick, OverLimit, Model.FindIn;
    TickKeepsLog(v, [Backup], cfg, ctx);
  }

  /** The target's state after the request; nothing else about any service moves. */
  ghost predicate OnlyTargetMoves(v: View, after: View, target: Option<ServiceId>, f: SvcState -> SvcState) {
    && after.services.Keys == v.services.Keys
    && forall id :: id in v.services ==>
         after.services[id] == if target == Some(id) then f(v.services[id]) else v.services[id]
  }

  /** What an admitted request does, action by action. A triggered backup is the subject of
      `BackupScripts.TriggerIsCarriedOut`. */
  lemma RequestIsCarriedOut(
      v: View, a: RemediationAction, target: Option<ServiceId>, source: string, reason: string, cfg: Config,
      g: BuiltGraph, ctx: Ctx)
    requires !v.shuttingDown && !a.TriggerBackup? && Objection(v.log, a, target, cfg, ctx.mono) == None
    ensures var out := Reduce(v, HttpCommand(Remediate(a, target, source, reason)), cfg, g, ctx);
            && out.view == v.(services := out.view.services, log := out.view.log)
            && (match a
                case RestartUnit =>
                  && target.Some? && cfg.FindService(target.value).Some?
                  && out.cmds ==
                     [RestartService(
                        target.value, cfg.FindService(target.value).value.unit, FromRemediation(source, reason))]
                  && out.view.services == v.services
                case DockerRestart => out.cmds == [RestartDockerDaemon] && out.view.services == v.services
                case UnlockRestic => out.cmds == [ResticUnlock] && out.view.services == v.services
                case DiskCleanupNow => out.cmds == [RunDiskCleanup(false)] && out.view.services == v.services
                case MarkMaintenance =>
                  && out.cmds == [PersistMaintenance]
                  && OnlyTargetMoves(v, out.view, target, (svc: SvcState) => svc.(maintenance := Some(ctx.mono + 3600)))
                case ClearMaintenance =>
                  && out.cmds == [PersistMaintenance]
                  && OnlyTargetMoves(v, out.view, target, (svc: SvcState) => svc.(maintenance := None))
                case ClearBreaker =>
                  out.cmds == [] && OnlyTargetMoves(v, out.view, target, (svc: SvcState) => svc.(breaker := Closed))
                case ClearFlapping =>
                  && out.cmds == []
                  && OnlyTargetMoves(
                       v, out.view, target, (svc: SvcState) => svc.(breaker := Closed, restartHistory := []))
                case TriggerBackup => true)
  {
    hide HandleTick, OverLimit, Model.FindIn, Pushed;
  }

  // ---- The bounded log against the whole one ----

  ghost predicate Sorted(log: seq<RemediationRecord>) {
    forall i, j :: 0 <= i < j < |log| ==> log[i].mono <= log[j].mono
  }

  /** The records of any kind since the cutoff. */
  function CountAll(log: seq<RemediationRecord>, cutoff: nat): nat {
    if log == [] then 0
    else CountAll(log[..|log| - 1], cutoff) + if log[|log| - 1].mono >= cutoff then 1 else 0
  }

  lemma {:induction false} CountsAppend(
      a: seq<RemediationRecord>, b: seq<RemediationRecord>, cutoff: nat, action: RemediationAction,
      target: Option<ServiceId>)
    ensures CountRequests(a + b, cutoff, action, target) ==
            CountRequests(a, cutoff, action, target) + CountRequests(b, cutoff, action, target)
  {
    if b == [] {
      assert a + b == a;
    } else {
      CountsAppend(a, b[..|b| - 1], cutoff, action, target);
      assert (a + b)[..|a + b| - 1] == a + b[..|b| - 1];
    }
  }

  lemma {:induction false} OldDoNotCount(
      log: seq<RemediationRecord>, cutoff: nat, action: RemediationAction, target: Option<ServiceId>)
    requires forall i :: 0 <= i < |log| ==> log[i].mono < cutoff
    ensures CountRequests(log, cutoff, action, target) == 0
  {
    if log == [] {
    } else {
      OldDoNotCount(log[..|log| - 1], cutoff, action, target);
    }
  }

  lemma {:induction false} CountTail(log: seq<RemediationRecord>, cutoff: nat, k: nat)
    requires k <= |log| && forall i :: k <= i < |log| ==> log[i].mono >= cutoff
    ensures CountAll(log, cutoff) >= |log| - k
  {
    if k == |log| {
    } else {
      CountTail(log[..|log| - 1], cutoff, k);
    }
  }

  /** If at most `max` records of any kind fall in the window, the newest `max` give the
      count of the whole log. */
  lemma NewestCountIsTrue(
      log: seq<RemediationRecord>, max: nat, cutoff: nat, action: RemediationAction, target: Option<ServiceId>)
    requires Sorted(log) && CountAll(log, cutoff) <= max
    ensures CountRequests(Newest(log, max), cutoff, action, target) == CountRequests(log, cutoff, action, target)
  {
    hide CountRequests, CountAll;
    if |log| > max {
      var k := |log| - max;
      if log[k - 1].mono >= cutoff {
        CountTail(log, cutoff, k - 1);
        assert false;
      }
      assert log == log[..k] + log[k..];
      CountsAppend(log[..k], log[k..], cutoff, action, target);
      OldDoNotCount(log[..k], cutoff, action, target);
    }
  }

  /** The actions that are limited, over how long, and how many are allowed. */
  predicate IsLimited(a: RemediationAction) {
    a.RestartUnit? || a.DockerRestart? || a.TriggerBackup? || a.MarkMaintenance?
  }

  function WindowOf(a: RemediationAction): nat {
    if a.TriggerBackup? then 86400 else 3600
  }

  function Allowed(a: RemediationAction): nat {
    if a.RestartUnit? then 3 else if a.MarkMaintenance? then 5 else 1
  }

  function Cutoff(a: RemediationAction, now: nat): nat {
    if now >= WindowOf(a) then now - WindowOf(a) else 0
  }

  /** With at most 50 records in the window the bounded log limits as the whole log would. */
  lemma BoundedVerdictIsTrue(log: seq<RemediationRecord>, a: RemediationAction, target: Option<ServiceId>, now: nat)
    requires Sorted(log) && CountAll(log, Cutoff(a, now)) <= 50
    ensures OverLimit(Newest(log, 50), a, target, now) == OverLimit(log, a, target, now)
  {
    hide CountRequests, CountAll, Newest;
    NewestCountIsTrue(log, MAX_REMEDIATION_LOG, Cutoff(a, now), a, target);
  }

  // ---- Runs ----

  /** The request a step answers, if any. */
  ghost function RequestOf(w: World, a: Action): Option<CommandRequest> {
    if Enabled(w, a) && a.Deliver? && a.event.HttpCommand? && a.event.request.Remediate?
    then Some(a.event.request) else None
  }

  /** The record of a request, by the limits as the daemon sees them. */
  ghost function RecordOf(w: World, request: CommandRequest, ctx: Ctx, cfg: Config): RemediationRecord
    requires request.Remediate?
  {
    var now := At(w.m.clock, ctx).mono;
    var objection := Objection(w.m.view.log, request.action, request.target, cfg, now);
    RemediationRecord(
      now, request.action, request.target, request.source,
      OutcomeOf(objection, request.action))
  }

  ghost function NewRecords(w: World, a: Action, cfg: Config): seq<RemediationRecord> {
    var request := RequestOf(w, a);
    if request.Some? then [RecordOf(w, request.value, a.ctx, cfg)] else []
  }

  /** The unbounded log of the requests answered in a run. */
  ghost function RequestLog(w: World, acts: seq<Action>, cfg: Config, g: BuiltGraph): seq<RemediationRecord>
  {
    if acts == [] then []
    else
      var rest := acts[..|acts| - 1];
      RequestLog(w, rest, cfg, g) + NewRecords(Run(w, rest, cfg, g), acts[|acts| - 1], cfg)
  }

  /** Only admitted requests are not rejected. */
  ghost predicate Admitted(log: seq<RemediationRecord>) {
    forall i :: 0 <= i < |log| && !log[i].result.Rejected? ==>
      !OverLimit(Newest(log[..i], MAX_REMEDIATION_LOG), log[i].action, log[i].target, log[i].mono)
  }

  ghost predicate Bounded(w: World, log: seq<RemediationRecord>) {
    && w.m.view.log == Newest(log, MAX_REMEDIATION_LOG)
    && Sorted(log) && (forall r :: r in log ==> r.mono <= w.m.clock)
    && Admitted(log)
  }

  lemma RequestStep(w: World, a: Action, cfg: Config, g: BuiltGraph)
    requires RequestOf(w, a).Some?
    ensures Step(w, a, cfg, g).m.view.log ==
            Pushed(w.m.view.log, MAX_REMEDIATION_LOG, RecordOf(w, RequestOf(w, a).value, a.ctx, cfg))
    ensures Step(w, a, cfg, g).m.clock == At(w.m.clock, a.ctx).mono >= w.m.clock
  {
    hide Reduce, Pushed, Objection;
    var r := RequestOf(w, a).value;
    RequestIsAcknowledged(w.m.view, r.action, r.target, r.source, r.reason, cfg, g, At(w.m.clock, a.ctx));
  }

  lemma OtherStepKeepsLog(w: World, a: Action, cfg: Config, g: BuiltGraph)
    requires RequestOf(w, a).None? && !a.Crash?
    ensures Step(w, a, cfg, g).m.view.log == w.m.view.log && Step(w, a, cfg, g).m.clock >= w.m.clock
  {
    hide HandleProbes, HandleTick, HandleRemediation, HandleEffect, Observe;
    if CycleOf(w, a, cfg).Some? {
      CycleStep(w, a, cfg, g);
      var c := CycleOf(w, a, cfg).value;
      CycleKeepsLog(w.m.view, c.results, cfg, g, c.ctx);
    } else if a.Deliver? && Enabled(w, a) {
      var ctx := At(w.m.clock, a.ctx);
      match a.event {
        case Tick(tasks) => TickKeepsLog(w.m.view, tasks, cfg, ctx);
        case EffectCompleted(id, result) => EffectKeepsLog(w.m.view, id, result, cfg);
        case HttpCommand(request) => if request.Trigger? { TickKeepsLog(w.m.view, [request.task], cfg, ctx); }
        case _ =>
      }
    }
  }

  lemma CycleKeepsLog(v: View, results: seq<ProbeResult>, cfg: Config, g: BuiltGraph, ctx: Ctx)
    ensures HandleProbes(v, results, cfg, g, ctx).view.log == v.log
  {
  }

  lemma EffectKeepsLog(v: View, id: nat, result: EffectResult, cfg: Config)
    ensures HandleEffect(v, id, result, cfg).view.log == v.log
  {
  }

  lemma BoundedAppend(w: World, log: seq<RemediationRecord>, request: CommandRequest, ctx: Ctx, cfg: Config)
    requires Bounded(w, log) && request.Remediate?
    ensures var record := RecordOf(w, request, ctx, cfg);
            && Sorted(log + [record]) && Admitted(log + [record])
            && (forall r :: r in log + [record] ==> r.mono <= At(w.m.clock, ctx).mono)
  {
    hide OverLimit, Newest;
    var record := RecordOf(w, request, ctx, cfg);
    var more := log + [record];
    forall i | 0 <= i < |more| && !more[i].result.Rejected?
      ensures !OverLimit(Newest(more[..i], MAX_REMEDIATION_LOG), more[i].action, more[i].target, more[i].mono)
    {
      assert more[..i] == log[..i];
      assert log[..|log|] == log;
    }
  }

  lemma BoundedStep(w: World, log: seq<RemediationRecord>, a: Action, cfg: Config, g: BuiltGraph)
    requires !a.Crash? && Bounded(w, log)
    ensures Bounded(Step(w, a, cfg, g), log + NewRecords(w, a, cfg))
  {
    hide Step, RecordOf, Newest, Pushed, Sorted, Admitted;
    var request := RequestOf(w, a);
    if request.Some? {
      RequestStep(w, a, cfg, g);
      BoundedAppend(w, log, request.value, a.ctx, cfg);
      PushedIsNewest(log, MAX_REMEDIATION_LOG, RecordOf(w, request.value, a.ctx, cfg));
    } else {
      OtherStepKeepsLog(w, a, cfg, g);
      assert log + [] == log;
    }
  }

  /** The log of the daemon holds the newest 50 of all requests answered. */
  lemma {:induction false} LogRefinesRequests(w: World, acts: seq<Action>, cfg: Config, g: BuiltGraph)
    requires NoCrash(acts) && w.m.view.log == []
    ensures Bounded(Run(w, acts, cfg, g), RequestLog(w, acts, cfg, g))
  {
    hide Step, NewRecords;
    if acts == [] {
    } else {
      LogRefinesRequests(w, acts[..|acts| - 1], cfg, g);
      var rest := acts[..|acts| - 1];
      BoundedStep(Run(w, rest, cfg, g), RequestLog(w, rest, cfg, g), acts[|acts| - 1], cfg, g);
    }
  }

  /** A delivered request to restart a service asks the executor for it, and once that is
      executed the service is up. */
  lemma RequestedRestartIsDone(
      w: World, a: Action, r: Reading, cfg: Config, g: BuiltGraph, id: ServiceId)
    requires RequestOf(w, a).Some?
    requires var request := RequestOf(w, a).value;
             && request.action.RestartUnit? && request.target == Some(id)
             && Objection(w.m.view.log, RestartUnit, Some(id), cfg, At(w.m.clock, a.ctx).mono) == None
    ensures var asked := Step(w, a, cfg, g);
            var done := Step(asked, Exec(r), cfg, g);
            && cfg.FindService(id).Some? && |asked.queue| == 1 && asked.queue[0].RestartService?
            && asked.queue[0].id == id && asked.queue[0].unit == cfg.FindService(id).value.unit
            && done.queue == [] && id !in done.m.stopped && done.m.stopped == w.m.stopped - {id}
  {
    hide Reduce, Objection, Model.FindIn;
    var q := RequestOf(w, a).value;
    RequestIsCarriedOut(w.m.view, q.action, q.target, q.source, q.reason, cfg, g, At(w.m.clock, a.ctx));
  }

  // ---- Every request is answered by its own record ----

  /** The remediation requests the loop delivers in a run. */
  ghost function Requests(w: World, acts: seq<Action>, cfg: Config, g: BuiltGraph): (r: seq<CommandRequest>)
    ensures forall i :: 0 <= i < |r| ==> r[i].Remediate?
  {
    if acts == [] then []
    else
      var request := RequestOf(Run(w, acts[..|acts| - 1], cfg, g), acts[|acts| - 1]);
      Requests(w, acts[..|acts| - 1], cfg, g) + if request.Some? then [request.value] else []
  }

  /** The acknowledgements it sends, read from the end of the daemon's log. */
  ghost function Acknowledgements(w: World, acts: seq<Action>, cfg: Config, g: BuiltGraph): seq<Response>
  {
    if acts == [] then []
    else
      var request := RequestOf(Run(w, acts[..|acts| - 1], cfg, g), acts[|acts| - 1]);
      Acknowledgements(w, acts[..|acts| - 1], cfg, g)
      + if request.Some? then [HttpResponse(request.value, Run(w, acts, cfg, g).m.view.log)] else []
  }

  ghost predicate Answers(request: CommandRequest, record: RemediationRecord, response: Response)
    requires request.Remediate?
  {
    && record.action == request.action && record.target == request.target && record.source == request.source
    && response == if record.result.Rejected? then Refused(record.result.why) else Accepted(record.result)
  }

  /** Every request the loop delivers leaves one record in the unbounded log, the record is
      about that request, and its acknowledgement reports that record: none is read from
      another request, however many the bounded log has forgotten. */
  lemma {:induction false} EveryRequestIsAnswered(w: World, acts: seq<Action>, cfg: Config, g: BuiltGraph)
    ensures var requests, records, responses :=
              Requests(w, acts, cfg, g), RequestLog(w, acts, cfg, g), Acknowledgements(w, acts, cfg, g);
            && |requests| == |records| == |responses|
            && forall i :: 0 <= i < |requests| ==> Answers(requests[i], records[i], responses[i])
  {
    hide Step, Objection, Pushed;
    if acts == [] {
    } else {
      var rest, last := acts[..|acts| - 1], acts[|acts| - 1];
      EveryRequestIsAnswered(w, rest, cfg, g);
      var before := Run(w, rest, cfg, g);
      if RequestOf(before, last).Some? {
        RequestStep(before, last, cfg, g);
        var record := RecordOf(before, RequestOf(before, last).value, last.ctx, cfg);
        PushedIsLast(before.m.view.log, MAX_REMEDIATION_LOG, record);
      }
    }
  }

  lemma PushedIsLast<T>(items: seq<T>, max: nat, item: T)
    requires max > 0
    ensures Pushed(items, max, item) != [] && Pushed(items, max, item)[|Pushed(items, max, item)| - 1] == item
  {
  }

  // ---- How many requests get through ----

  /** The requests for an action on a target that were not rejected, in [from, to]. */
  function Granted(
      log: seq<RemediationRecord>, a: RemediationAction, target: Option<ServiceId>, from: nat, to: nat): nat {
    if log == [] then 0
    else
      var r := log[|log| - 1];
      Granted(log[..|log| - 1], a, target, from, to)
      + if from <= r.mono <= to && r.action == a && r.target == target && !r.result.Rejected? then 1 else 0
  }

  lemma {:induction false} GrantedWereCounted(
      log: seq<RemediationRecord>, a: RemediationAction, target: Option<ServiceId>, from: nat, to: nat, cutoff: nat)
    requires cutoff <= from
    ensures Granted(log, a, target, from, to) <= CountRequests(log, cutoff, a, target)
  {
    if log == [] {
    } else {
      GrantedWereCounted(log[..|log| - 1], a, target, from, to, cutoff);
    }
  }

  /** Before no request for the action did more than `k` records of any kind fall in its
      window. */
  ghost predicate Calm(log: seq<RemediationRecord>, a: RemediationAction, k: nat) {
    forall i :: 0 <= i < |log| && log[i].action == a ==> CountAll(log[..i], Cutoff(a, log[i].mono)) <= k
  }

  lemma {:induction false} GrantsAreLimited(
      log: seq<RemediationRecord>, a: RemediationAction, target: Option<ServiceId>, from: nat, to: nat)
    requires Sorted(log) && Admitted(log) && Calm(log, a, 50)
    requires IsLimited(a) && to <= from + WindowOf(a)
    ensures Granted(log, a, target, from, to) <= Allowed(a)
  {
    hide Newest, CountAll, CountRequests;
    if log == [] {
    } else {
      var rest, r := log[..|log| - 1], log[|log| - 1];
      assert forall i :: 0 <= i < |rest| ==> rest[..i] == log[..i];
      if from <= r.mono <= to && r.action == a && r.target == target && !r.result.Rejected? {
        BoundedVerdictIsTrue(rest, a, target, r.mono);
        GrantedWereCounted(rest, a, target, from, to, Cutoff(a, r.mono));
      } else {
        GrantsAreLimited(rest, a, target, from, to);
      }
    }
  }

  /** As long as at most 50 records of any kind fall in the window of each request for the
      action, at most 3, 1, 1 and 5 requests to restart a service, to restart Docker, to
      trigger a backup and to mark maintenance get through per target in any window. */
  lemma RequestsAreLimited(
      w: World, acts: seq<Action>, a: RemediationAction, target: Option<ServiceId>, from: nat, to: nat, cfg: Config,
      g: BuiltGraph)
    requires NoCrash(acts) && w.m.view.log == [] && IsLimited(a) && to <= from + WindowOf(a)
    requires Calm(RequestLog(w, acts, cfg, g), a, 50)
    ensures Granted(RequestLog(w, acts, cfg, g), a, target, from, to) <= Allowed(a)
  {
    hide Run, RequestLog, Granted, Calm, Admitted, Sorted;
    LogRefinesRequests(w, acts, cfg, g);
    GrantsAreLimited(RequestLog(w, acts, cfg, g), a, target, from, to);
  }
}
