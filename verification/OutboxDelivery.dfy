/** The notifier as a protocol: one step between any two of its actions, and a crash at any
    of them. Alerts are delivered at least once (src/notify.rs). */
module OutboxDelivery {
  import opened Wrappers
  import opened Outbox

  const OUTBOX_MAX := 256

  /** Where the notifier stands: waiting for an alert, somewhere in handling one, or
      somewhere in the replay after a start. */
  datatype Pc =
    | Waiting
    | Persisting(id: AlertId)
    | Sending(id: AlertId, left: nat)
    | Marking(id: AlertId)
    | MarkPersisting
    | ReplayNext(todo: seq<AlertId>, some: bool)
    | ReplaySending(todo: seq<AlertId>, some: bool, left: nat)
    | ReplayMarking(todo: seq<AlertId>, some: bool)
    | ReplayPersisting

  /** `mem`, `dedup`, `disk` and `overflow` are the outbox, the cache, the file and the flag
      that reports an overflow. The rest is history: `reported` tells whether any process
      raised the flag, `owed` holds the alerts whose append was persisted and that were not
      sent since, `lost` those of them that eviction took, `sentAt` the instant of the last
      successful send. */
  datatype Node = Node(
    mem: seq<Entry>, dedup: map<AlertId, nat>, disk: seq<Entry>, pc: Pc, overflow: bool,
    reported: bool, owed: set<AlertId>, lost: set<AlertId>, sentAt: map<AlertId, nat>)

  /** `Arrive` is a received alert, stamped by the wall clock; `Go` takes the next action,
      with the answer of the server if it is a send. The monotonic clock is read to evict
      expired keys, and again. */
  datatype Input =
    | Arrive(id: AlertId, createdAt: nat, evictAt: nat, now: nat)
    | Go(sendOk: bool, evictAt: nat, now: nat)
    | Crash(loaded: seq<Entry>)

  datatype Settings = Settings(retries: nat, ttl: nat)

  ghost function LostBetween(before: seq<Entry>, after: seq<Entry>): set<AlertId> {
    set e | e in before && Owing(before, e.id) && !Owing(after, e.id) :: e.id
  }

  function UndeliveredIds(s: seq<Entry>): seq<AlertId> {
    if s == [] then [] else (if s[0].delivered then [] else [s[0].id]) + UndeliveredIds(s[1..])
  }

  predicate Duplicate(cache: map<AlertId, nat>, id: AlertId, now: nat) {
    id in cache && now < cache[id]
  }

  ghost function Sent(n: Node, id: AlertId, now: nat, c: Settings): Node {
    n.(dedup := n.dedup[id := now + c.ttl], sentAt := n.sentAt[id := now], owed := n.owed - {id}, lost := n.lost - {id})
  }

  /** The alert joins the outbox, of which the compaction leaves `kept`. */
  ghost function Appended(n: Node, e: Entry, cache: map<AlertId, nat>, kept: seq<Entry>): Node {
    var grown := n.mem + [e];
    n.(mem := kept, dedup := cache, pc := Persisting(e.id),
       overflow := n.overflow || |grown| - CountDelivered(grown) > OUTBOX_MAX,
       reported := n.reported || |grown| - CountDelivered(grown) > OUTBOX_MAX,
       lost := n.lost + LostBetween(grown, kept))
  }

  ghost function Received(n: Node, id: AlertId, createdAt: nat, evictAt: nat, now: nat): Node {
    var cache, e := Unexpired(n.dedup, evictAt), Entry(id, createdAt, false);
    if Duplicate(cache, id, now) then n.(dedup := cache)
    else Appended(n, e, cache, Compacted(n.mem + [e], OUTBOX_MAX))
  }

  ghost function Advanced(n: Node, sendOk: bool, evictAt: nat, now: nat, c: Settings): Node {
    match n.pc
    case Waiting => n
    case Persisting(id) =>
      n.(disk := n.mem, pc := Sending(id, c.retries), owed := n.owed + {id},
         lost := if Owing(n.mem, id) then n.lost - {id} else n.lost)
    case Sending(id, left) =>
      if left == 0 then n.(pc := Waiting)
      else if sendOk then Sent(n, id, now, c).(pc := Marking(id))
      else n.(pc := Sending(id, left - 1))
    case Marking(id) => n.(mem := Marked(n.mem, id), pc := MarkPersisting)
    case MarkPersisting => n.(disk := n.mem, pc := Waiting)
    case ReplayNext(todo, some) =>
      if todo == [] then n.(pc := if some then ReplayPersisting else Waiting)
      else
        var cache := Unexpired(n.dedup, evictAt);
        var again := Duplicate(cache, todo[0], now);
        n.(dedup := cache, pc := if again then ReplayNext(todo[1..], some) else ReplaySending(todo, some, c.retries))
    case ReplaySending(todo, some, left) =>
      if todo == [] || left == 0 then n.(pc := ReplayNext(if todo == [] then [] else todo[1..], some))
      else if sendOk then Sent(n, todo[0], now, c).(pc := ReplayMarking(todo, some))
      else n.(pc := ReplaySending(todo, some, left - 1))
    case ReplayMarking(todo, some) =>
      if todo == [] then n.(pc := ReplayNext([], some))
      else n.(mem := Marked(n.mem, todo[0]), pc := ReplayNext(todo[1..], some))
    case ReplayPersisting => n.(disk := n.mem, pc := Waiting)
  }

  /** A process that starts on the file, with what it made of it in memory. */
  ghost function Restarted(n: Node, loaded: seq<Entry>): Node {
    var todo := UndeliveredIds(loaded);
    n.(mem := loaded, dedup := map[], pc := ReplayNext(todo, todo != []), overflow := false,
       lost := set id | id in n.lost && !Owing(n.disk, id))
  }

  /** An input that is not enabled changes nothing. */
  ghost function Step(n: Node, i: Input, c: Settings): Node {
    match i
    case Arrive(id, createdAt, evictAt, now) => if n.pc.Waiting? then Received(n, id, createdAt, evictAt, now) else n
    case Go(sendOk, evictAt, now) => Advanced(n, sendOk, evictAt, now, c)
    case Crash(loaded) => if Loaded(n.disk, loaded) then Restarted(n, loaded) else n
  }

  ghost function Run(n: Node, inputs: seq<Input>, c: Settings): Node {
    if inputs == [] then n else Step(Run(n, inputs[..|inputs| - 1], c), inputs[|inputs| - 1], c)
  }

  /** The first start on a file, with nothing owed yet. */
  ghost function Start(lines: seq<Entry>, loaded: seq<Entry>): Node {
    Restarted(Node([], map[], lines, Waiting, false, false, {}, {}, map[]), loaded)
  }

  /** The alert is not suppressed. */
  ghost predicate Accepts(n: Node, i: Input) {
    i.Arrive? && n.pc.Waiting? && !Duplicate(Unexpired(n.dedup, i.evictAt), i.id, i.now)
  }

  /** An alert that is appended is new, or owed already, or stamped later than the latest
      entry of its id. */
  ghost predicate Later(n: Node, i: Input) {
    Accepts(n, i) ==> StampFits(n.mem, i.id, i.createdAt)
  }

  ghost predicate StampsAdvance(n: Node, inputs: seq<Input>, c: Settings) {
    inputs != [] ==>
      StampsAdvance(n, inputs[..|inputs| - 1], c) && Later(Run(n, inputs[..|inputs| - 1], c), inputs[|inputs| - 1])
  }

  // ---- Nothing is forgotten ----

  ghost predicate Remembered(n: Node) {
    && (forall id :: id in n.owed ==> id in n.lost || (Owing(n.disk, id) && Owing(n.mem, id)))
    && (n.pc.Persisting? ==> n.pc.id in n.lost || Owing(n.mem, n.pc.id))
    && (n.pc.Marking? ==> n.pc.id !in n.owed)
    && (n.pc.ReplayMarking? && n.pc.todo != [] ==> n.pc.todo[0] !in n.owed)
    && (n.lost != {} ==> n.reported)
  }

  lemma LostIsListed(before: seq<Entry>, after: seq<Entry>, id: AlertId)
    requires Owing(before, id) && !Owing(after, id)
    ensures id in LostBetween(before, after)
  {
    hide Latest;
    LatestIsNewest(before);
  }

  /** Compaction makes an alert no longer owing only if it reports an overflow. */
  lemma CompactionReports(s: seq<Entry>)
    ensures LostBetween(s, Compacted(s, OUTBOX_MAX)) != {} ==> |s| - CountDelivered(s) > OUTBOX_MAX
  {
    hide Compacted, CountDelivered, Owing;
    if |s| - CountDelivered(s) <= OUTBOX_MAX {
      forall id | Owing(s, id)
        ensures Owing(Compacted(s, OUTBOX_MAX), id)
      {
        CompactionKeepsOwing(s, OUTBOX_MAX, id);
      }
    }
  }

  lemma RememberedAppend(n: Node, e: Entry, cache: map<AlertId, nat>, kept: seq<Entry>)
    requires Remembered(n) && !e.delivered && StampFits(n.mem, e.id, e.createdAt)
    requires LostBetween(n.mem + [e], kept) != {} ==> |n.mem + [e]| - CountDelivered(n.mem + [e]) > OUTBOX_MAX
    ensures Remembered(Appended(n, e, cache, kept))
  {
    hide CountDelivered, Owing, StampFits, LostBetween;
    forall id | id in n.owed + {e.id} && (id in n.owed ==> id !in n.lost)
      ensures Owing(kept, id) || id in LostBetween(n.mem + [e], kept)
    {
      AppendOwes(n.mem, e, id);
      if !Owing(kept, id) {
        LostIsListed(n.mem + [e], kept, id);
      }
    }
  }

  lemma RememberedMark(n: Node, i: Input, c: Settings)
    requires Remembered(n) && i.Go? && (n.pc.Marking? || n.pc.ReplayMarking?)
    ensures Remembered(Step(n, i, c))
  {
    hide Owing, Marked;
    if n.pc.Marking? || n.pc.todo != [] {
      var marked := if n.pc.Marking? then n.pc.id else n.pc.todo[0];
      forall id | id in n.owed && id !in n.lost
        ensures Owing(Marked(n.mem, marked), id)
      {
        MarkingKeepsOwing(n.mem, marked, id);
      }
    }
  }

  predicate Writes(pc: Pc) {
    pc.Persisting? || pc.MarkPersisting? || pc.ReplayPersisting?
  }

  lemma RememberedWrite(n: Node, i: Input, c: Settings)
    requires Remembered(n) && i.Go? && Writes(n.pc)
    ensures Remembered(Step(n, i, c))
  {
    hide Owing;
  }

  lemma RememberedGo(n: Node, i: Input, c: Settings)
    requires Remembered(n) && i.Go? && !n.pc.Marking? && !n.pc.ReplayMarking? && !Writes(n.pc)
    ensures Remembered(Step(n, i, c))
  {
    hide Owing, Unexpired, Duplicate;
  }

  lemma RememberedCrash(n: Node, loaded: seq<Entry>)
    requires Remembered(n) && Loaded(n.disk, loaded)
    ensures Remembered(Restarted(n, loaded))
  {
    hide Owing, Loaded;
    forall id | id in n.owed && Owing(n.disk, id)
      ensures Owing(loaded, id)
    {
      LoadKeepsOwing(n.disk, loaded, id);
    }
  }

  /** At-least-once delivery, over every run with crashes between any two actions: an alert
      whose append was persisted has been sent since; or its newest entry, in the file and
      in memory, is undelivered, so that the next start sends it again; or eviction took it
      and an overflow was reported. */
  lemma {:induction false} NothingIsForgotten(n: Node, inputs: seq<Input>, c: Settings)
    requires Remembered(n) && StampsAdvance(n, inputs, c)
    ensures Remembered(Run(n, inputs, c))
  {
    hide Remembered, Step, Later;
    if inputs == [] {
    } else {
      var before, last := Run(n, inputs[..|inputs| - 1], c), inputs[|inputs| - 1];
      NothingIsForgotten(n, inputs[..|inputs| - 1], c);
      RememberedStep(before, last, c);
    }
  }

  lemma SuppressionRemembers(n: Node, i: Input, c: Settings)
    requires Remembered(n) && i.Arrive? && !Accepts(n, i)
    ensures Remembered(Step(n, i, c))
  {
    hide Owing;
  }

  lemma RememberedStep(n: Node, i: Input, c: Settings)
    requires Remembered(n) && Later(n, i)
    ensures Remembered(Step(n, i, c))
  {
    hide Remembered, Appended, Advanced, Restarted, Loaded, Compacted, StampFits;
    match i
    case Arrive(id, createdAt, evictAt, _) =>
      if Accepts(n, i) {
        var e := Entry(id, createdAt, false);
        CompactionReports(n.mem + [e]);
        RememberedAppend(n, e, Unexpired(n.dedup, evictAt), Compacted(n.mem + [e], OUTBOX_MAX));
      } else {
        SuppressionRemembers(n, i, c);
      }
    case Go(_, _, _) =>
      if n.pc.Marking? || n.pc.ReplayMarking? {
        RememberedMark(n, i, c);
      } else if Writes(n.pc) {
        RememberedWrite(n, i, c);
      } else {
        RememberedGo(n, i, c);
      }
    case Crash(loaded) => if Loaded(n.disk, loaded) { RememberedCrash(n, loaded); }
  }

  lemma StartRemembers(lines: seq<Entry>, loaded: seq<Entry>)
    ensures Remembered(Start(lines, loaded))
  {
  }

  // ---- Every loss is reported ----

  lemma LossRaisesFlag(n: Node, i: Input, c: Settings)
    ensures Step(n, i, c).lost <= n.lost || (i.Arrive? && Step(n, i, c).overflow)
    ensures n.overflow && !i.Crash? ==> Step(n, i, c).overflow
  {
    hide Owing, Compacted, CountDelivered, LostBetween, Marked, Unexpired, Loaded;
    if i.Arrive? {
      CompactionReports(n.mem + [Entry(i.id, i.createdAt, false)]);
    }
  }

  /** The flag is up after the first `k` inputs, and until the process crashes. */
  ghost predicate FlagUp(n: Node, inputs: seq<Input>, k: nat, c: Settings)
    requires k <= |inputs|
  {
    forall j :: k <= j <= |inputs| && (forall i :: k <= i < j ==> !inputs[i].Crash?) ==>
      Run(n, inputs[..j], c).overflow
  }

  lemma {:induction false} FlagStays(n: Node, inputs: seq<Input>, k: nat, j: nat, c: Settings)
    requires k <= j <= |inputs| && Run(n, inputs[..k], c).overflow
    requires forall i :: k <= i < j ==> !inputs[i].Crash?
    ensures Run(n, inputs[..j], c).overflow
    decreases j
  {
    hide Step;
    if j == k {
    } else {
      FlagStays(n, inputs, k, j - 1, c);
      assert inputs[..j][..j - 1] == inputs[..j - 1];
      LossRaisesFlag(Run(n, inputs[..j - 1], c), inputs[j - 1], c);
    }
  }

  /** The input `k` is an alert whose append loses `id`, and its process reports an overflow
      from then on. */
  ghost predicate LostAt(n: Node, inputs: seq<Input>, k: nat, id: AlertId, c: Settings)
    requires k < |inputs|
  {
    && inputs[k].Arrive? && id !in Run(n, inputs[..k], c).lost && id in Run(n, inputs[..k + 1], c).lost
    && FlagUp(n, inputs, k + 1, c)
  }

  /** Over every run, each alert that eviction took was taken by one append, and from that
      append on its own process reports an overflow, until it crashes. */
  lemma {:induction false} LossIsReported(n: Node, inputs: seq<Input>, id: AlertId, c: Settings) returns (k: nat)
    requires id !in n.lost && id in Run(n, inputs, c).lost
    ensures k < |inputs| && LostAt(n, inputs, k, id, c)
    decreases |inputs|
  {
    hide Step;
    var rest := inputs[..|inputs| - 1];
    k := |inputs| - 1;
    if id in Run(n, rest, c).lost {
      k := LossIsReported(n, rest, id, c);
      assert rest[..k] == inputs[..k] && rest[..k + 1] == inputs[..k + 1];
    } else {
      LossRaisesFlag(Run(n, rest, c), inputs[k], c);
      assert inputs[..k + 1] == inputs;
    }
    assert Run(n, inputs[..k + 1], c).overflow;
    forall j | k + 1 <= j <= |inputs| && (forall i :: k + 1 <= i < j ==> !inputs[i].Crash?)
      ensures Run(n, inputs[..j], c).overflow
    {
      FlagStays(n, inputs, k + 1, j, c);
    }
  }

  // ---- Suppression ----

  /** The cache holds alerts that were sent, until their time is over. */
  ghost predicate Cached(n: Node, c: Settings) {
    forall id :: id in n.dedup ==> id in n.sentAt && n.dedup[id] == n.sentAt[id] + c.ttl
  }

  lemma SendingCaches(n: Node, id: AlertId, now: nat, c: Settings)
    requires Cached(n, c)
    ensures Cached(Sent(n, id, now, c), c)
  {
  }

  lemma CachedGo(n: Node, i: Input, c: Settings)
    requires Cached(n, c) && i.Go?
    ensures Cached(Step(n, i, c), c)
  {
    hide Owing, Marked, Duplicate, Sent;
    if n.pc.Sending? {
      SendingCaches(n, n.pc.id, i.now, c);
    } else if n.pc.ReplaySending? && n.pc.todo != [] {
      SendingCaches(n, n.pc.todo[0], i.now, c);
    }
  }

  lemma CachedStep(n: Node, i: Input, c: Settings)
    requires Cached(n, c)
    ensures Cached(Step(n, i, c), c)
  {
    hide Owing, Compacted, Advanced, Duplicate, Loaded, UndeliveredIds, LostBetween;
    if i.Go? {
      CachedGo(n, i, c);
    }
  }

  lemma {:induction false} CachedRun(n: Node, inputs: seq<Input>, c: Settings)
    requires Cached(n, c)
    ensures Cached(Run(n, inputs, c), c)
  {
    hide Cached, Step;
    if inputs == [] {
    } else {
      CachedRun(n, inputs[..|inputs| - 1], c);
      CachedStep(Run(n, inputs[..|inputs| - 1], c), inputs[|inputs| - 1], c);
    }
  }

  /** A received alert is either appended, or an alert with its id was sent less than the
      time to live ago. */
  lemma SuppressedWasSent(lines: seq<Entry>, loaded: seq<Entry>, inputs: seq<Input>, i: Input, c: Settings)
    requires i.Arrive? && Run(Start(lines, loaded), inputs, c).pc.Waiting?
    ensures var n := Run(Start(lines, loaded), inputs, c);
            var next := Step(n, i, c);
            || (&& next.pc == Persisting(i.id)
                && next.mem == Compacted(n.mem + [Entry(i.id, i.createdAt, false)], OUTBOX_MAX))
            || (i.id in n.sentAt && i.now < n.sentAt[i.id] + c.ttl && next.mem == n.mem && next.disk == n.disk)
  {
    hide Run, Owing, Compacted;
    CachedRun(Start(lines, loaded), inputs, c);
  }

  // ---- A start on a reachable server clears what is owed ----

  /** During a replay: what is owed is still to do, or lost. */
  ghost predicate Clearing(n: Node) {
    && n.owed !! n.dedup.Keys
    && match n.pc
       case ReplayNext(todo, _) => forall id :: id in n.owed ==> id in n.lost || id in todo
       case ReplaySending(todo, _, left) =>
         todo != [] && left > 0 && forall id :: id in n.owed ==> id in n.lost || id in todo
       case ReplayMarking(todo, _) => todo != [] && forall id :: id in n.owed ==> id in n.lost || id in todo[1..]
       case ReplayPersisting => n.owed <= n.lost
       case Waiting => n.owed <= n.lost
       case _ => false
  }

  function StepsLeft(pc: Pc): nat {
    match pc
    case ReplayNext(todo, _) => 3 * |todo| + 2
    case ReplaySending(todo, _, _) => 3 * |todo| + 1
    case ReplayMarking(todo, _) => 3 * |todo|
    case ReplayPersisting => 1
    case _ => 0
  }

  lemma ClearingStep(n: Node, i: Input, c: Settings)
    requires Clearing(n) && i.Go? && i.sendOk && c.retries > 0
    ensures Clearing(Step(n, i, c))
    ensures n.pc.Waiting? || StepsLeft(Step(n, i, c).pc) < StepsLeft(n.pc)
    ensures n.pc.Waiting? ==> Step(n, i, c).pc.Waiting?
  {
    hide Owing, Marked;
    if (n.pc.ReplayNext? || n.pc.ReplaySending? || n.pc.ReplayMarking?) && n.pc.todo != [] {
      assert n.pc.todo == [n.pc.todo[0]] + n.pc.todo[1..];
    }
  }

  ghost predicate AllSendsSucceed(inputs: seq<Input>) {
    forall k :: 0 <= k < |inputs| ==> inputs[k].Go? && inputs[k].sendOk
  }

  lemma {:induction false} ClearingRun(n: Node, inputs: seq<Input>, c: Settings)
    requires Clearing(n) && AllSendsSucceed(inputs) && c.retries > 0
    ensures Clearing(Run(n, inputs, c))
    ensures Run(n, inputs, c).pc.Waiting? || StepsLeft(Run(n, inputs, c).pc) + |inputs| <= StepsLeft(n.pc)
  {
    hide Clearing, Step, StepsLeft;
    if inputs == [] {
    } else {
      var rest := inputs[..|inputs| - 1];
      ClearingRun(n, rest, c);
      ClearingStep(Run(n, rest, c), inputs[|inputs| - 1], c);
    }
  }

  lemma {:induction false} OwingIsToDo(s: seq<Entry>, e: Entry)
    requires e in s && !e.delivered
    ensures e.id in UndeliveredIds(s)
  {
    if s[0] != e {
      OwingIsToDo(s[1..], e);
    }
  }

  lemma ToDoIsBounded(s: seq<Entry>)
    ensures |UndeliveredIds(s)| <= |s|
  {
  }

  lemma RestartIsClearing(n: Node, loaded: seq<Entry>)
    requires Remembered(n) && Loaded(n.disk, loaded)
    ensures Clearing(Restarted(n, loaded)) && StepsLeft(Restarted(n, loaded).pc) <= 3 * |loaded| + 2
  {
    hide Loaded;
    ToDoIsBounded(loaded);
    var r := Restarted(n, loaded);
    forall id | id in r.owed && id !in r.lost
      ensures id in UndeliveredIds(loaded)
    {
      LoadKeepsOwing(n.disk, loaded, id);
      LatestIsNewest(loaded);
      OwingIsToDo(loaded, Latest(loaded)[id]);
    }
  }

  lemma {:induction false} GoesAdvance(n: Node, inputs: seq<Input>, c: Settings)
    requires AllSendsSucceed(inputs)
    ensures StampsAdvance(n, inputs, c)
  {
    if inputs == [] {
    } else {
      GoesAdvance(n, inputs[..|inputs| - 1], c);
    }
  }

  /** After a crash at any point of any run, a restart whose sends succeed comes to wait for
      new alerts with nothing owed but what was lost to a reported overflow. */
  lemma RestartClearsDebts(
      lines: seq<Entry>, first: seq<Entry>, inputs: seq<Input>, loaded: seq<Entry>, replay: seq<Input>, c: Settings)
    requires StampsAdvance(Start(lines, first), inputs, c) && Loaded(Run(Start(lines, first), inputs, c).disk, loaded)
    requires c.retries > 0 && AllSendsSucceed(replay) && |replay| > 3 * |loaded| + 2
    ensures var n := Run(Start(lines, first), inputs, c);
            var end := Run(Step(n, Crash(loaded), c), replay, c);
            end.pc.Waiting? && end.owed <= end.lost && (end.lost != {} ==> end.reported)
  {
    hide Run, Owing, Loaded, StepsLeft, Marked, Restarted, StampsAdvance, Start;
    var n := Run(Start(lines, first), inputs, c);
    StartRemembers(lines, first);
    NothingIsForgotten(Start(lines, first), inputs, c);
    RestartIsClearing(n, loaded);
    RememberedCrash(n, loaded);
    ClearingRun(Restarted(n, loaded), replay, c);
    GoesAdvance(Restarted(n, loaded), replay, c);
    NothingIsForgotten(Restarted(n, loaded), replay, c);
  }

  // ---- A stale stamp forgets the alert ----

  /** Persisted, not sent, not lost to an overflow, and no longer going to be sent. */
  ghost predicate Forgotten(n: Node, id: AlertId) {
    id in n.owed && id !in n.lost && !Owing(n.disk, id) && !Owing(n.mem, id)
  }

  /** The handling of one appended alert whose sends all fail. */
  ghost predicate Failing(n: Node, id: AlertId) {
    Forgotten(n, id) && (n.pc.Waiting? || n.pc.Sending?)
  }

  ghost predicate AllSendsFail(inputs: seq<Input>) {
    forall k :: 0 <= k < |inputs| ==> inputs[k].Go? && !inputs[k].sendOk
  }

  lemma {:induction false} FailingRun(n: Node, id: AlertId, inputs: seq<Input>, c: Settings)
    requires Failing(n, id) && AllSendsFail(inputs)
    ensures Failing(Run(n, inputs, c), id)
  {
    hide Owing;
    if inputs == [] {
    } else {
      FailingRun(n, id, inputs[..|inputs| - 1], c);
    }
  }

  lemma {:induction false} ToDoIsUndelivered(s: seq<Entry>, id: AlertId)
    ensures id in UndeliveredIds(s) ==> exists e :: e in s && e.id == id && !e.delivered
  {
    if s == [] {
    } else {
      ToDoIsUndelivered(s[1..], id);
      assert s == [s[0]] + s[1..];
    }
  }

  lemma NotOwingIsNotToDo(lines: seq<Entry>, loaded: seq<Entry>, id: AlertId)
    requires Loaded(lines, loaded) && !Owing(lines, id)
    ensures id !in UndeliveredIds(loaded)
  {
    hide Latest;
    ToDoIsUndelivered(loaded, id);
  }

  /** An alert appended to an outbox with room is remembered, once its append is persisted,
      exactly when its stamp fits. */
  lemma StampDecides(n: Node, i: Input, c: Settings)
    requires Remembered(n) && Accepts(n, i) && |n.mem| < OUTBOX_MAX && i.id !in n.lost
    ensures var persisted := Step(Step(n, i, c), Go(false, 0, 0), c);
            && (Remembered(persisted) <==> StampFits(n.mem, i.id, i.createdAt))
            && (!StampFits(n.mem, i.id, i.createdAt) ==> Failing(persisted, i.id))
  {
    hide Owing, StampFits, Remembered;
    var e := Entry(i.id, i.createdAt, false);
    var appended := Step(n, i, c);
    assert appended.mem == n.mem + [e] && i.id !in LostBetween(appended.mem, appended.mem);
    AppendOwes(n.mem, e, i.id);
    if StampFits(n.mem, i.id, i.createdAt) {
      RememberedStep(n, i, c);
      RememberedStep(appended, Go(false, 0, 0), c);
    } else {
      ForgottenIsNotRemembered(Step(appended, Go(false, 0, 0), c), i.id);
    }
  }

  lemma ForgottenIsNotRemembered(n: Node, id: AlertId)
    requires Forgotten(n, id)
    ensures !Remembered(n)
  {
  }

  /** An alert with a stale stamp is forgotten: if its sends fail and the process crashes,
      it is still owed, no overflow took it, and the next start will not send it. */
  lemma StaleStampForgets(n: Node, i: Input, sends: seq<Input>, loaded: seq<Entry>, c: Settings)
    requires Remembered(n) && Accepts(n, i) && |n.mem| < OUTBOX_MAX && i.id !in n.lost
    requires !StampFits(n.mem, i.id, i.createdAt) && AllSendsFail(sends)
    requires Loaded(Run(Step(Step(n, i, c), Go(false, 0, 0), c), sends, c).disk, loaded)
    ensures var failed := Run(Step(Step(n, i, c), Go(false, 0, 0), c), sends, c);
            var end := Step(failed, Crash(loaded), c);
            && Forgotten(end, i.id)
            && end.pc.ReplayNext? && i.id !in end.pc.todo
  {
    hide Owing, StampFits, Remembered, Run, Loaded, Advanced, Received, UndeliveredIds;
    StampDecides(n, i, c);
    var failed := Run(Step(Step(n, i, c), Go(false, 0, 0), c), sends, c);
    FailingRun(Step(Step(n, i, c), Go(false, 0, 0), c), i.id, sends, c);
    LoadKeepsOwing(failed.disk, loaded, i.id);
    NotOwingIsNotToDo(failed.disk, loaded, i.id);
  }

  const DONE := Entry("a", 100, true)
  const AGAIN := Entry("a", 50, false)
  const SETTINGS := Settings(1, 60)

  lemma CollapseKeepsDone()
    ensures Latest([DONE]) == map["a" := DONE] && Latest([DONE, AGAIN]) == map["a" := DONE]
    ensures Loaded([DONE], [DONE]) && Loaded([DONE, AGAIN], [DONE])
  {
    assert [DONE, AGAIN][..1] == [DONE] && [DONE][..0] == [];
  }

  /** Such a run from a start: sent under the stamp 100 by an earlier process, the alert
      comes again under the stamp 50 of a clock set back, cannot be sent, and is forgotten. */
  lemma EarlierStampForgets()
    ensures var start := Start([DONE], [DONE]);
            var n := Run(start, [Go(false, 0, 0)], SETTINGS);
            var failed := Run(Step(Step(n, Arrive("a", 50, 0, 0), SETTINGS), Go(false, 0, 0), SETTINGS), [], SETTINGS);
            && Loaded([DONE], [DONE]) && StampsAdvance(start, [Go(false, 0, 0)], SETTINGS)
            && Loaded(failed.disk, [DONE]) && Forgotten(Step(failed, Crash([DONE]), SETTINGS), "a")
  {
    hide Advanced, Received, Compacted, Remembered, Loaded, Restarted;
    var start, go, i := Start([DONE], [DONE]), Go(false, 0, 0), Arrive("a", 50, 0, 0);
    CollapseKeepsDone();
    assert [go][..0] == [];
    StartRemembers([DONE], [DONE]);
    NothingIsForgotten(start, [go], SETTINGS);
    StartWaits();
    var n := Run(start, [go], SETTINGS);
    AgainIsWritten(n);
    StaleStampForgets(n, i, [], [DONE], SETTINGS);
  }

  lemma StartWaits()
    ensures var n := Run(Start([DONE], [DONE]), [Go(false, 0, 0)], SETTINGS);
            n.pc == Waiting && n.mem == [DONE] && n.dedup == map[] && n.lost == {}
  {
    var go := Go(false, 0, 0);
    assert [go][..0] == [];
    assert UndeliveredIds([DONE]) == [];
  }

  lemma AgainIsWritten(n: Node)
    requires n.pc == Waiting && n.mem == [DONE] && n.dedup == map[]
    ensures var i := Arrive("a", 50, 0, 0);
            && Accepts(n, i) && !StampFits(n.mem, "a", 50)
            && Step(Step(n, i, SETTINGS), Go(false, 0, 0), SETTINGS).disk == [DONE, AGAIN]
  {
    hide LostBetween;
    CollapseKeepsDone();
    assert n.mem + [AGAIN] == [DONE, AGAIN];
  }

  // ---- What was sent is not sent again ----

  /** A send that succeeds, its mark and the persist of the mark. */
  ghost function Settled(n: Node, evictAt: nat, now: nat, c: Settings): Node {
    Step(Step(Step(n, Go(true, evictAt, now), c), Go(false, 0, 0), c), Go(false, 0, 0), c)
  }

  /** After a successful send whose mark is persisted, the alert is owing in memory and on
      disk exactly if it was and its first entry is older than its latest, and no other
      alert is owing or settled by it; if it is not owing, the next start does not send it. */
  lemma SentIsSettled(n: Node, evictAt: nat, now: nat, loaded: seq<Entry>, other: AlertId, c: Settings)
    requires n.pc.Sending? && n.pc.left > 0 && other != n.pc.id
    ensures var id, end := n.pc.id, Settled(n, evictAt, now, c);
            && end.pc.Waiting? && end.disk == end.mem && FirstDelivered(n.mem, end.mem, id)
            && (Owing(end.mem, id) <==>
                Owing(n.mem, id) && FirstOf(n.mem, id).Some?
                && FirstOf(n.mem, id).value.createdAt < Latest(n.mem)[id].createdAt)
            && (Owing(end.mem, other) <==> Owing(n.mem, other))
            && (Loaded(end.disk, loaded) && !Owing(end.mem, id) ==> id !in Step(end, Crash(loaded), c).pc.todo)
  {
    hide Owing, Marked, Latest, FirstOf, Loaded;
    MarkedIsDelivered(n.mem, n.pc.id);
    MarkedOwes(n.mem, n.pc.id);
    MarkingIsForOne(n.mem, n.pc.id, other);
    if Loaded(Settled(n, evictAt, now, c).disk, loaded) && !Owing(Marked(n.mem, n.pc.id), n.pc.id) {
      NotOwingIsNotToDo(Settled(n, evictAt, now, c).disk, loaded, n.pc.id);
    }
  }

  ghost predicate Distinct(ids: seq<AlertId>) {
    forall i, j :: 0 <= i < j < |ids| ==> ids[i] != ids[j]
  }

  ghost predicate NoneOwing(s: seq<Entry>) {
    forall id :: !Owing(s, id)
  }

  /** The alerts still to replay: each once, none of them sent by this process, and nothing
      but them owing in memory. */
  ghost predicate LeftToDo(n: Node, todo: seq<AlertId>, rest: seq<AlertId>) {
    && Distinct(todo) && (forall id :: id in rest ==> id !in n.dedup)
    && forall id :: Owing(n.mem, id) ==> id in todo
  }

  ghost predicate Settling(n: Node) {
    && UniqueIds(n.mem)
    && match n.pc
       case ReplayNext(todo, some) => LeftToDo(n, todo, todo) && (!some ==> todo == [] && NoneOwing(n.disk))
       case ReplaySending(todo, some, left) => todo != [] && left > 0 && some && LeftToDo(n, todo, todo)
       case ReplayMarking(todo, some) => todo != [] && some && LeftToDo(n, todo, todo[1..])
       case ReplayPersisting => NoneOwing(n.mem)
       case Waiting => NoneOwing(n.mem) && NoneOwing(n.disk)
       case _ => false
  }

  lemma MarkingSettles(s: seq<Entry>, todo: seq<AlertId>)
    requires todo != [] && UniqueIds(s) && forall id :: Owing(s, id) ==> id in todo
    ensures UniqueIds(Marked(s, todo[0]))
    ensures forall id :: Owing(Marked(s, todo[0]), id) ==> id in todo[1..]
  {
    hide Marked, Latest, FirstOf;
    MarkedIsDelivered(s, todo[0]);
    MarkedOwes(s, todo[0]);
    if todo[0] in Latest(s) {
      FirstIsLatest(s, todo[0]);
    }
    forall id | Owing(Marked(s, todo[0]), id)
      ensures id in todo[1..]
    {
      if id != todo[0] {
        MarkingIsForOne(s, todo[0], id);
      }
      assert todo == [todo[0]] + todo[1..];
    }
  }

  lemma FirstIsLatest(s: seq<Entry>, id: AlertId)
    requires UniqueIds(s) && id in Latest(s)
    ensures FirstOf(s, id) == Some(Latest(s)[id])
  {
    hide Latest, FirstOf;
    LatestIsNewest(s);
    FirstOfMembers(s, id);
  }

  lemma SettlingStep(n: Node, i: Input, c: Settings)
    requires Settling(n) && i.Go? && i.sendOk && c.retries > 0
    ensures Settling(Step(n, i, c))
    ensures n.pc.Waiting? || StepsLeft(Step(n, i, c).pc) < StepsLeft(n.pc)
    ensures n.pc.Waiting? ==> Step(n, i, c).pc.Waiting?
  {
    hide Owing, Marked, UniqueIds;
    if n.pc.ReplayMarking? {
      MarkingSettles(n.mem, n.pc.todo);
    }
    if (n.pc.ReplaySending? || n.pc.ReplayMarking?) && n.pc.todo != [] {
      assert forall k :: 0 <= k < |n.pc.todo| - 1 ==> n.pc.todo[1..][k] == n.pc.todo[k + 1];
    }
  }

  /** A replay skips the next alert exactly if this process sent it less than the time to
      live ago, which never happens in a replay that follows a start. */
  lemma ReplaySkipsWhatWasSent(n: Node, sendOk: bool, evictAt: nat, now: nat, c: Settings)
    requires n.pc.ReplayNext? && n.pc.todo != []
    ensures var id, after := n.pc.todo[0], Step(n, Go(sendOk, evictAt, now), c);
            && (after.pc == ReplayNext(n.pc.todo[1..], n.pc.some) <==>
                id in n.dedup && evictAt < n.dedup[id] && now < n.dedup[id])
            && (after.pc.ReplaySending? <==> after.pc == ReplaySending(n.pc.todo, n.pc.some, c.retries))
            && (Settling(n) ==> after.pc.ReplaySending?)
  {
    hide Owing;
    assert n.pc.todo[0] in n.pc.todo;
  }

  lemma {:induction false} SettlingRun(n: Node, inputs: seq<Input>, c: Settings)
    requires Settling(n) && AllSendsSucceed(inputs) && c.retries > 0
    ensures Settling(Run(n, inputs, c))
    ensures Run(n, inputs, c).pc.Waiting? || StepsLeft(Run(n, inputs, c).pc) + |inputs| <= StepsLeft(n.pc)
  {
    hide Settling, Step, StepsLeft;
    if inputs == [] {
    } else {
      var rest := inputs[..|inputs| - 1];
      SettlingRun(n, rest, c);
      SettlingStep(Run(n, rest, c), inputs[|inputs| - 1], c);
    }
  }

  lemma {:induction false} ToDoIsDistinct(s: seq<Entry>)
    requires UniqueIds(s)
    ensures Distinct(UndeliveredIds(s)) && forall id :: id in UndeliveredIds(s) ==> exists e :: e in s && e.id == id
  {
    if s == [] {
    } else {
      ToDoIsDistinct(s[1..]);
      assert s == [s[0]] + s[1..];
      var rest := UndeliveredIds(s[1..]);
      forall i | 0 <= i < |rest|
        ensures rest[i] != s[0].id
      {
        assert rest[i] in rest;
        var e :| e in s[1..] && e.id == rest[i];
        var j :| 0 <= j < |s[1..]| && s[1..][j] == e;
        assert s[j + 1] == e;
      }
    }
  }

  lemma RestartIsSettling(n: Node, loaded: seq<Entry>)
    requires Loaded(n.disk, loaded)
    ensures Settling(Restarted(n, loaded)) && StepsLeft(Restarted(n, loaded).pc) <= 3 * |loaded| + 2
  {
    hide Latest, Owing;
    ToDoIsBounded(loaded);
    ToDoIsDistinct(loaded);
    LatestIsNewest(loaded);
    forall id
      ensures (Owing(loaded, id) ==> id in UndeliveredIds(loaded)) && (Owing(loaded, id) <==> Owing(n.disk, id))
    {
      LoadKeepsOwing(n.disk, loaded, id);
      if Owing(loaded, id) {
        OwingIsListed(loaded, id);
      }
    }
  }

  lemma OwingIsListed(s: seq<Entry>, id: AlertId)
    requires Owing(s, id)
    ensures id in UndeliveredIds(s)
  {
    LatestIsNewest(s);
    OwingIsToDo(s, Latest(s)[id]);
  }

  /** After a restart whose sends succeed, nothing is owing in memory or on disk, and the
      start after it has nothing to send. */
  lemma RestartSettles(n: Node, loaded: seq<Entry>, replay: seq<Input>, again: seq<Entry>, c: Settings)
    requires Loaded(n.disk, loaded) && c.retries > 0 && AllSendsSucceed(replay) && |replay| > 3 * |loaded| + 2
    ensures var end := Run(Step(n, Crash(loaded), c), replay, c);
            && end.pc.Waiting? && NoneOwing(end.mem) && NoneOwing(end.disk)
            && (Loaded(end.disk, again) ==> UndeliveredIds(again) == [])
  {
    hide Run, Owing, Loaded, StepsLeft, Restarted;
    RestartIsSettling(n, loaded);
    SettlingRun(Restarted(n, loaded), replay, c);
    var end := Run(Restarted(n, loaded), replay, c);
    if Loaded(end.disk, again) && UndeliveredIds(again) != [] {
      NotOwingIsNotToDo(end.disk, again, UndeliveredIds(again)[0]);
    }
  }

  // ---- How often an alert is tried ----

  /** An accepted alert is in the outbox, which is full at 256. */
  lemma OutboxHolds256(n: Node, i: Input, c: Settings)
    requires Accepts(n, i)
    ensures var grown, after := n.mem + [Entry(i.id, i.createdAt, false)], Step(n, i, c);
            && after.pc == Persisting(i.id) && after.disk == n.disk
            && (if |grown| <= 256 then after.mem == grown && after.lost == n.lost else |after.mem| == 256)
  {
    hide StableSort, DropDelivered, CountDelivered, Unexpired, Owing;
    var grown := n.mem + [Entry(i.id, i.createdAt, false)];
    if |grown| > OUTBOX_MAX {
      CompactionEvictsOldest(grown, OUTBOX_MAX);
    }
  }

  /** An appended alert is persisted, and then tried once per configured delay as long as it
      is not sent; after that the notifier waits for the next one. */
  lemma {:induction false} TriedOncePerDelay(n: Node, inputs: seq<Input>, c: Settings)
    requires n.pc.Persisting? && AllSendsFail(inputs)
    ensures var end := Run(n, inputs, c);
            && end.mem == n.mem && end.dedup == n.dedup && end.sentAt == n.sentAt
            && end.pc == (if inputs == [] then n.pc
                          else if |inputs| <= c.retries + 1 then Sending(n.pc.id, c.retries + 1 - |inputs|)
                          else Waiting)
            && end.disk == if inputs == [] then n.disk else n.mem
  {
    hide Owing;
    if inputs == [] {
    } else {
      TriedOncePerDelay(n, inputs[..|inputs| - 1], c);
    }
  }

  // ---- Who is suppressed ----

  /** The clocks read lie in [from, to). */
  ghost predicate ReadWithin(inputs: seq<Input>, from: nat, to: nat) {
    forall k :: 0 <= k < |inputs| ==>
      match inputs[k]
      case Arrive(_, _, evictAt, now) => from <= evictAt < to && from <= now
      case Go(_, evictAt, now) => from <= evictAt < to && from <= now
      case Crash(_) => false
  }

  lemma SentIsKeptInStep(n: Node, i: Input, id: AlertId, t: nat, c: Settings)
    requires id in n.dedup && n.dedup[id] >= t + c.ttl && ReadWithin([i], t, t + c.ttl)
    ensures var after := Step(n, i, c);
            id in after.dedup && after.dedup[id] >= t + c.ttl
  {
    hide Owing, Compacted, Marked, LostBetween, CountDelivered, Duplicate;
    assert [i][0] == i;
  }

  lemma {:induction false} SentIsKept(n: Node, inputs: seq<Input>, id: AlertId, t: nat, c: Settings)
    requires id in n.dedup && n.dedup[id] >= t + c.ttl && ReadWithin(inputs, t, t + c.ttl)
    ensures var end := Run(n, inputs, c);
            id in end.dedup && end.dedup[id] >= t + c.ttl
  {
    hide Step;
    if inputs == [] {
    } else {
      var rest, i := inputs[..|inputs| - 1], inputs[|inputs| - 1];
      SentIsKept(n, rest, id, t, c);
      SentIsKeptInStep(Run(n, rest, c), i, id, t, c);
    }
  }

  /** An alert that this process sent less than the time to live ago is suppressed: nothing
      is appended and nothing is sent. */
  lemma SentIsSuppressed(n: Node, t: nat, evict: nat, inputs: seq<Input>, i: Input, c: Settings)
    requires n.pc.Sending? && n.pc.left > 0
    requires ReadWithin(inputs + [i], t, t + c.ttl) && i.Arrive? && i.id == n.pc.id && i.now < t + c.ttl
    ensures var sent := Run(Step(n, Go(true, evict, t), c), inputs, c);
            && Step(n, Go(true, evict, t), c).sentAt[n.pc.id] == t
            && (sent.pc.Waiting? ==> Step(sent, i, c) == sent.(dedup := Step(sent, i, c).dedup))
  {
    hide Run, Owing, Compacted, LostBetween;
    assert forall k :: 0 <= k < |inputs| ==> inputs[k] == (inputs + [i])[k];
    assert (inputs + [i])[|inputs|] == i;
    SentIsKept(Step(n, Go(true, evict, t), c), inputs, n.pc.id, t, c);
  }
}
