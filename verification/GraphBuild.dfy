/** Building the graph: validation and Kahn's worklist sort (src/graph.rs). */
module GraphBuild {
  import opened Model
  import opened Wrappers
  import opened Graph

  // ---- Counting what is still to be ordered ----

  /** How many of `deps`, repetitions included, are not in `done`. */
  function Left(deps: seq<ServiceId>, done: set<ServiceId>): nat {
    if deps == [] then 0
    else Left(deps[..|deps| - 1], done) + if deps[|deps| - 1] in done then 0 else 1
  }

  function Occurrences(s: seq<ServiceId>, x: ServiceId): nat {
    if s == [] then 0
    else Occurrences(s[..|s| - 1], x) + if s[|s| - 1] == x then 1 else 0
  }

  lemma {:induction false} LeftAfter(deps: seq<ServiceId>, done: set<ServiceId>, n: ServiceId)
    requires n !in done
    ensures Left(deps, done) == Left(deps, done + {n}) + Occurrences(deps, n)
  {
    if deps == [] {
    } else {
      LeftAfter(deps[..|deps| - 1], done, n);
    }
  }

  lemma {:induction false} LeftZero(deps: seq<ServiceId>, done: set<ServiceId>)
    ensures Left(deps, done) == 0 <==> forall d :: d in deps ==> d in done
  {
    if deps == [] {
    } else {
      LeftZero(deps[..|deps| - 1], done);
      assert deps == deps[..|deps| - 1] + [deps[|deps| - 1]];
    }
  }

  lemma {:induction false} OccursIffMember(s: seq<ServiceId>, x: ServiceId)
    ensures Occurrences(s, x) > 0 <==> x in s
  {
    if s == [] {
    } else {
      OccursIffMember(s[..|s| - 1], x);
      assert s == s[..|s| - 1] + [s[|s| - 1]];
    }
  }

  lemma {:induction false} OccurrencesInPrefix(s: seq<ServiceId>, k: nat, x: ServiceId)
    requires k <= |s|
    ensures Occurrences(s[..k], x) <= Occurrences(s, x)
    ensures k < |s| && s[k] == x ==> Occurrences(s[..k], x) < Occurrences(s, x)
    decreases |s|
  {
    if k < |s| {
      var rest := s[..|s| - 1];
      OccurrencesInPrefix(rest, k, x);
      assert rest[..k] == s[..k];
    } else {
      assert s[..k] == s;
    }
  }

  // ---- The reverse map ----

  /** Every service has an entry and every dependency is a service. */
  ghost predicate WellLinked(ids: seq<ServiceId>, parents: Parents) {
    && (forall id :: id in ids <==> id in parents)
    && (forall id, d :: id in parents && d in parents[id] ==> d in parents)
  }

  function Repeat(id: ServiceId, n: nat): seq<ServiceId> {
    if n == 0 then [] else Repeat(id, n - 1) + [id]
  }

  /** Who depends on `n`, once per listed dependency. */
  function DependentsOf(ids: seq<ServiceId>, parents: Parents, n: ServiceId): seq<ServiceId>
    requires forall id :: id in ids ==> id in parents
  {
    if ids == [] then []
    else
      var last := ids[|ids| - 1];
      DependentsOf(ids[..|ids| - 1], parents, n) + Repeat(last, Occurrences(parents[last], n))
  }

  lemma OccurrencesOneMore(s: seq<ServiceId>, id: ServiceId, x: ServiceId)
    ensures Occurrences(s + [id], x) == Occurrences(s, x) + if x == id then 1 else 0
  {
    assert (s + [id])[..|s|] == s;
  }

  lemma {:induction false} OccurrencesAppend(s: seq<ServiceId>, id: ServiceId, n: nat, x: ServiceId)
    ensures Occurrences(s + Repeat(id, n), x) == Occurrences(s, x) + if x == id then n else 0
  {
    hide Occurrences;
    if n == 0 {
      assert s + Repeat(id, 0) == s;
    } else {
      OccurrencesAppend(s, id, n - 1, x);
      OccurrencesOneMore(s + Repeat(id, n - 1), id, x);
      assert s + Repeat(id, n) == s + Repeat(id, n - 1) + [id];
    }
  }

  /** `x` appears among the dependents of `n` as often as `n` among the dependencies of `x`. */
  lemma {:induction false} DependentsMirrorDependencies(
      ids: seq<ServiceId>, parents: Parents, n: ServiceId, x: ServiceId)
    requires NoDuplicates(ids) && forall id :: id in ids ==> id in parents
    ensures Occurrences(DependentsOf(ids, parents, n), x) == if x in ids then Occurrences(parents[x], n) else 0
  {
    if ids == [] {
    } else {
      var rest, last := ids[..|ids| - 1], ids[|ids| - 1];
      DependentsMirrorDependencies(rest, parents, n, x);
      OccurrencesAppend(DependentsOf(rest, parents, n), last, Occurrences(parents[last], n), x);
      assert ids == rest + [last];
    }
  }

  method ReverseMap(ids: seq<ServiceId>, parents: Parents) returns (dependents: Parents)
    requires WellLinked(ids, parents)
    ensures dependents.Keys == parents.Keys
    ensures forall n :: n in dependents ==> dependents[n] == DependentsOf(ids, parents, n)
  {
    dependents := map id | id in parents :: [];
    for i := 0 to |ids|
      invariant dependents.Keys == parents.Keys
      invariant forall n :: n in dependents ==> dependents[n] == DependentsOf(ids[..i], parents, n)
    {
      assert ids[..i + 1][..i] == ids[..i];
      dependents := AddDependent(ids[i], parents[ids[i]], dependents);
    }
    assert ids[..|ids|] == ids;
  }

  method AddDependent(id: ServiceId, deps: seq<ServiceId>, before: Parents) returns (dependents: Parents)
    requires forall d :: d in deps ==> d in before
    ensures dependents.Keys == before.Keys
    ensures forall n :: n in before ==> dependents[n] == before[n] + Repeat(id, Occurrences(deps, n))
  {
    dependents := before;
    for k := 0 to |deps|
      invariant dependents.Keys == before.Keys
      invariant forall n :: n in before ==> dependents[n] == before[n] + Repeat(id, Occurrences(deps[..k], n))
    {
      assert deps[..k + 1][..k] == deps[..k];
      dependents := dependents[deps[k] := dependents[deps[k]] + [id]];
    }
    assert deps[..|deps|] == deps;
  }

  // ---- Kahn's algorithm ----

  type Degrees = map<ServiceId, nat>

  /** Degrees count the dependencies not yet ordered; the services with none left are the
      ordered and the queued ones, each once; ordered services have theirs before them. */
  ghost predicate KahnInvariant(parents: Parents, degrees: Degrees, order: seq<ServiceId>, queue: seq<ServiceId>) {
    && degrees.Keys == parents.Keys
    && Ready(degrees, order + queue)
    && Counts(parents, degrees, Elements(order))
    && DependenciesFirst(parents, order)
  }

  ghost predicate Ready(degrees: Degrees, s: seq<ServiceId>) {
    NoDuplicates(s) && forall x :: x in s <==> x in degrees && degrees[x] == 0
  }

  ghost predicate Counts(parents: Parents, degrees: Degrees, done: set<ServiceId>)
    requires degrees.Keys == parents.Keys
  {
    forall x :: x in parents ==> degrees[x] == Left(parents[x], done)
  }

  /** Lowers the degree of each child and queues those that reach zero. The saturating
      subtraction of the daemon never saturates: each child still has a positive degree. */
  method Release(
      children: seq<ServiceId>, degrees0: Degrees, queue0: seq<ServiceId>) returns (degrees: Degrees,
      queue: seq<ServiceId>)
    requires forall c :: c in children ==> c in degrees0
    requires forall x :: x in degrees0 ==> Occurrences(children, x) <= degrees0[x]
    ensures degrees.Keys == degrees0.Keys
    ensures forall x :: x in degrees ==> degrees[x] == degrees0[x] - Occurrences(children, x)
    ensures queue0 <= queue && NoDuplicates(queue[|queue0|..])
    ensures forall x :: x in queue[|queue0|..] <==> x in degrees && degrees0[x] > 0 && degrees[x] == 0
  {
    degrees, queue := degrees0, queue0;
    ghost var added: seq<ServiceId> := [];
    for k := 0 to |children|
      invariant degrees.Keys == degrees0.Keys
      invariant forall x :: x in degrees ==> degrees[x] == degrees0[x] - Occurrences(children[..k], x)
      invariant queue == queue0 + added && NoDuplicates(added)
      invariant forall x :: x in added <==> x in degrees && degrees0[x] > 0 && degrees[x] == 0
    {
      var child := children[k];
      assert children[..k + 1][..k] == children[..k];
      OccurrencesInPrefix(children, k, child);
      assert degrees[child] >= 1;
      degrees := degrees[child := SaturatingSub(degrees[child], 1)];
      if degrees[child] == 0 {
        queue := queue + [child];
        added := added + [child];
      }
    }
    assert children[..|children|] == children;
    assert queue[|queue0|..] == added;
  }

  lemma FrontIsReady(parents: Parents, degrees: Degrees, order: seq<ServiceId>, queue: seq<ServiceId>)
    requires KahnInvariant(parents, degrees, order, queue) && queue != []
    ensures queue[0] in parents && queue[0] !in order
    ensures DependenciesFirst(parents, order + [queue[0]])
  {
    var node := queue[0];
    assert (order + queue)[|order|] == node;
    forall i | 0 <= i < |order|
      ensures order[i] != node
    {
      assert (order + queue)[i] == order[i];
    }
    LeftZero(parents[node], Elements(order));
    assert (order + [node])[..|order|] == order;
  }

  /** The reverse map gives, for each service, how far its degree falls when `node` is ordered. */
  lemma DegreesFall(
      ids: seq<ServiceId>, parents: Parents, degrees: Degrees, order: seq<ServiceId>, node: ServiceId, x: ServiceId)
    requires NoDuplicates(ids) && WellLinked(ids, parents) && node !in order
    requires degrees.Keys == parents.Keys && Counts(parents, degrees, Elements(order))
    ensures x in DependentsOf(ids, parents, node) ==> x in parents
    ensures x in parents ==>
              Left(parents[x], Elements(order + [node])) ==
                  degrees[x] - Occurrences(DependentsOf(ids, parents, node), x)
  {
    DependentsMirrorDependencies(ids, parents, node, x);
    OccursIffMember(DependentsOf(ids, parents, node), x);
    assert Elements(order + [node]) == Elements(order) + {node};
    if x in parents {
      LeftAfter(parents[x], Elements(order), node);
    }
  }

  lemma ReadyAfter(before: Degrees, after: Degrees, s: seq<ServiceId>, added: seq<ServiceId>)
    requires Ready(before, s) && NoDuplicates(added) && before.Keys == after.Keys
    requires forall x :: x in before ==> after[x] <= before[x]
    requires forall x :: x in added <==> x in after && before[x] > 0 && after[x] == 0
    ensures Ready(after, s + added)
  {
    forall i, j | 0 <= i < j < |s + added|
      ensures (s + added)[i] != (s + added)[j]
    {
      if i < |s| <= j {
        assert s[i] in s && added[j - |s|] in added;
      }
    }
  }

  lemma {:induction false} LeftOfNothingDone(deps: seq<ServiceId>)
    ensures Left(deps, {}) == |deps|
  {
    if deps == [] {
    } else {
      LeftOfNothingDone(deps[..|deps| - 1]);
    }
  }

  lemma KahnStarts(parents: Parents, degrees: Degrees, queue: seq<ServiceId>)
    requires degrees.Keys == parents.Keys && Ready(degrees, queue)
    requires forall x :: x in parents ==> degrees[x] == |parents[x]|
    ensures KahnInvariant(parents, degrees, [], queue)
  {
    assert [] + queue == queue;
    assert Elements<ServiceId>([]) == {};
    forall x | x in parents
      ensures degrees[x] == Left(parents[x], {})
    {
      LeftOfNothingDone(parents[x]);
    }
  }

  lemma OrderIsBounded(parents: Parents, order: seq<ServiceId>)
    requires NoDuplicates(order) && forall x :: x in order ==> x in parents
    ensures |order| <= |parents|
    ensures |order| == |parents| ==> Elements(order) == parents.Keys
  {
    DistinctElements(order);
    SubsetIsNoLarger(Elements(order), parents.Keys);
    assert parents.Keys == Elements(order) + (parents.Keys - Elements(order));
  }

  lemma MoveFront(order: seq<ServiceId>, queue0: seq<ServiceId>, queue: seq<ServiceId>)
    requires queue0 != [] && queue0[1..] <= queue
    ensures (order + [queue0[0]]) + queue == (order + queue0) + queue[|queue0| - 1..]
  {
    var rest, added := queue0[1..], queue[|queue0| - 1..];
    assert queue == rest + added && queue0 == [queue0[0]] + rest;
  }

  lemma KahnIsBounded(parents: Parents, degrees: Degrees, order: seq<ServiceId>, queue: seq<ServiceId>)
    requires KahnInvariant(parents, degrees, order, queue)
    ensures NoDuplicates(order) && |order| <= |parents|
    ensures |order| == |parents| ==> Elements(order) == parents.Keys
  {
    var s := order + queue;
    assert forall i :: 0 <= i < |order| ==> order[i] == s[i];
    OrderIsBounded(parents, order);
  }

  /** One turn of the worklist: order the front of the queue and release its dependents. */
  method OrderFront(
      ids: seq<ServiceId>, parents: Parents, degrees0: Degrees, order: seq<ServiceId>, queue0: seq<ServiceId>,
      children: seq<ServiceId>)
    returns (degrees: Degrees, queue: seq<ServiceId>)
    requires NoDuplicates(ids) && WellLinked(ids, parents)
    requires KahnInvariant(parents, degrees0, order, queue0) && queue0 != []
    requires children == DependentsOf(ids, parents, queue0[0])
    ensures KahnInvariant(parents, degrees, order + [queue0[0]], queue)
  {
    var node := queue0[0];
    FrontIsReady(parents, degrees0, order, queue0);
    forall x
      ensures x in children ==> x in parents
      ensures x in parents ==> Left(parents[x], Elements(order + [node])) == degrees0[x] - Occurrences(children, x)
    {
      DegreesFall(ids, parents, degrees0, order, node, x);
    }
    degrees, queue := Release(children, degrees0, queue0[1..]);
    ghost var added := queue[|queue0| - 1..];
    ReadyAfter(degrees0, degrees, order + queue0, added);
    MoveFront(order, queue0, queue);
  }

  method NotOrdered(ids: seq<ServiceId>, order: seq<ServiceId>) returns (rest: seq<ServiceId>)
    ensures forall x :: x in rest <==> x in ids && x !in order
  {
    rest := [];
    for i := 0 to |ids|
      invariant forall x :: x in rest <==> x in ids[..i] && x !in order
    {
      if ids[i] !in order {
        rest := rest + [ids[i]];
      }
    }
  }

  method Seeds(ids: seq<ServiceId>, degrees: Degrees) returns (queue: seq<ServiceId>)
    requires NoDuplicates(ids) && forall id :: id in ids <==> id in degrees
    ensures Ready(degrees, queue)
  {
    queue := [];
    for i := 0 to |ids|
      invariant NoDuplicates(queue)
      invariant forall x :: x in queue <==> x in ids[..i] && degrees[x] == 0
    {
      assert ids[i] !in queue;
      if degrees[ids[i]] == 0 {
        queue := queue + [ids[i]];
      }
    }
  }

  /** When the queue is empty, either everything is ordered or the rest is entangled. */
  method Finish(
      ids: seq<ServiceId>, parents: Parents, ghost degrees: Degrees,
      order: seq<ServiceId>) returns (r: Result<seq<ServiceId>, GraphError>)
    requires NoDuplicates(ids) && WellLinked(ids, parents)
    requires KahnInvariant(parents, degrees, order, [])
    ensures r.Ok? ==> DepGraph(parents, r.value).Valid()
    ensures r.Err? ==> r.error.Cycle? && r.error.involved != [] && Entangled(parents, Elements(r.error.involved))
  {
    assert order + [] == order;
    KahnIsBounded(parents, degrees, order, []);
    DistinctElements(ids);
    assert Elements(ids) == parents.Keys;
    if |order| == |ids| {
      return Ok(order);
    }
    var involved := NotOrdered(ids, order);
    RestIsEntangled(ids, parents, degrees, order, Elements(involved));
    DistinctElements(order);
    assert involved == [] ==> Elements(order) == parents.Keys;
    return Err(Cycle(involved));
  }

  lemma RestIsEntangled(
      ids: seq<ServiceId>, parents: Parents, degrees: Degrees, order: seq<ServiceId>, rest: set<ServiceId>)
    requires WellLinked(ids, parents) && KahnInvariant(parents, degrees, order, [])
    requires forall x :: x in rest <==> x in parents && x !in order
    ensures Entangled(parents, rest)
  {
    assert order + [] == order;
    forall x | x in rest
      ensures DependsInto(parents, x, rest)
    {
      LeftZero(parents[x], Elements(order));
    }
  }

  method TopologicalSort(ids: seq<ServiceId>, parents: Parents) returns (r: Result<seq<ServiceId>, GraphError>)
    requires NoDuplicates(ids) && WellLinked(ids, parents)
    ensures r.Ok? ==> DepGraph(parents, r.value).Valid()
    ensures r.Err? ==> r.error.Cycle? && r.error.involved != [] && Entangled(parents, Elements(r.error.involved))
  {
    var degrees: Degrees := map id | id in parents :: |parents[id]|;
    var queue := Seeds(ids, degrees);
    var dependents := ReverseMap(ids, parents);
    var order: seq<ServiceId> := [];
    KahnStarts(parents, degrees, queue);
    while queue != []
      invariant KahnInvariant(parents, degrees, order, queue)
      decreases |parents| - |order|
    {
      var node := queue[0];
      FrontIsReady(parents, degrees, order, queue);
      degrees, queue := OrderFront(ids, parents, degrees, order, queue, dependents[node]);
      order := order + [node];
      KahnIsBounded(parents, degrees, order, queue);
    }
    r := Finish(ids, parents, degrees, order);
  }

  // ---- Building from the configuration ----

  function ParentsOf(services: seq<ServiceEntry>): Parents {
    if services == [] then map[]
    else
      var last := services[|services| - 1];
      ParentsOf(services[..|services| - 1])[last.id := last.dependsOn]
  }

  lemma {:induction false} ParentsOfEntries(services: seq<ServiceEntry>)
    requires UniqueIds(services)
    ensures forall s :: s in services ==> s.id in ParentsOf(services) && ParentsOf(services)[s.id] == s.dependsOn
    ensures forall id :: id in ParentsOf(services) ==> exists s :: s in services && s.id == id
  {
    if services == [] {
    } else {
      var rest, last := services[..|services| - 1], services[|services| - 1];
      ParentsOfEntries(rest);
      assert services == rest + [last];
      assert forall s :: s in rest ==> s.id != last.id;
      assert last in services;
    }
  }

  ghost predicate AllKnown(parents: Parents) {
    forall id, d :: id in parents && d in parents[id] ==> d in parents
  }

  ghost predicate FineDependency(svc: ServiceEntry, known: set<ServiceId>, d: ServiceId) {
    d in known && d != svc.id
  }

  ghost predicate FineDependencies(svc: ServiceEntry, known: set<ServiceId>) {
    forall d :: d in svc.dependsOn ==> FineDependency(svc, known, d)
  }

  /** The error is about the first dependency of the service that is unknown or the service
      itself; a dependency that is both counts as unknown. */
  ghost predicate FirstBad(svc: ServiceEntry, known: set<ServiceId>, k: nat, e: GraphError) {
    && k < |svc.dependsOn|
    && (forall j :: 0 <= j < k ==> FineDependency(svc, known, svc.dependsOn[j]))
    && !FineDependency(svc, known, svc.dependsOn[k])
    && e == if svc.dependsOn[k] !in known then UnknownDependency(svc.id, svc.dependsOn[k]) else SelfDependency(svc.id)
  }

  method CheckDependencies(svc: ServiceEntry, known: set<ServiceId>) returns (e: Option<GraphError>)
    ensures e.None? <==> FineDependencies(svc, known)
    ensures e.Some? ==> exists k :: FirstBad(svc, known, k, e.value)
  {
    for k := 0 to |svc.dependsOn|
      invariant forall j :: 0 <= j < k ==> FineDependency(svc, known, svc.dependsOn[j])
    {
      var dep := svc.dependsOn[k];
      if dep !in known {
        assert FirstBad(svc, known, k, UnknownDependency(svc.id, dep));
        assert !FineDependency(svc, known, dep);
        return Some(UnknownDependency(svc.id, dep));
      }
      if dep == svc.id {
        assert FirstBad(svc, known, k, SelfDependency(svc.id));
        assert !FineDependency(svc, known, dep);
        return Some(SelfDependency(svc.id));
      }
    }
    return None;
  }

  /** The build succeeds exactly when every dependency is a service and no chain of
      dependencies returns to its start. On success the order lists every service once,
      after all its dependencies; a reported cycle is a non-empty set of services each of
      which depends on another of them. */
  method Build(services: seq<ServiceEntry>) returns (r: Result<DepGraph, GraphError>)
    requires UniqueIds(services)
    ensures r.Ok? <==> AllKnown(ParentsOf(services)) && !HasCycle(ParentsOf(services))
    ensures r.Ok? ==> r.value.parents == ParentsOf(services) && r.value.Valid()
    ensures r.Err? && !r.error.Cycle? ==>
              exists i, k :: 0 <= i < |services| && FirstBad(services[i], ParentsOf(services).Keys, k, r.error)
                             && forall j :: 0 <= j < i ==> FineDependencies(services[j], ParentsOf(services).Keys)
    ensures r.Err? && r.error.Cycle? ==>
              r.error.involved != [] && Entangled(ParentsOf(services), Elements(r.error.involved))
  {
    hide HasCycle, Entangled, DependenciesFirst, FineDependency, DependsInto;
    var known := set s | s in services :: s.id;
    var parents: Parents := map[];
    ParentsOfEntries(services);
    assert known == ParentsOf(services).Keys;
    for i := 0 to |services|
      invariant parents == ParentsOf(services[..i])
      invariant forall j :: 0 <= j < i ==> FineDependencies(services[j], known)
    {
      var svc := services[i];
      assert services[..i + 1][..i] == services[..i];
      var bad := CheckDependencies(svc, known);
      if bad.Some? {
        ghost var k :| FirstBad(svc, known, k, bad.value);
        BadDependencyFailsBuild(services, svc, k, bad.value);
        assert FirstBad(services[i], known, k, bad.value);
        return Err(bad.value);
      }
      parents := parents[svc.id := svc.dependsOn];
    }
    assert services[..|services|] == services;
    FineIsKnown(services);
    var ids := IdsOf(services);
    var sorted := TopologicalSort(ids, parents);
    match sorted
    case Ok(order) =>
      OrderedGraphIsAcyclic(DepGraph(parents, order));
      return Ok(DepGraph(parents, order));
    case Err(e) =>
      assert e.involved[0] in Elements(e.involved);
      EntangledSetHasCycle(parents, Elements(e.involved));
      return Err(e);
  }

  lemma BadDependencyFailsBuild(services: seq<ServiceEntry>, svc: ServiceEntry, k: nat, e: GraphError)
    requires UniqueIds(services) && svc in services
    requires FirstBad(svc, ParentsOf(services).Keys, k, e)
    ensures !AllKnown(ParentsOf(services)) || HasCycle(ParentsOf(services))
  {
    ParentsOfEntries(services);
    assert svc.dependsOn[k] in svc.dependsOn;
    if e.SelfDependency? {
      assert IsCycle(ParentsOf(services), [svc.id, svc.id]);
    }
  }

  lemma FineIsKnown(services: seq<ServiceEntry>)
    requires UniqueIds(services)
    requires forall j :: 0 <= j < |services| ==> FineDependencies(services[j], ParentsOf(services).Keys)
    ensures AllKnown(ParentsOf(services))
  {
    ParentsOfEntries(services);
    forall id, d | id in ParentsOf(services) && d in ParentsOf(services)[id]
      ensures d in ParentsOf(services)
    {
      var s :| s in services && s.id == id;
      var j :| 0 <= j < |services| && services[j] == s;
      assert FineDependency(services[j], ParentsOf(services).Keys, d);
    }
  }

  method IdsOf(services: seq<ServiceEntry>) returns (ids: seq<ServiceId>)
    requires UniqueIds(services)
    ensures NoDuplicates(ids) && forall id :: id in ids <==> id in ParentsOf(services)
  {
    ids := [];
    for i := 0 to |services|
      invariant |ids| == i && forall k :: 0 <= k < i ==> ids[k] == services[k].id
    {
      ids := ids + [services[i].id];
    }
    ParentsOfEntries(services);
    forall id
      ensures id in ids <==> id in ParentsOf(services)
    {
      if id in ParentsOf(services) {
        var s :| s in services && s.id == id;
        var k :| 0 <= k < |services| && services[k] == s;
        assert ids[k] == id;
      }
    }
  }
}
