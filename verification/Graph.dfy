/** The service dependency graph: what its orders, cycles and root causes mean (src/graph.rs). */
module Graph {
  import opened Model
  import opened Wrappers

  /** For each service, the services it depends on, in configuration order. */
  type Parents = map<ServiceId, seq<ServiceId>>

  datatype GraphError =
    | UnknownDependency(service: ServiceId, dependency: ServiceId)
    | SelfDependency(service: ServiceId)
    | Cycle(involved: seq<ServiceId>)

  datatype DepGraph = DepGraph(parents: Parents, topoOrder: seq<ServiceId>) {
    /** What a successful build guarantees. */
    ghost predicate Valid() {
      && NoDuplicates(topoOrder)
      && (forall id :: id in topoOrder <==> id in parents)
      && DependenciesFirst(parents, topoOrder)
    }

    function DependenciesOf(id: ServiceId): seq<ServiceId> {
      if id in parents then parents[id] else []
    }
  }

  /** The graphs a successful build returns, the only ones the daemon works with. */
  type BuiltGraph = g: DepGraph | g.Valid() witness DepGraph(map[], [])

  ghost predicate NoDuplicates<T>(s: seq<T>) {
    forall i, j :: 0 <= i < j < |s| ==> s[i] != s[j]
  }

  function Elements<T(!new)>(s: seq<T>): (e: set<T>)
    ensures forall x :: x in e <==> x in s
  {
    set x | x in s
  }

  /** Every service comes after everything it depends on. */
  ghost predicate DependenciesFirst(parents: Parents, order: seq<ServiceId>) {
    order != [] ==>
      var rest, last := order[..|order| - 1], order[|order| - 1];
      DependenciesFirst(parents, rest) && last in parents && forall d :: d in parents[last] ==> d in rest
  }

  /** Each element of a walk depends on the next. */
  ghost predicate Walk(parents: Parents, w: seq<ServiceId>) {
    forall i :: 0 <= i < |w| - 1 ==> w[i] in parents && w[i + 1] in parents[w[i]]
  }

  ghost predicate IsCycle(parents: Parents, w: seq<ServiceId>) {
    |w| >= 2 && Walk(parents, w) && w[0] == w[|w| - 1]
  }

  ghost predicate HasCycle(parents: Parents) {
    exists w :: IsCycle(parents, w)
  }

  ghost predicate DependsInto(parents: Parents, x: ServiceId, s: set<ServiceId>) {
    x in parents && exists d :: d in parents[x] && d in s
  }

  /** Every member depends on another member. */
  ghost predicate Entangled(parents: Parents, s: set<ServiceId>) {
    forall x {:trigger DependsInto(parents, x, s)} :: x in s ==> DependsInto(parents, x, s)
  }

  // ---- A dependency-first order and a cycle exclude each other ----

  function IndexOf(order: seq<ServiceId>, id: ServiceId): (k: nat)
    requires id in order
    ensures k < |order| && order[k] == id
  {
    if order[0] == id then 0 else 1 + IndexOf(order[1..], id)
  }

  lemma {:induction false} DependencyComesBefore(parents: Parents, order: seq<ServiceId>, id: ServiceId, d: ServiceId)
    requires DependenciesFirst(parents, order) && NoDuplicates(order)
    requires id in order && id in parents && d in parents[id]
    ensures d in order && IndexOf(order, d) < IndexOf(order, id)
  {
    var rest, last := order[..|order| - 1], order[|order| - 1];
    assert order == rest + [last];
    if id == last {
      assert order[IndexOf(order, d)] != last;
    } else {
      DependencyComesBefore(parents, rest, id, d);
      IndexInPrefix(rest, last, id);
      IndexInPrefix(rest, last, d);
    }
  }

  lemma {:induction false} IndexInPrefix(s: seq<ServiceId>, last: ServiceId, id: ServiceId)
    requires id in s
    ensures IndexOf(s + [last], id) == IndexOf(s, id)
  {
    if s[0] != id {
      IndexInPrefix(s[1..], last, id);
      assert (s + [last])[1..] == s[1..] + [last];
    }
  }

  lemma {:induction false} WalkDescends(g: BuiltGraph, w: seq<ServiceId>)
    requires |w| >= 2 && Walk(g.parents, w)
    ensures w[0] in g.topoOrder && w[|w| - 1] in g.topoOrder
    ensures IndexOf(g.topoOrder, w[|w| - 1]) < IndexOf(g.topoOrder, w[0])
  {
    DependencyComesBefore(g.parents, g.topoOrder, w[0], w[1]);
    if |w| > 2 {
      WalkDescends(g, w[1..]);
    }
  }

  lemma OrderedGraphIsAcyclic(g: BuiltGraph)
    ensures !HasCycle(g.parents)
  {
    forall w | |w| >= 2 && Walk(g.parents, w)
      ensures w[0] != w[|w| - 1]
    {
      WalkDescends(g, w);
    }
  }

  lemma {:induction false} DistinctElements<T(!new)>(s: seq<T>)
    requires NoDuplicates(s)
    ensures |Elements(s)| == |s|
  {
    if s == [] {
    } else {
      var rest, last := s[..|s| - 1], s[|s| - 1];
      DistinctElements(rest);
      assert s == rest + [last];
      assert last !in Elements(rest);
      assert Elements(s) == Elements(rest) + {last};
    }
  }

  lemma SubsetIsNoLarger<T>(a: set<T>, b: set<T>)
    requires a <= b
    ensures |a| <= |b|
  {
    assert |b| == |a| + |b - a| by {
      assert b == a + (b - a);
    }
  }

  lemma {:induction false} LongWalk(
      parents: Parents, s: set<ServiceId>, start: ServiceId, n: nat) returns (w: seq<ServiceId>)
    requires Entangled(parents, s) && start in s
    ensures |w| == n + 1 && Walk(parents, w) && w[0] == start
    ensures forall x :: x in w ==> x in s
    decreases n
  {
    if n == 0 {
      w := [start];
    } else {
      assert DependsInto(parents, start, s);
      var next :| next in parents[start] && next in s;
      var rest := LongWalk(parents, s, next, n - 1);
      w := [start] + rest;
    }
  }

  lemma EntangledSetHasCycle(parents: Parents, s: set<ServiceId>)
    requires Entangled(parents, s) && s != {}
    ensures HasCycle(parents)
  {
    var start :| start in s;
    var w := LongWalk(parents, s, start, |s|);
    if NoDuplicates(w) {
      DistinctElements(w);
      SubsetIsNoLarger(Elements(w), s);
      assert false;
    }
    var i: nat, j: nat :| 0 <= i < j < |w| && w[i] == w[j];
    assert IsCycle(parents, w[i..j + 1]);
  }

  // ---- Root causes ----

  /** The first unhealthy dependency, in configuration order. */
  function FirstIn(deps: seq<ServiceId>, unhealthy: set<ServiceId>): (r: Option<ServiceId>)
    ensures r.None? <==> forall d :: d in deps ==> d !in unhealthy
    ensures r.Some? ==> r.value in deps && r.value in unhealthy
  {
    if deps == [] then None
    else if deps[0] in unhealthy then Some(deps[0])
    else FirstIn(deps[1..], unhealthy)
  }

  predicate IsBlocked(g: BuiltGraph, unhealthy: set<ServiceId>, id: ServiceId) {
    FirstIn(g.DependenciesOf(id), unhealthy).Some?
  }

  ghost function Depth(g: BuiltGraph, id: ServiceId): nat {
    if id in g.topoOrder then IndexOf(g.topoOrder, id) + 1 else 0
  }

  lemma DependencyIsShallower(g: BuiltGraph, id: ServiceId, d: ServiceId)
    requires d in g.DependenciesOf(id)
    ensures Depth(g, d) < Depth(g, id)
  {
    WalkDescends(g, [id, d]);
  }

  /** The end of the walk along first unhealthy dependencies. */
  ghost function RootCause(g: BuiltGraph, unhealthy: set<ServiceId>, id: ServiceId): ServiceId
    decreases Depth(g, id)
  {
    match FirstIn(g.DependenciesOf(id), unhealthy)
    case None => id
    case Some(d) => DependencyIsShallower(g, id, d); RootCause(g, unhealthy, d)
  }

  ghost function RootCauses(g: BuiltGraph, unhealthy: set<ServiceId>): set<ServiceId> {
    set id | id in unhealthy && !IsBlocked(g, unhealthy, id)
  }

  ghost function Blocked(g: BuiltGraph, unhealthy: set<ServiceId>): map<ServiceId, ServiceId>
  {
    map id | id in unhealthy && IsBlocked(g, unhealthy, id) :: RootCause(g, unhealthy, id)
  }

  /** A chain of unhealthy dependencies leads from a service to its root cause, which has
      no unhealthy dependency itself. */
  lemma {:induction false} RootCauseIsReached(
      g: BuiltGraph, unhealthy: set<ServiceId>, id: ServiceId) returns (w: seq<ServiceId>)
    requires id in unhealthy
    ensures RootCause(g, unhealthy, id) in RootCauses(g, unhealthy)
    ensures |w| >= 1 && Walk(g.parents, w) && w[0] == id && w[|w| - 1] == RootCause(g, unhealthy, id)
    ensures forall x :: x in w ==> x in unhealthy
    decreases Depth(g, id)
  {
    match FirstIn(g.DependenciesOf(id), unhealthy)
    case None => w := [id];
    case Some(d) =>
      DependencyIsShallower(g, id, d);
      var rest := RootCauseIsReached(g, unhealthy, d);
      w := [id] + rest;
  }

  ghost predicate ChainOfFailures(
      g: BuiltGraph, unhealthy: set<ServiceId>, w: seq<ServiceId>, from: ServiceId, to: ServiceId) {
    |w| >= 2 && Walk(g.parents, w) && w[0] == from && w[|w| - 1] == to && forall x :: x in w ==> x in unhealthy
  }

  /** Classification splits the unhealthy services in two: root causes are exactly those
      with no unhealthy direct dependency; every other one is mapped to a root cause at
      the end of a chain of unhealthy dependencies. */
  lemma ClassificationPartitions(g: BuiltGraph, unhealthy: set<ServiceId>)
    ensures RootCauses(g, unhealthy) + Blocked(g, unhealthy).Keys == unhealthy
    ensures RootCauses(g, unhealthy) !! Blocked(g, unhealthy).Keys
    ensures forall id :: id in RootCauses(g, unhealthy) <==>
              id in unhealthy && forall d :: d in g.DependenciesOf(id) ==> d !in unhealthy
    ensures forall id :: id in Blocked(g, unhealthy) ==>
              && Blocked(g, unhealthy)[id] in RootCauses(g, unhealthy)
              && exists w :: ChainOfFailures(g, unhealthy, w, id, Blocked(g, unhealthy)[id])
  {
    forall id | id in Blocked(g, unhealthy)
      ensures Blocked(g, unhealthy)[id] in RootCauses(g, unhealthy)
      ensures exists w :: ChainOfFailures(g, unhealthy, w, id, Blocked(g, unhealthy)[id])
    {
      var w := RootCauseIsReached(g, unhealthy, id);
      assert ChainOfFailures(g, unhealthy, w, id, Blocked(g, unhealthy)[id]);
    }
  }

  // ---- Classification as the daemon computes it ----

  /** The walk of the daemon, with its guard against cycles: the guard is never taken. */
  method FindRootCause(g: BuiltGraph, start: ServiceId, unhealthy: set<ServiceId>) returns (root: ServiceId)
    ensures root == RootCause(g, unhealthy, start)
  {
    var current := start;
    var visited: set<ServiceId> := {};
    while true
      invariant forall x :: x in visited ==> Depth(g, x) > Depth(g, current)
      invariant RootCause(g, unhealthy, current) == RootCause(g, unhealthy, start)
      decreases Depth(g, current)
    {
      if current in visited {
        assert false;
      }
      visited := visited + {current};
      var parent := FirstIn(g.DependenciesOf(current), unhealthy);
      if parent == None {
        return current;
      }
      DependencyIsShallower(g, current, parent.value);
      current := parent.value;
    }
  }

  ghost function RootsAmong(g: BuiltGraph, all: set<ServiceId>, s: seq<ServiceId>): seq<ServiceId> {
    if s == [] then []
    else RootsAmong(g, all, s[..|s| - 1]) + if IsBlocked(g, all, s[|s| - 1]) then [] else [s[|s| - 1]]
  }

  ghost function BlockedAmong(g: BuiltGraph, all: set<ServiceId>, s: seq<ServiceId>): map<ServiceId, ServiceId>
  {
    if s == [] then map[]
    else
      var id := s[|s| - 1];
      var before := BlockedAmong(g, all, s[..|s| - 1]);
      if IsBlocked(g, all, id) then before[id := RootCause(g, all, id)] else before
  }

  lemma {:induction false} AmongMembers(g: BuiltGraph, all: set<ServiceId>, s: seq<ServiceId>)
    ensures forall id :: id in RootsAmong(g, all, s) <==> id in s && !IsBlocked(g, all, id)
    ensures forall id :: id in BlockedAmong(g, all, s) <==> id in s && IsBlocked(g, all, id)
    ensures forall id :: id in BlockedAmong(g, all, s) ==> BlockedAmong(g, all, s)[id] == RootCause(g, all, id)
  {
    if s == [] {
    } else {
      var rest := s[..|s| - 1];
      AmongMembers(g, all, rest);
      assert s == rest + [s[|s| - 1]];
    }
  }

  lemma AmongIsClassification(g: BuiltGraph, s: seq<ServiceId>)
    ensures Elements(RootsAmong(g, Elements(s), s)) == RootCauses(g, Elements(s))
    ensures BlockedAmong(g, Elements(s), s) == Blocked(g, Elements(s))
  {
    AmongMembers(g, Elements(s), s);
  }

  /** `unhealthy` in the order its set is iterated. */
  method ClassifyFailures(
      g: BuiltGraph, unhealthy: seq<ServiceId>) returns (rootCauses: seq<ServiceId>, blocked: map<ServiceId, ServiceId>)
    ensures Elements(rootCauses) == RootCauses(g, Elements(unhealthy))
    ensures blocked == Blocked(g, Elements(unhealthy))
  {
    var all := Elements(unhealthy);
    rootCauses, blocked := [], map[];
    for k := 0 to |unhealthy|
      invariant rootCauses == RootsAmong(g, all, unhealthy[..k])
      invariant blocked == BlockedAmong(g, all, unhealthy[..k])
    {
      var id := unhealthy[k];
      assert unhealthy[..k + 1][..k] == unhealthy[..k];
      if FirstIn(g.DependenciesOf(id), all).Some? {
        var root := FindRootCause(g, id, all);
        blocked := blocked[id := root];
      } else {
        rootCauses := rootCauses + [id];
      }
    }
    assert unhealthy[..|unhealthy|] == unhealthy;
    AmongIsClassification(g, unhealthy);
  }
}
