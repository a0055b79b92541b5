/** The durable outbox of alerts and the cache that suppresses repeated ones (src/notify.rs). */
module Outbox {
  import opened Wrappers

  /** The digest of an alert's title and body, taken as its identity. */
  type AlertId = string

  datatype Entry = Entry(id: AlertId, createdAt: nat, delivered: bool)

  // ---- Sorting by creation time ----

  /** The place behind the entries that are not newer. */
  function Place(s: seq<Entry>, e: Entry): (p: nat)
    ensures p <= |s|
  {
    if s == [] || s[|s| - 1].createdAt <= e.createdAt then |s| else Place(s[..|s| - 1], e)
  }

  function Insert(s: seq<Entry>, e: Entry): seq<Entry> {
    s[..Place(s, e)] + [e] + s[Place(s, e)..]
  }

  /** The stable sort of the standard library. */
  function StableSort(s: seq<Entry>): (r: seq<Entry>)
    ensures |r| == |s|
  {
    if s == [] then [] else Insert(StableSort(s[..|s| - 1]), s[|s| - 1])
  }

  ghost predicate Ordered(s: seq<Entry>) {
    forall i, j :: 0 <= i < j < |s| ==> s[i].createdAt <= s[j].createdAt
  }

  lemma {:induction false} PlaceSplits(s: seq<Entry>, e: Entry)
    requires Ordered(s)
    ensures forall i :: 0 <= i < Place(s, e) ==> s[i].createdAt <= e.createdAt
    ensures forall i :: Place(s, e) <= i < |s| ==> s[i].createdAt > e.createdAt
  {
    if s == [] || s[|s| - 1].createdAt <= e.createdAt {
    } else {
      PlaceSplits(s[..|s| - 1], e);
    }
  }

  lemma {:induction false} SortOrders(s: seq<Entry>)
    ensures Ordered(StableSort(s))
  {
    if s == [] {
    } else {
      SortOrders(s[..|s| - 1]);
      PlaceSplits(StableSort(s[..|s| - 1]), s[|s| - 1]);
    }
  }

  lemma InsertPermutes(s: seq<Entry>, e: Entry)
    ensures multiset(Insert(s, e)) == multiset(s) + multiset{e}
  {
    assert s == s[..Place(s, e)] + s[Place(s, e)..];
  }

  lemma {:induction false} SortPermutes(s: seq<Entry>)
    ensures multiset(StableSort(s)) == multiset(s)
  {
    hide Insert;
    if s == [] {
    } else {
      SortPermutes(s[..|s| - 1]);
      InsertPermutes(StableSort(s[..|s| - 1]), s[|s| - 1]);
      assert s == s[..|s| - 1] + [s[|s| - 1]];
    }
  }

  /** The entries created at one instant, in order. */
  function CreatedAt(s: seq<Entry>, t: nat): seq<Entry> {
    if s == [] then []
    else (if s[0].createdAt == t then [s[0]] else []) + CreatedAt(s[1..], t)
  }

  lemma {:induction false} CreatedAppend(a: seq<Entry>, b: seq<Entry>, t: nat)
    ensures CreatedAt(a + b, t) == CreatedAt(a, t) + CreatedAt(b, t)
  {
    if a == [] {
      assert a + b == b;
    } else {
      CreatedAppend(a[1..], b, t);
      assert (a + b)[0] == a[0] && (a + b)[1..] == a[1..] + b;
      var head := if a[0].createdAt == t then [a[0]] else [];
      assert head + (CreatedAt(a[1..], t) + CreatedAt(b, t)) == (head + CreatedAt(a[1..], t)) + CreatedAt(b, t);
    }
  }

  lemma {:induction false} NoneCreated(s: seq<Entry>, t: nat)
    requires forall i :: 0 <= i < |s| ==> s[i].createdAt != t
    ensures CreatedAt(s, t) == []
  {
    if s == [] {
    } else {
      NoneCreated(s[1..], t);
    }
  }

  /** Entries created at the same instant keep their order. */
  lemma {:induction false} SortIsStable(s: seq<Entry>, t: nat)
    ensures CreatedAt(StableSort(s), t) == CreatedAt(s, t)
  {
    hide StableSort, CreatedAt;
    if s == [] {
      assert StableSort(s) == s;
    } else {
      var rest, e := s[..|s| - 1], s[|s| - 1];
      SortIsStable(rest, t);
      SortOrders(rest);
      InsertIsStable(StableSort(rest), e, t);
      assert s == rest + [e];
      CreatedAppend(rest, [e], t);
      SortUnfolds(s);
    }
  }

  lemma SortUnfolds(s: seq<Entry>)
    requires s != []
    ensures StableSort(s) == Insert(StableSort(s[..|s| - 1]), s[|s| - 1])
  {
  }

  lemma InsertIsStable(r: seq<Entry>, e: Entry, t: nat)
    requires Ordered(r)
    ensures CreatedAt(Insert(r, e), t) == CreatedAt(r, t) + CreatedAt([e], t)
  {
    hide CreatedAt;
    var p := Place(r, e);
    var front, back := r[..p], r[p..];
    PlaceSplits(r, e);
    assert r == front + back;
    CreatedAppend(front, back, t);
    CreatedAppend(front + [e], back, t);
    CreatedAppend(front, [e], t);
    if e.createdAt == t {
      NoneCreated(back, t);
      assert CreatedAt(r, t) == CreatedAt(front, t);
    } else {
      NoneCreated([e], t);
    }
  }

  lemma SortMembers(s: seq<Entry>)
    ensures forall e :: e in StableSort(s) <==> e in s
  {
    SortPermutes(s);
    forall e
      ensures e in StableSort(s) <==> e in s
    {
      assert e in multiset(StableSort(s)) <==> e in multiset(s);
    }
  }

  lemma {:induction false} SortKeepsUnique(s: seq<Entry>)
    requires UniqueIds(s)
    ensures UniqueIds(StableSort(s))
  {
    if s == [] {
    } else {
      var rest, e := s[..|s| - 1], s[|s| - 1];
      SortKeepsUnique(rest);
      SortMembers(rest);
      forall i | 0 <= i < |rest|
        ensures StableSort(rest)[i].id != e.id
      {
        assert StableSort(rest)[i] in rest;
      }
    }
  }

  // ---- Compaction ----

  function CountDelivered(s: seq<Entry>): (n: nat)
    ensures n <= |s|
  {
    if s == [] then 0 else (if s[0].delivered then 1 else 0) + CountDelivered(s[1..])
  }

  /** Drops the first `k` delivered entries. */
  function DropDelivered(s: seq<Entry>, k: nat): (r: seq<Entry>)
    requires k <= CountDelivered(s)
    ensures |r| == |s| - k
  {
    if s == [] || k == 0 then s
    else if s[0].delivered then DropDelivered(s[1..], k - 1)
    else [s[0]] + DropDelivered(s[1..], k)
  }

  function Min(a: nat, b: nat): nat {
    if a <= b then a else b
  }

  /** Above `max`: in order of creation, the oldest delivered entries go first, and only if
      those do not suffice, the oldest of the rest. */
  function Compacted(s: seq<Entry>, max: nat): seq<Entry> {
    if |s| <= max then s
    else
      var sorted, excess := StableSort(s), |s| - max;
      var k := Min(CountDelivered(sorted), excess);
      DropDelivered(sorted, k)[excess - k..]
  }

  /** The index of the first delivered entry. */
  function Position(s: seq<Entry>): (p: Option<nat>)
    ensures p.Some? ==> p.value < |s| && s[p.value].delivered
    ensures p.None? <==> CountDelivered(s) == 0
  {
    if s == [] then None
    else if s[0].delivered then Some(0)
    else
      var p := Position(s[1..]);
      if p.None? then None else Some(p.value + 1)
  }

  function Without(s: seq<Entry>, p: nat): seq<Entry>
    requires p < |s|
  {
    s[..p] + s[p + 1..]
  }

  lemma {:induction false} DropCounts(s: seq<Entry>, k: nat)
    requires k <= CountDelivered(s)
    ensures CountDelivered(DropDelivered(s, k)) == CountDelivered(s) - k
  {
    if s == [] || k == 0 {
    } else {
      DropCounts(s[1..], if s[0].delivered then k - 1 else k);
      if !s[0].delivered {
        assert ([s[0]] + DropDelivered(s[1..], k))[1..] == DropDelivered(s[1..], k);
      }
    }
  }

  /** Removing the first delivered entry drops one more. */
  lemma {:induction false} DropNext(s: seq<Entry>, k: nat)
    requires k < CountDelivered(s)
    ensures var r := DropDelivered(s, k);
            Position(r).Some? && Without(r, Position(r).value) == DropDelivered(s, k + 1)
  {
    DropCounts(s, k);
    if s[0].delivered {
      if k > 0 {
        DropNext(s[1..], k - 1);
      }
    } else {
      DropNext(s[1..], k);
      BehindUndelivered(s[0], DropDelivered(s[1..], k));
      assert DropDelivered(s, k) == [s[0]] + DropDelivered(s[1..], k);
    }
  }

  lemma BehindUndelivered(e: Entry, rest: seq<Entry>)
    requires !e.delivered && Position(rest).Some?
    ensures Position([e] + rest) == Some(Position(rest).value + 1)
    ensures Without([e] + rest, Position(rest).value + 1) == [e] + Without(rest, Position(rest).value)
  {
    assert ([e] + rest)[1..] == rest;
    WithoutBehind(e, rest, Position(rest).value);
  }

  lemma WithoutBehind(e: Entry, rest: seq<Entry>, p: nat)
    requires p < |rest|
    ensures Without([e] + rest, p + 1) == [e] + Without(rest, p)
  {
    assert ([e] + rest)[..p + 1] == [e] + rest[..p] && ([e] + rest)[p + 2..] == rest[p + 1..];
  }

  lemma InsertCounts(r: seq<Entry>, e: Entry)
    ensures CountDelivered(Insert(r, e)) == CountDelivered(r) + CountDelivered([e])
  {
    hide CountDelivered;
    var front, back := r[..Place(r, e)], r[Place(r, e)..];
    assert r == front + back;
    CountAppend(front, back);
    CountAppend(front + [e], back);
    CountAppend(front, [e]);
  }

  lemma {:induction false} SortCounts(s: seq<Entry>)
    ensures CountDelivered(StableSort(s)) == CountDelivered(s)
  {
    hide Insert, CountDelivered;
    if s != [] {
      var rest, e := s[..|s| - 1], s[|s| - 1];
      SortCounts(rest);
      InsertCounts(StableSort(rest), e);
      CountAppend(rest, [e]);
      assert s == rest + [e];
    } else {
      assert StableSort(s) == s;
    }
  }

  lemma {:induction false} CountAppend(a: seq<Entry>, b: seq<Entry>)
    ensures CountDelivered(a + b) == CountDelivered(a) + CountDelivered(b)
  {
    if a == [] {
      assert a + b == b;
    } else {
      assert (a + b)[1..] == a[1..] + b;
      CountAppend(a[1..], b);
    }
  }

  /** What is left of ordered entries once `i` delivered and then `j` other ones are evicted. */
  ghost predicate Evicted(sorted: seq<Entry>, i: nat, j: nat, left: seq<Entry>) {
    && i <= CountDelivered(sorted) && (j > 0 ==> i == CountDelivered(sorted))
    && i + j <= |sorted| && left == DropDelivered(sorted, i)[j..]
    && CountDelivered(left) == CountDelivered(sorted) - i
  }

  lemma EvictionStarts(sorted: seq<Entry>)
    ensures Evicted(sorted, 0, 0, sorted)
  {
  }

  lemma EvictionGoesOn(sorted: seq<Entry>, i: nat, j: nat, left: seq<Entry>)
    requires Evicted(sorted, i, j, left) && left != []
    ensures var p := Position(left);
            if p.Some? then Evicted(sorted, i + 1, j, Without(left, p.value)) else Evicted(sorted, i, j + 1, left[1..])
  {
    if CountDelivered(left) > 0 {
      hide CountDelivered, DropDelivered;
      assert j == 0 && left == DropDelivered(sorted, i);
      DropNext(sorted, i);
      DropCounts(sorted, i + 1);
    } else {
      hide DropDelivered;
      assert left[1..] == DropDelivered(sorted, i)[j + 1..];
    }
  }

  lemma EvictionCounts(s: seq<Entry>, i: nat, j: nat, left: seq<Entry>, max: nat)
    requires |s| > max && Evicted(StableSort(s), i, j, left) && |left| == max
    ensures i == Min(CountDelivered(s), |s| - max) && i + j == |s| - max
    ensures j > 0 <==> |s| - CountDelivered(s) > max
  {
    hide StableSort, DropDelivered, CountDelivered;
    SortCounts(s);
  }

  lemma EvictionEnds(s: seq<Entry>, i: nat, j: nat, left: seq<Entry>, max: nat)
    requires |s| > max && Evicted(StableSort(s), i, j, left) && |left| == max
    ensures left == Compacted(s, max)
  {
    hide StableSort, DropDelivered, CountDelivered, Min;
    SortCounts(s);
    EvictionCounts(s, i, j, left, max);
  }

  lemma {:induction false} DropMembers(s: seq<Entry>, k: nat)
    requires k <= CountDelivered(s)
    ensures forall e :: e in DropDelivered(s, k) ==> e in s
    ensures forall e :: e in s && !e.delivered ==> e in DropDelivered(s, k)
    ensures k == CountDelivered(s) ==> forall e :: e in DropDelivered(s, k) ==> !e.delivered
  {
    if s == [] {
    } else {
      assert s == [s[0]] + s[1..];
      if k == 0 {
        DropMembers(s[1..], 0);
      } else {
        DropMembers(s[1..], if s[0].delivered then k - 1 else k);
      }
    }
  }

  lemma HeadIsOldest(s: seq<Entry>)
    requires Ordered(s) && s != []
    ensures Ordered(s[1..]) && forall y :: y in s ==> s[0].createdAt <= y.createdAt
  {
  }

  lemma {:induction false} DropOrders(s: seq<Entry>, k: nat)
    requires Ordered(s) && k <= CountDelivered(s)
    ensures Ordered(DropDelivered(s, k))
  {
    if s == [] || k == 0 {
    } else {
      HeadIsOldest(s);
      DropOrders(s[1..], if s[0].delivered then k - 1 else k);
      DropMembers(s[1..], if s[0].delivered then k - 1 else k);
    }
  }

  lemma {:induction false} DropOldest(s: seq<Entry>, k: nat, x: Entry, y: Entry)
    requires Ordered(s) && k <= CountDelivered(s)
    requires x in s && x.delivered && x !in DropDelivered(s, k) && y in DropDelivered(s, k) && y.delivered
    ensures x.createdAt <= y.createdAt
  {
    var k1 := if s[0].delivered then k - 1 else k;
    HeadIsOldest(s);
    DropMembers(s, k);
    if x != s[0] {
      assert s == [s[0]] + s[1..];
      DropOldest(s[1..], k1, x, y);
    }
  }

  lemma TailIsNewer(s: seq<Entry>, j: nat)
    requires Ordered(s) && j <= |s|
    ensures forall e :: e in s[j..] ==> e in s
    ensures forall x, y :: x in s && x !in s[j..] && y in s[j..] ==> x.createdAt <= y.createdAt
  {
    forall x, y | x in s && x !in s[j..] && y in s[j..]
      ensures x.createdAt <= y.createdAt
    {
      var a :| 0 <= a < |s| && s[a] == x;
      var b :| 0 <= b < |s| - j && s[j..][b] == y;
      assert forall i :: j <= i < |s| ==> s[i] == s[j..][i - j];
    }
  }

  /** What compaction keeps: exactly `max` entries; every undelivered one if there are no
      more than `max`, and else only undelivered ones, no older than any that was lost; and
      a delivered entry goes only if no older delivered one stays. */
  lemma CompactionEvictsOldest(s: seq<Entry>, max: nat)
    requires |s| > max
    ensures var r := Compacted(s, max);
            && |r| == max
            && (forall e :: e in r ==> e in s)
            && (forall x, y :: x in s && x.delivered && x !in r && y in r && y.delivered ==> x.createdAt <= y.createdAt)
            && (|s| - CountDelivered(s) <= max ==> forall e :: e in s && !e.delivered ==> e in r)
            && (forall x, y :: x in s && !x.delivered && x !in r && y in r ==>
                !y.delivered && x.createdAt <= y.createdAt)
  {
    hide StableSort, DropDelivered, CountDelivered, Ordered;
    var sorted, excess := StableSort(s), |s| - max;
    SortMembers(s);
    SortOrders(s);
    SortCounts(s);
    var k := Min(CountDelivered(sorted), excess);
    var left := DropDelivered(sorted, k);
    DropMembers(sorted, k);
    DropOrders(sorted, k);
    forall x, y | x in sorted && x.delivered && x !in left && y in left && y.delivered
      ensures x.createdAt <= y.createdAt
    {
      DropOldest(sorted, k, x, y);
    }
    TailIsNewer(left, excess - k);
    if k == excess {
      assert left[0..] == left;
    }
  }

  // ---- Loading ----

  /** For each id the latest record of a file; among records of one instant the first. */
  function Latest(lines: seq<Entry>): (m: map<AlertId, Entry>)
    ensures forall id :: id in m ==> m[id].id == id
  {
    if lines == [] then map[]
    else
      var m, e := Latest(lines[..|lines| - 1]), lines[|lines| - 1];
      if e.id in m && m[e.id].createdAt >= e.createdAt then m else m[e.id := e]
  }

  ghost predicate UniqueIds(s: seq<Entry>) {
    forall i, j :: 0 <= i < j < |s| ==> s[i].id != s[j].id
  }

  /** What a process may hold in memory after loading a file: one record per id, the latest,
      ordered by creation time; records of one instant come in any order. */
  ghost predicate Loaded(lines: seq<Entry>, entries: seq<Entry>) {
    && Ordered(entries) && UniqueIds(entries)
    && forall e :: e in entries <==> e.id in Latest(lines) && Latest(lines)[e.id] == e
  }

  lemma {:induction false} LatestIsNewest(lines: seq<Entry>)
    ensures forall id :: id in Latest(lines) ==> Latest(lines)[id] in lines
    ensures forall e :: e in lines ==> e.id in Latest(lines) && e.createdAt <= Latest(lines)[e.id].createdAt
  {
    if lines == [] {
    } else {
      var rest := lines[..|lines| - 1];
      LatestIsNewest(rest);
      assert lines == rest + [lines[|lines| - 1]];
    }
  }

  /** An appended record survives collapsing exactly when it is strictly newer than every
      other record of its id. */
  lemma AppendSurvivesCollapse(s: seq<Entry>, e: Entry)
    requires e !in s
    ensures e.id in Latest(s + [e])
    ensures Latest(s + [e])[e.id] == e <==> forall x :: x in s && x.id == e.id ==> x.createdAt < e.createdAt
  {
    assert (s + [e])[..|s|] == s;
    LatestIsNewest(s);
  }

  // ---- Marking ----

  /** Marks the first entry of an id. */
  function Marked(s: seq<Entry>, id: AlertId): seq<Entry> {
    if s == [] then []
    else if s[0].id == id then [s[0].(delivered := true)] + s[1..]
    else [s[0]] + Marked(s[1..], id)
  }

  /** The first entry of the id stands here. */
  ghost predicate FirstAt(s: seq<Entry>, id: AlertId, k: nat) {
    k < |s| && s[k].id == id && forall j :: 0 <= j < k ==> s[j].id != id
  }

  /** Exactly the first entry of the id is delivered now, and nothing else has changed. */
  ghost predicate FirstDelivered(before: seq<Entry>, after: seq<Entry>, id: AlertId) {
    && |after| == |before|
    && forall k :: 0 <= k < |before| ==>
         after[k] == if FirstAt(before, id, k) then Entry(id, before[k].createdAt, true) else before[k]
  }

  lemma {:induction false} MarkedIsDelivered(s: seq<Entry>, id: AlertId)
    ensures FirstDelivered(s, Marked(s, id), id)
  {
    if s == [] {
    } else {
      var rest := s[1..];
      MarkedIsDelivered(rest, id);
      forall k | 0 <= k < |s|
        ensures Marked(s, id)[k] == if FirstAt(s, id, k) then Entry(id, s[k].createdAt, true) else s[k]
      {
        if k > 0 {
          assert s[k] == rest[k - 1];
          FirstFurtherOn(s, id, k);
        }
      }
    }
  }

  lemma FirstFurtherOn(s: seq<Entry>, id: AlertId, k: nat)
    requires 0 < k < |s|
    ensures FirstAt(s, id, k) <==> s[0].id != id && FirstAt(s[1..], id, k - 1)
  {
    assert forall j :: 0 < j < |s| ==> s[j] == s[1..][j - 1];
  }

  lemma MarkedInPlace(s: seq<Entry>, id: AlertId, i: nat)
    requires i <= |s| && (forall j :: 0 <= j < i ==> s[j].id != id) && (i < |s| ==> s[i].id == id)
    ensures Marked(s, id) == if i < |s| then s[i := s[i].(delivered := true)] else s
  {
    hide Marked;
    MarkedIsDelivered(s, id);
  }

  // ---- Owing ----

  /** The latest entry of the id is undelivered: a start that loads the entries sends it. */
  predicate Owing(s: seq<Entry>, id: AlertId) {
    id in Latest(s) && !Latest(s)[id].delivered
  }

  /** The first entry of the id. */
  function FirstOf(s: seq<Entry>, id: AlertId): Option<Entry> {
    if s == [] then None else if s[0].id == id then Some(s[0]) else FirstOf(s[1..], id)
  }

  lemma {:induction false} FirstAppend(a: seq<Entry>, b: seq<Entry>, id: AlertId)
    ensures FirstOf(a + b, id) == if FirstOf(a, id).Some? then FirstOf(a, id) else FirstOf(b, id)
  {
    if a == [] {
      assert a + b == b;
    } else {
      assert (a + b)[1..] == a[1..] + b;
      FirstAppend(a[1..], b, id);
    }
  }

  lemma FirstUnfolds(s: seq<Entry>, t: nat, id: AlertId)
    requires s != []
    ensures FirstOf(CreatedAt(s, t), id) ==
            if s[0].createdAt == t && s[0].id == id then Some(s[0]) else FirstOf(CreatedAt(s[1..], t), id)
  {
    FirstAppend(if s[0].createdAt == t then [s[0]] else [], CreatedAt(s[1..], t), id);
  }

  lemma {:induction false} FirstCreated(s: seq<Entry>, t: nat, id: AlertId)
    ensures var first := FirstOf(CreatedAt(s, t), id);
            if first.Some? then first.value in s && first.value.id == id && first.value.createdAt == t
            else forall x :: x in s && x.id == id ==> x.createdAt != t
  {
    if s == [] {
    } else {
      FirstCreated(s[1..], t, id);
      assert s == [s[0]] + s[1..];
      FirstUnfolds(s, t, id);
    }
  }

  /** Among the entries of its instant, the latest record of an id is the first. */
  lemma {:induction false} LatestAmongTies(s: seq<Entry>, id: AlertId)
    ensures id in Latest(s) ==> FirstOf(CreatedAt(s, Latest(s)[id].createdAt), id) == Some(Latest(s)[id])
  {
    if s == [] {
    } else {
      var rest, e := s[..|s| - 1], s[|s| - 1];
      LatestAmongTies(rest, id);
      LatestIsNewest(rest);
      if id in Latest(s) {
        var t := Latest(s)[id].createdAt;
        assert s == rest + [e];
        CreatedAppend(rest, [e], t);
        FirstAppend(CreatedAt(rest, t), CreatedAt([e], t), id);
        FirstCreated(rest, t, id);
      }
    }
  }

  /** The first entry of the newest instant of an id is its latest record. */
  lemma LatestByTies(s: seq<Entry>, id: AlertId, t: nat)
    requires FirstOf(CreatedAt(s, t), id).Some? && forall x :: x in s && x.id == id ==> x.createdAt <= t
    ensures id in Latest(s) && FirstOf(CreatedAt(s, t), id) == Some(Latest(s)[id])
  {
    FirstCreated(s, t, id);
    LatestIsNewest(s);
    LatestAmongTies(s, id);
  }

  lemma {:induction false} MarkingKeepsTies(s: seq<Entry>, marked: AlertId, t: nat, id: AlertId)
    requires id != marked
    ensures FirstOf(CreatedAt(Marked(s, marked), t), id) == FirstOf(CreatedAt(s, t), id)
    ensures forall x: Entry :: x.id == id ==> (x in Marked(s, marked) <==> x in s)
  {
    if s == [] {
    } else {
      hide CreatedAt, FirstOf;
      assert s == [s[0]] + s[1..];
      FirstUnfolds(s, t, id);
      FirstUnfolds(Marked(s, marked), t, id);
      if s[0].id == marked {
        assert Marked(s, marked)[1..] == s[1..];
      } else {
        MarkingKeepsTies(s[1..], marked, t, id);
        assert Marked(s, marked)[1..] == Marked(s[1..], marked);
      }
    }
  }

  lemma MarkingKeepsOwing(s: seq<Entry>, marked: AlertId, id: AlertId)
    requires id != marked && Owing(s, id)
    ensures Owing(Marked(s, marked), id)
  {
    hide Latest, CreatedAt, FirstOf, Marked;
    var t := Latest(s)[id].createdAt;
    LatestIsNewest(s);
    LatestAmongTies(s, id);
    MarkingKeepsTies(s, marked, t, id);
    LatestByTies(Marked(s, marked), id, t);
  }

  /** Marking one id leaves every other one owing or not, as it was. */
  lemma MarkingIsForOne(s: seq<Entry>, marked: AlertId, id: AlertId)
    requires id != marked
    ensures Owing(Marked(s, marked), id) <==> Owing(s, id)
  {
    hide Latest, CreatedAt, FirstOf, Marked;
    LatestIsNewest(s);
    LatestIsNewest(Marked(s, marked));
    MarkingKeepsTies(s, marked, 0, id);
    if id in Latest(s) {
      var t := Latest(s)[id].createdAt;
      LatestAmongTies(s, id);
      MarkingKeepsTies(s, marked, t, id);
      LatestByTies(Marked(s, marked), id, t);
    }
  }

  lemma {:induction false} MarkingOwnTies(s: seq<Entry>, id: AlertId, t: nat)
    ensures var first := FirstOf(s, id);
            FirstOf(CreatedAt(Marked(s, id), t), id) ==
            if first.Some? && first.value.createdAt == t then Some(first.value.(delivered := true))
            else FirstOf(CreatedAt(s, t), id)
  {
    if s == [] {
    } else {
      hide CreatedAt;
      FirstUnfolds(s, t, id);
      FirstUnfolds(Marked(s, id), t, id);
      if s[0].id == id {
        assert Marked(s, id)[1..] == s[1..];
      } else {
        MarkingOwnTies(s[1..], id, t);
        assert Marked(s, id)[1..] == Marked(s[1..], id);
      }
    }
  }

  lemma {:induction false} FirstOfMembers(s: seq<Entry>, id: AlertId)
    ensures FirstOf(s, id).Some? ==> FirstOf(s, id).value in s && FirstOf(s, id).value.id == id
    ensures FirstOf(s, id).None? ==> forall e :: e in s ==> e.id != id
  {
    if s == [] {
    } else {
      FirstOfMembers(s[1..], id);
      assert s == [s[0]] + s[1..];
    }
  }

  /** A marked id is owing still exactly if it was, and its first entry, the one that is
      marked, is older than its latest. */
  lemma MarkedOwes(s: seq<Entry>, id: AlertId)
    ensures Owing(Marked(s, id), id) <==>
            Owing(s, id) && FirstOf(s, id).Some? && FirstOf(s, id).value.createdAt < Latest(s)[id].createdAt
  {
    hide Latest, CreatedAt, FirstOf, Marked;
    LatestIsNewest(s);
    LatestIsNewest(Marked(s, id));
    MarkedIsDelivered(s, id);
    FirstOfMembers(s, id);
    if id in Latest(s) {
      var t := Latest(s)[id].createdAt;
      LatestAmongTies(s, id);
      MarkingOwnTies(s, id, t);
      LatestByTies(Marked(s, id), id, t);
    }
  }

  lemma {:induction false} DropKeepsTies(s: seq<Entry>, k: nat, t: nat, id: AlertId)
    requires k <= CountDelivered(s)
    requires var first := FirstOf(CreatedAt(s, t), id);
             first.Some? && !first.value.delivered
    ensures FirstOf(CreatedAt(DropDelivered(s, k), t), id) == FirstOf(CreatedAt(s, t), id)
  {
    hide CreatedAt, FirstOf;
    if s == [] || k == 0 {
    } else {
      FirstUnfolds(s, t, id);
      if s[0].delivered {
        DropKeepsTies(s[1..], k - 1, t, id);
      } else {
        var rest := DropDelivered(s[1..], k);
        assert DropDelivered(s, k) == [s[0]] + rest && ([s[0]] + rest)[1..] == rest;
        FirstUnfolds(DropDelivered(s, k), t, id);
        if s[0].createdAt != t || s[0].id != id {
          DropKeepsTies(s[1..], k, t, id);
        }
      }
    }
  }

  lemma SortKeepsOwing(s: seq<Entry>, id: AlertId)
    requires Owing(s, id)
    ensures Owing(StableSort(s), id)
  {
    hide Latest, CreatedAt, FirstOf, StableSort;
    var t := Latest(s)[id].createdAt;
    LatestIsNewest(s);
    LatestAmongTies(s, id);
    SortIsStable(s, t);
    SortMembers(s);
    LatestByTies(StableSort(s), id, t);
  }

  lemma DropKeepsOwing(s: seq<Entry>, k: nat, id: AlertId)
    requires Owing(s, id) && k <= CountDelivered(s)
    ensures Owing(DropDelivered(s, k), id)
  {
    hide Latest, CreatedAt, FirstOf, DropDelivered;
    var t := Latest(s)[id].createdAt;
    LatestIsNewest(s);
    LatestAmongTies(s, id);
    DropKeepsTies(s, k, t, id);
    DropMembers(s, k);
    LatestByTies(DropDelivered(s, k), id, t);
  }

  lemma CompactionDrops(s: seq<Entry>, max: nat)
    requires |s| > max && |s| - CountDelivered(s) <= max
    ensures |s| - max <= CountDelivered(StableSort(s))
    ensures Compacted(s, max) == DropDelivered(StableSort(s), |s| - max)
  {
    hide StableSort, DropDelivered, CountDelivered;
    SortCounts(s);
    var left := DropDelivered(StableSort(s), |s| - max);
    assert left[0..] == left;
  }

  lemma NothingToCompact(s: seq<Entry>, max: nat)
    requires |s| <= max
    ensures Compacted(s, max) == s
  {
  }

  /** Unless it loses undelivered entries, compaction leaves every owing id owing. */
  lemma CompactionKeepsOwing(s: seq<Entry>, max: nat, id: AlertId)
    requires Owing(s, id) && |s| - CountDelivered(s) <= max
    ensures Owing(Compacted(s, max), id)
  {
    hide Owing, Compacted, StableSort, DropDelivered, CountDelivered;
    if |s| <= max {
      NothingToCompact(s, max);
    } else {
      CompactionDrops(s, max);
      SortKeepsOwing(s, id);
      DropKeepsOwing(StableSort(s), |s| - max, id);
    }
  }

  /** A load keeps exactly the ids that owe owing. */
  lemma LoadKeepsOwing(lines: seq<Entry>, loaded: seq<Entry>, id: AlertId)
    requires Loaded(lines, loaded)
    ensures Owing(loaded, id) <==> Owing(lines, id)
  {
    hide Latest;
    LatestIsNewest(lines);
    LatestIsNewest(loaded);
    if id in Latest(lines) {
      assert Latest(lines)[id] in loaded;
      var i :| 0 <= i < |loaded| && loaded[i] == Latest(lines)[id];
      var j :| 0 <= j < |loaded| && loaded[j] == Latest(loaded)[id];
      assert i == j;
    }
  }

  /** The append of an undelivered entry makes its id owing exactly when the id is new, or
      owing already, or was last recorded at an earlier instant. */
  predicate StampFits(s: seq<Entry>, id: AlertId, createdAt: nat) {
    id !in Latest(s) || Owing(s, id) || Latest(s)[id].createdAt < createdAt
  }

  lemma AppendOwes(s: seq<Entry>, e: Entry, id: AlertId)
    requires !e.delivered
    ensures Owing(s + [e], id) <==> if id == e.id then StampFits(s, id, e.createdAt) else Owing(s, id)
  {
    assert (s + [e])[..|s|] == s;
  }

  // ---- The outbox in memory ----

  class Outbox {
    var entries: seq<Entry>

    /** Loads a file; the order of the collapsing map is arbitrary. */
    constructor Load(lines: seq<Entry>)
      ensures Loaded(lines, entries)
    {
      var latest: map<AlertId, Entry> := map[];
      for k := 0 to |lines|
        invariant latest == Latest(lines[..k])
      {
        var e := lines[k];
        assert lines[..k + 1][..k] == lines[..k];
        if e.id in latest && latest[e.id].createdAt >= e.createdAt {
        } else {
          latest := latest[e.id := e];
        }
      }
      assert lines[..|lines|] == lines;
      var values: seq<Entry> := [];
      var keys := latest.Keys;
      while keys != {}
        invariant keys <= latest.Keys && UniqueIds(values)
        invariant forall e :: e in values <==> e.id in latest.Keys - keys && latest[e.id] == e
        decreases |keys|
      {
        var id :| id in keys;
        keys := keys - {id};
        values := values + [latest[id]];
      }
      SortMembers(values);
      SortOrders(values);
      SortKeepsUnique(values);
      entries := StableSort(values);
    }

    method Append(e: Entry)
      modifies this
      ensures entries == old(entries) + [e]
    {
      entries := entries + [e];
    }

    method MarkDelivered(id: AlertId)
      modifies this
      ensures entries == Marked(old(entries), id) && FirstDelivered(old(entries), entries, id)
    {
      hide FirstDelivered, Marked;
      MarkedIsDelivered(entries, id);
      var i := 0;
      while i < |entries| && entries[i].id != id
        invariant 0 <= i <= |entries| && entries == old(entries)
        invariant forall j :: 0 <= j < i ==> entries[j].id != id
      {
        i := i + 1;
      }
      MarkedInPlace(entries, id, i);
      if i < |entries| {
        entries := entries[i := entries[i].(delivered := true)];
      }
    }

    /** Evicts down to `max` entries; tells whether an undelivered one was lost. */
    method CompactIfNeeded(max: nat) returns (undeliveredLost: bool)
      modifies this
      ensures entries == Compacted(old(entries), max)
      ensures undeliveredLost <==> |old(entries)| - CountDelivered(old(entries)) > max
    {
      if |entries| <= max {
        return false;
      }
      hide Evicted;
      var n := |entries|;
      entries := StableSort(entries);
      ghost var sorted := entries;
      ghost var i, j := 0, 0;
      EvictionStarts(sorted);
      undeliveredLost := false;
      while |entries| > max
        invariant Evicted(sorted, i, j, entries) && |entries| == n - i - j >= max
        invariant undeliveredLost <==> j > 0
      {
        EvictionGoesOn(sorted, i, j, entries);
        var pos := Position(entries);
        if pos.Some? {
          entries := Without(entries, pos.value);
          i := i + 1;
        } else {
          entries := entries[1..];
          undeliveredLost := true;
          j := j + 1;
        }
      }
      EvictionCounts(old(entries), i, j, entries, max);
      EvictionEnds(old(entries), i, j, entries, max);
    }
  }

  // ---- The cache of delivered alerts ----

  function Unexpired(cache: map<AlertId, nat>, now: nat): map<AlertId, nat> {
    map id | id in cache && now < cache[id] :: cache[id]
  }

  class DedupCache {
    var entries: map<AlertId, nat>
    const ttl: nat

    constructor (ttl: nat)
      ensures entries == map[] && this.ttl == ttl
    {
      entries := map[];
      this.ttl := ttl;
    }

    /** The clock is read once to evict and once more to compare. */
    method IsDuplicate(key: AlertId, evictAt: nat, now: nat) returns (duplicate: bool)
      modifies this
      ensures entries == Unexpired(old(entries), evictAt)
      ensures duplicate <==> key in entries && now < entries[key]
    {
      EvictExpired(evictAt);
      duplicate := key in entries && now < entries[key];
    }

    method Record(key: AlertId, now: nat)
      modifies this
      ensures entries == old(entries)[key := now + ttl]
    {
      entries := entries[key := now + ttl];
    }

    method EvictExpired(now: nat)
      modifies this
      ensures entries == Unexpired(old(entries), now)
    {
      entries := map id | id in entries && now < entries[id] :: entries[id];
    }
  }
}
