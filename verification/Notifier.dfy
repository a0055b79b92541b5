/** The notifier's loop, updating its outbox, cache and file in place; every pass through it
    is a run of the protocol's steps (src/notify.rs). */
module Notifier {
  import opened Outbox
  import opened OutboxDelivery

  /** What the server and the clocks answer to one action. */
  datatype Answer = Answer(sendOk: bool, evictAt: nat, now: nat)

  function Take(a: Answer): Input {
    Go(a.sendOk, a.evictAt, a.now)
  }

  /** An action that asks neither the server nor a clock. */
  const QUIETLY := Go(false, 0, 0)

  /** What is being sent: a received alert, or the head of a replay. */
  datatype Job = Fresh(id: AlertId) | Replay(todo: seq<AlertId>, some: bool) {
    predicate Valid() {
      Replay? ==> todo != []
    }

    function Alert(): AlertId
      requires Valid()
    {
      if Fresh? then id else todo[0]
    }

    function Trying(left: nat): Pc {
      if Fresh? then Sending(id, left) else ReplaySending(todo, some, left)
    }

    function Delivered(): Pc {
      if Fresh? then Marking(id) else ReplayMarking(todo, some)
    }

    function GivenUp(): Pc
      requires Valid()
    {
      if Fresh? then Waiting else ReplayNext(todo[1..], some)
    }
  }

  // ---- Runs of the protocol, put together ----

  ghost predicate AllGo(inputs: seq<Input>) {
    forall k :: 0 <= k < |inputs| ==> inputs[k].Go?
  }

  ghost predicate Reaches(n: Node, inputs: seq<Input>, m: Node, c: Settings) {
    AllGo(inputs) && Run(n, inputs, c) == m
  }

  lemma ReachesItself(n: Node, c: Settings)
    ensures Reaches(n, [], n, c)
  {
  }

  lemma ReachesNext(n: Node, inputs: seq<Input>, m: Node, i: Input, c: Settings)
    requires Reaches(n, inputs, m, c) && i.Go?
    ensures Reaches(n, inputs + [i], Step(m, i, c), c)
  {
    hide Step;
    assert (inputs + [i])[..|inputs|] == inputs;
  }

  lemma {:induction false} ReachesOn(n: Node, a: seq<Input>, m: Node, b: seq<Input>, end: Node, c: Settings)
    requires Reaches(n, a, m, c) && Reaches(m, b, end, c)
    ensures Reaches(n, a + b, end, c)
  {
    hide Step;
    if b == [] {
      assert a + b == a;
    } else {
      var rest := b[..|b| - 1];
      ReachesOn(n, a, m, rest, Run(m, rest, c), c);
      assert (a + b)[..|a + b| - 1] == a + rest;
    }
  }

  lemma ArriveFirst(n: Node, arrive: Input, inputs: seq<Input>, end: Node, c: Settings)
    requires Reaches(Step(n, arrive, c), inputs, end, c)
    ensures Run(n, [arrive] + inputs, c) == end
  {
    hide Step;
    if inputs == [] {
      assert [arrive] + inputs == [arrive] && [arrive][..0] == [];
      assert Run(n, [], c) == n;
    } else {
      var rest := inputs[..|inputs| - 1];
      ArriveFirst(n, arrive, rest, Run(Step(n, arrive, c), rest, c), c);
      assert ([arrive] + inputs)[..|inputs|] == [arrive] + rest;
    }
  }

  /** One attempt to send. */
  lemma AttemptStep(n: Node, job: Job, left: nat, a: Answer, c: Settings)
    requires job.Valid() && n.pc == job.Trying(left)
    ensures left == 0 ==> Step(n, QUIETLY, c) == n.(pc := job.GivenUp())
    ensures left > 0 ==> Step(n, Take(a), c) ==
                         if a.sendOk then Sent(n, job.Alert(), a.now, c).(pc := job.Delivered())
                         else n.(pc := job.Trying(left - 1))
  {
  }

  class NotifyConsumer {
    const outbox: Outbox
    const dedup: DedupCache
    const retries: nat
    var disk: seq<Entry>
    var overflowFlag: bool
    ghost var reported: bool
    ghost var owed: set<AlertId>
    ghost var lost: set<AlertId>
    ghost var sentAt: map<AlertId, nat>

    ghost function Conf(): Settings
      reads dedup
    {
      Settings(retries, dedup.ttl)
    }

    ghost function Value(pc: Pc): Node
      reads this, outbox, dedup
    {
      Node(outbox.entries, dedup.entries, disk, pc, overflowFlag, reported, owed, lost, sentAt)
    }

    /** A process that starts on the file an earlier one left, with whatever is owed still. */
    constructor (lines: seq<Entry>, retries: nat, ttl: nat, ghost before: Node)
      requires before.disk == lines
      ensures fresh(outbox) && fresh(dedup) && Conf() == Settings(retries, ttl)
      ensures Loaded(lines, outbox.entries)
      ensures var todo := UndeliveredIds(outbox.entries);
              Value(ReplayNext(todo, todo != [])) == Restarted(before, outbox.entries)
    {
      outbox := new Outbox.Load(lines);
      dedup := new DedupCache(ttl);
      this.retries := retries;
      disk, overflowFlag := lines, false;
      reported, owed, sentAt := before.reported, before.owed, before.sentAt;
      lost := set id | id in before.lost && !Owing(lines, id);
    }

    /** The attempts to send one alert; the answers from `used` on are taken. */
    method TrySend(
        job: Job, env: nat -> Answer, used: nat) returns (delivered: bool, calls: nat, ghost inputs: seq<Input>)
      requires job.Valid()
      modifies this, dedup
      ensures Reaches(old(Value(job.Trying(retries))), inputs,
              Value(if delivered then job.Delivered() else job.GivenUp()), Conf())
    {
      hide Step, Reaches;
      ghost var n0 := Value(job.Trying(retries));
      var left := retries;
      delivered, calls, inputs := false, used, [];
      ReachesItself(n0, Conf());
      while left > 0 && !delivered
        invariant Reaches(n0, inputs, Value(if delivered then job.Delivered() else job.Trying(left)), Conf())
        decreases left, !delivered
      {
        var a, id := env(calls), job.Alert();
        AttemptStep(Value(job.Trying(left)), job, left, a, Conf());
        ReachesNext(n0, inputs, Value(job.Trying(left)), Take(a), Conf());
        inputs := inputs + [Take(a)];
        if a.sendOk {
          dedup.Record(id, a.now);
          owed, lost, sentAt := owed - {id}, lost - {id}, sentAt[id := a.now];
          delivered := true;
        } else {
          left := left - 1;
        }
        calls := calls + 1;
      }
      if !delivered {
        AttemptStep(Value(job.Trying(0)), job, 0, Answer(false, 0, 0), Conf());
        ReachesNext(n0, inputs, Value(job.Trying(0)), QUIETLY, Conf());
        inputs := inputs + [QUIETLY];
      }
    }

    /** Suppresses an alert, or appends it and makes room. */
    method Receive(id: AlertId, createdAt: nat, evictAt: nat, now: nat) returns (accepted: bool)
      modifies this`overflowFlag, this`reported, this`lost, outbox, dedup
      ensures Value(if accepted then Persisting(id) else Waiting) ==
              Received(old(Value(Waiting)), id, createdAt, evictAt, now)
    {
      hide Compacted, CountDelivered, LostBetween, Unexpired;
      var duplicate := dedup.IsDuplicate(id, evictAt, now);
      if duplicate {
        return false;
      }
      outbox.Append(Entry(id, createdAt, false));
      ghost var grown := outbox.entries;
      var undeliveredLost := outbox.CompactIfNeeded(OUTBOX_MAX);
      if undeliveredLost {
        overflowFlag := true;
        reported := true;
      }
      lost := lost + LostBetween(grown, outbox.entries);
      return true;
    }

    method PersistAlert(id: AlertId)
      modifies this`disk, this`owed, this`lost
      ensures Value(Sending(id, retries)) == Step(old(Value(Persisting(id))), QUIETLY, Conf())
    {
      disk := outbox.entries;
      owed, lost := owed + {id}, if Owing(outbox.entries, id) then lost - {id} else lost;
    }

    method MarkAndPersist(id: AlertId) returns (ghost inputs: seq<Input>)
      modifies this`disk, outbox
      ensures Reaches(old(Value(Marking(id))), inputs, Value(Waiting), Conf())
    {
      ghost var n0 := Value(Marking(id));
      outbox.MarkDelivered(id);
      ghost var n1 := Value(MarkPersisting);
      disk := outbox.entries;
      inputs := [QUIETLY] + [QUIETLY];
      ReachesItself(n0, Conf());
      ReachesNext(n0, [], n0, QUIETLY, Conf());
      assert [] + [QUIETLY] == [QUIETLY];
      ReachesNext(n0, [QUIETLY], n1, QUIETLY, Conf());
    }

    /** One pass through the loop, for one received alert. */
    method HandleAlert(
        id: AlertId, createdAt: nat, evictAt: nat, now: nat, env: nat -> Answer) returns (ghost inputs: seq<Input>)
      modifies this, outbox, dedup
      ensures AllGo(inputs)
      ensures Value(Waiting) == Run(old(Value(Waiting)), [Arrive(id, createdAt, evictAt, now)] + inputs, Conf())
    {
      hide Received, Advanced, Run;
      ghost var n0, arrive := Value(Waiting), Arrive(id, createdAt, evictAt, now);
      inputs := [];
      var accepted := Receive(id, createdAt, evictAt, now);
      ghost var n1 := Step(n0, arrive, Conf());
      ReachesItself(n1, Conf());
      if accepted {
        PersistAlert(id);
        ReachesNext(n1, [], n1, QUIETLY, Conf());
        ghost var n2 := Value(Sending(id, retries));
        inputs := [] + [QUIETLY];
        var delivered, _, sends := TrySend(Fresh(id), env, 0);
        ghost var n3 := Value(if delivered then Marking(id) else Waiting);
        ReachesOn(n1, inputs, n2, sends, n3, Conf());
        inputs := inputs + sends;
        if delivered {
          ghost var marks := MarkAndPersist(id);
          ReachesOn(n1, inputs, n3, marks, Value(Waiting), Conf());
          inputs := inputs + marks;
        }
      }
      ArriveFirst(n0, arrive, inputs, Value(Waiting), Conf());
    }

    /** Skips the head of a replay if it was sent already, or tries to send it. */
    method ReplayOne(
        todo: seq<AlertId>, some: bool, env: nat -> Answer, used: nat) returns (calls: nat, ghost inputs: seq<Input>)
      requires todo != []
      modifies this, outbox, dedup
      ensures Reaches(old(Value(ReplayNext(todo, some))), inputs, Value(ReplayNext(todo[1..], some)), Conf())
    {
      hide Reaches;
      ghost var n0 := Value(ReplayNext(todo, some));
      var a := env(used);
      ReachesItself(n0, Conf());
      ReachesNext(n0, [], n0, Take(a), Conf());
      inputs, calls := [] + [Take(a)], used + 1;
      var duplicate := dedup.IsDuplicate(todo[0], a.evictAt, a.now);
      if duplicate {
        return;
      }
      ghost var n1 := Value(ReplaySending(todo, some, retries));
      assert n1 == Step(n0, Take(a), Conf());
      var delivered;
      ghost var sends;
      delivered, calls, sends := TrySend(Replay(todo, some), env, calls);
      ghost var n2 := Value(if delivered then ReplayMarking(todo, some) else ReplayNext(todo[1..], some));
      ReachesOn(n0, inputs, n1, sends, n2, Conf());
      inputs := inputs + sends;
      if delivered {
        outbox.MarkDelivered(todo[0]);
        ReachesNext(n0, inputs, n2, QUIETLY, Conf());
        inputs := inputs + [QUIETLY];
      }
    }

    /** The replay of what a start found undelivered. */
    method ReplayUndelivered(env: nat -> Answer) returns (ghost inputs: seq<Input>)
      modifies this, outbox, dedup
      ensures var todo := UndeliveredIds(old(outbox.entries));
              Reaches(old(Value(ReplayNext(todo, todo != []))), inputs, Value(Waiting), Conf())
    {
      hide Reaches, Received;
      var todo, calls := UndeliveredIds(outbox.entries), 0;
      ghost var some := todo != [];
      ghost var n0 := Value(ReplayNext(todo, some));
      inputs := [];
      ReachesItself(n0, Conf());
      assert todo[0..] == todo;
      for k := 0 to |todo|
        invariant Reaches(n0, inputs, Value(ReplayNext(todo[k..], some)), Conf())
      {
        ghost var n, more := Value(ReplayNext(todo[k..], some)), [];
        calls, more := ReplayOne(todo[k..], todo != [], env, calls);
        assert todo[k..][1..] == todo[k + 1..];
        ReachesOn(n0, inputs, n, more, Value(ReplayNext(todo[k + 1..], some)), Conf());
        inputs := inputs + more;
      }
      ghost var n1 := Value(ReplayNext([], some));
      ReachesNext(n0, inputs, n1, QUIETLY, Conf());
      inputs := inputs + [QUIETLY];
      if todo != [] {
        ghost var n2 := Value(ReplayPersisting);
        disk := outbox.entries;
        ReachesNext(n0, inputs, n2, QUIETLY, Conf());
        inputs := inputs + [QUIETLY];
      }
    }
  }
}
