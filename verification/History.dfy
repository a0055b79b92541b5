/** Bounded histories standing in for unbounded logs (src/history.rs, src/state.rs). */
module History {
  import opened Model

  /** The newest `max` items of a log. */
  function Newest<T>(log: seq<T>, max: nat): seq<T> {
    if |log| <= max then log else log[|log| - max..]
  }

  function Pushed<T>(items: seq<T>, max: nat, item: T): seq<T>
    requires max > 0
  {
    (if |items| == max then items[1..] else items) + [item]
  }

  /** A bounded FIFO buffer: when full, a push evicts the oldest item. */
  class RingBuf<T> {
    var items: seq<T>
    const maxSize: nat

    ghost predicate Valid()
      reads this
    {
      0 < maxSize && |items| <= maxSize
    }

    constructor (maxSize: nat)
      requires maxSize > 0
      ensures Valid() && items == [] && this.maxSize == maxSize
    {
      items := [];
      this.maxSize := maxSize;
    }

    method Push(item: T)
      requires Valid()
      modifies this
      ensures Valid() && items == Pushed(old(items), maxSize, item)
      ensures items == Newest(old(items) + [item], maxSize)
    {
      if |items| == maxSize {
        items := items[1..];
      }
      items := items + [item];
    }

    method Clear()
      requires Valid()
      modifies this
      ensures Valid() && items == []
    {
      items := [];
    }
  }

  /** Pushing onto the newest part of a log is the newest part of the longer log, so a
      ring buffer fed item by item always holds the newest `max` items ever pushed. */
  lemma PushedIsNewest<T>(log: seq<T>, max: nat, item: T)
    requires max > 0
    ensures Pushed(Newest(log, max), max, item) == Newest(log + [item], max)
  {
    if |log| < max {
      assert |log + [item]| <= max;
    } else {
      assert Newest(log, max)[1..] + [item] == (log + [item])[|log| + 1 - max..];
    }
  }

  // ---- Restart records in a window ----

  ghost predicate Ascending(log: seq<RestartRecord>) {
    forall i, j :: 0 <= i < j < |log| ==> log[i].mono <= log[j].mono
  }

  function CountSince(log: seq<RestartRecord>, cutoff: nat): nat {
    if log == [] then 0
    else CountSince(log[..|log| - 1], cutoff) + if log[|log| - 1].mono >= cutoff then 1 else 0
  }

  lemma {:induction false} CountSinceAtMostLength(log: seq<RestartRecord>, cutoff: nat)
    ensures CountSince(log, cutoff) <= |log|
    ensures (forall r :: r in log ==> r.mono >= cutoff) ==> CountSince(log, cutoff) == |log|
  {
    if log == [] {
    } else {
      CountSinceAtMostLength(log[..|log| - 1], cutoff);
    }
  }

  lemma {:induction false} CountSinceOld(log: seq<RestartRecord>, cutoff: nat)
    requires Ascending(log)
    requires log != [] ==> log[|log| - 1].mono < cutoff
    ensures CountSince(log, cutoff) == 0
  {
    if log == [] {
    } else {
      CountSinceOld(log[..|log| - 1], cutoff);
    }
  }

  lemma LastCounts(log: seq<RestartRecord>, cutoff: nat)
    requires log != []
    ensures CountSince(log, cutoff) ==
            CountSince(log[..|log| - 1], cutoff) + if log[|log| - 1].mono >= cutoff then 1 else 0
  {
  }

  /** With non-decreasing times, counting a window in the newest `max` records gives the
      true count of the whole log, capped at `max`. */
  lemma {:induction false} BoundedCountIsCapped(log: seq<RestartRecord>, max: nat, cutoff: nat)
    requires Ascending(log)
    ensures CountSince(Newest(log, max), cutoff) ==
            if CountSince(log, cutoff) <= max then CountSince(log, cutoff) else max
  {
    hide CountSince;
    var n, kept := |log|, Newest(log, max);
    if n <= max {
      CountSinceAtMostLength(log, cutoff);
    } else if max == 0 {
      CountSinceAtMostLength(kept, cutoff);
    } else if log[n - 1].mono < cutoff {
      CountSinceOld(log, cutoff);
      CountSinceOld(kept, cutoff);
    } else {
      BoundedCountIsCapped(log[..n - 1], max - 1, cutoff);
      assert kept[..max - 1] == Newest(log[..n - 1], max - 1);
      LastCounts(log, cutoff);
      LastCounts(kept, cutoff);
    }
  }
}
