/** The lease arbiter: in-memory mutual exclusion with a time to live (src/lease.rs). */
module Lease {
  import opened Model
  import opened Wrappers

  datatype LeaseEntry = LeaseEntry(holder: RunId, acquired: nat)

  type Held = map<ResourceId, LeaseEntry>

  datatype AcquireResult = Granted | Conflict(currentHolder: RunId) | GrantedAfterEviction(previousHolder: RunId)

  predicate Expired(e: LeaseEntry, ttl: nat, now: nat) {
    SaturatingSub(now, e.acquired) >= ttl
  }

  predicate Free(held: Held, ttl: nat, r: ResourceId, now: nat) {
    r !in held || Expired(held[r], ttl, now)
  }

  function Acquired(held: Held, ttl: nat, r: ResourceId, holder: RunId, now: nat): Held {
    if r in held && (held[r].holder == holder || !Expired(held[r], ttl, now)) then held
    else held[r := LeaseEntry(holder, now)]
  }

  class LeaseArbiter {
    var held: Held
    const maxTtl: nat

    constructor (maxTtl: nat)
      ensures held == map[] && this.maxTtl == maxTtl
    {
      held := map[];
      this.maxTtl := maxTtl;
    }

    predicate IsFree(r: ResourceId, now: nat)
      reads this
    {
      match if r in held then Some(held[r]) else None
      case None => true
      case Some(entry) => SaturatingSub(now, entry.acquired) >= maxTtl
    }

    /** The result tells exactly who holds the resource afterwards: a refusal leaves the
        unexpired entry of another holder, anything else leaves `holder` in possession. */
    method Acquire(r: ResourceId, holder: RunId, now: nat) returns (result: AcquireResult)
      modifies this
      ensures held == Acquired(old(held), maxTtl, r, holder, now)
      ensures result.Conflict? <==>
              && r in old(held) && old(held)[r].holder != holder
              && maxTtl > 0 && now < old(held)[r].acquired + maxTtl
      ensures result.GrantedAfterEviction? <==> r in old(held) && old(held)[r].holder != holder && !result.Conflict?
      ensures r in held && held[r] ==
              if r in old(held) && (result.Conflict? || old(held)[r].holder == holder) then old(held)[r]
              else LeaseEntry(holder, now)
      ensures r in held
      ensures held[r].holder == if result.Conflict? then result.currentHolder else holder
      ensures result.GrantedAfterEviction? ==> r in old(held) && old(held)[r].holder == result.previousHolder != holder
      ensures forall other :: other != r ==>
                ((other in held <==> other in old(held)) && (other in held ==> held[other] == old(held)[other]))
    {
      if r in held {
        var entry := held[r];
        if entry.holder == holder {
          return Granted;
        }
        if SaturatingSub(now, entry.acquired) >= maxTtl {
          held := held[r := LeaseEntry(holder, now)];
          return GrantedAfterEviction(entry.holder);
        }
        return Conflict(entry.holder);
      }
      held := held[r := LeaseEntry(holder, now)];
      return Granted;
    }

    method ForceRelease(r: ResourceId)
      modifies this
      ensures held == old(held) - {r}
    {
      held := held - {r};
    }
  }
}
