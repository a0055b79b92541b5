/** The circuit breaker: pure transitions between its three states (src/breaker.rs). */
module Breaker {
  import opened Model

  function RecordRestart(
      b: BreakerState, restartsInWindow: nat, threshold: nat, cooldown: nat, now: nat): BreakerState {
    match b
    case Closed => if restartsInWindow >= threshold then Open(now + cooldown, 1) else Closed
    case HalfOpen(_, previous) => Open(now + cooldown, previous + 1)
    case Open(_, _) => b
  }

  function OnHealthyProbe(b: BreakerState): BreakerState {
    if b.HalfOpen? then Closed else b
  }

  function MaybeTransition(b: BreakerState, now: nat): BreakerState {
    if b.Open? && now >= b.until then HalfOpen(0, b.tripCount) else b
  }

  predicate AllowsRecovery(b: BreakerState, now: nat) {
    b.Open? ==> now >= b.until
  }
}
