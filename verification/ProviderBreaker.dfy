// The breaker object of src/router/circuit_breaker.rs. Each method is one critical
// section of its mutex; `now` is the clock reading taken inside it.

module ProviderBreaker {
  import opened Basics
  import opened CircuitBreakers

  class CircuitBreaker {
    const config: Settings
    var mode: Mode
    var failureCount: nat
    var lastFailure: Option<real>
    var halfOpenCalls: nat

    function State(): Breaker
      reads this
    {
      Breaker(mode, failureCount, lastFailure, halfOpenCalls)
    }

    constructor (config: Settings)
      ensures this.config == config && State() == FRESH == Breaker(Closed, 0, None, 0)
    {
      this.config := config;
      mode, failureCount, lastFailure, halfOpenCalls := Closed, 0, None, 0;
    }

    method IsEligible(now: real) returns (eligible: bool)
      ensures eligible == CircuitBreakers.IsEligible(config, State(), now)
    {
      match mode {
        case Closed => eligible := true;
        case Open =>
          match lastFailure {
            case Some(t) => eligible := Max(now - t, 0.0) >= config.cooldownSeconds as real;
            case None => eligible := false;
          }
        case HalfOpen => eligible := halfOpenCalls < Slots(config);
      }
    }

    method AllowRequest(now: real) returns (allowed: bool)
      modifies this
      ensures (State(), allowed) == CircuitBreakers.AllowRequest(config, old(State()), now)
    {
      allowed := false;
      match mode {
        case Closed => allowed := true;
        case Open =>
          if lastFailure.Some? && Max(now - lastFailure.value, 0.0) >= config.cooldownSeconds as real {
            mode, halfOpenCalls := HalfOpen, 0;
            return true;
          }
        case HalfOpen =>
          if halfOpenCalls < Slots(config) {
            halfOpenCalls := halfOpenCalls + 1;
            allowed := true;
          }
      }
    }

    method RecordSuccess()
      modifies this
      ensures State() == CircuitBreakers.RecordSuccess(old(State()))
    {
      failureCount := 0;
      if mode == HalfOpen {
        mode, halfOpenCalls := Closed, 0;
      }
    }

    method RecordFailure(now: real)
      modifies this
      ensures State() == CircuitBreakers.RecordFailure(config, old(State()), now)
    {
      lastFailure := Some(now);
      failureCount := failureCount + 1;
      if mode == HalfOpen {
        mode, halfOpenCalls := Open, 0;
        return;
      }
      if failureCount >= config.threshold {
        mode := Open;
      }
    }
  }
}
