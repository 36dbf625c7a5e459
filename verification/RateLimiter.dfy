// The bucket and the reservation handle of src/middleware/rate_limit.rs, updated in
// place. Each method is one critical section of the bucket's mutex; `now` is the
// clock reading taken inside it.

module RateLimiter {
  import opened Basics
  import opened TokenBuckets

  class TokenBucket {
    const params: Params
    var tokens: real
    var lastRefill: real

    function State(): Bucket
      reads this
    {
      Bucket(tokens, lastRefill)
    }

    constructor (capacity: real, refillPerSec: real, now: real)
      ensures params == ParamsFor(capacity, refillPerSec)
      ensures params.capacity == (if capacity > 0.0 then capacity else 0.0)
      ensures params.rate == (if refillPerSec > 0.0 then refillPerSec else 0.0)
      ensures State() == Bucket(capacity, now)
    {
      params := ParamsFor(capacity, refillPerSec);
      tokens := capacity;
      lastRefill := now;
    }

    constructor FromConfig(limit: nat, now: real)
      ensures params == PerMinute(limit) == Params(limit as real, limit as real / 60.0)
      ensures State() == FullAt(params, now) == Bucket(limit as real, now)
    {
      params := PerMinute(limit);
      tokens := limit as real;
      lastRefill := now;
    }

    method RefillLocked(now: real)
      modifies this
      ensures State() == Refill(params, old(State()), now)
    {
      var elapsed := Max(now - lastRefill, 0.0);
      elapsed := Min(elapsed, MAX_ELAPSED);
      if elapsed > 0.0 {
        tokens := Min(tokens + elapsed * params.rate, params.capacity);
        lastRefill := now;
      }
    }

    method TryConsume(cost: real, now: real) returns (answer: Answer)
      modifies this
      ensures (State(), answer) == TokenBuckets.TryConsume(params, old(State()), cost, now)
    {
      RefillLocked(now);
      if tokens >= cost {
        tokens := tokens - cost;
        answer := Granted;
      } else {
        answer := Refused(RetryAfter(params, cost - tokens));
      }
    }

    method Refund(n: real, now: real)
      modifies this
      ensures State() == TokenBuckets.Refund(params, old(State()), n, now)
    {
      RefillLocked(now);
      tokens := Min(tokens + n, params.capacity);
    }

    method AvailableTokens(now: real) returns (available: real)
      modifies this
      ensures State() == Refill(params, old(State()), now)
      ensures available == tokens
    {
      RefillLocked(now);
      available := tokens;
    }
  }

  // A reservation that is settled at most once: `Reconcile` consumes it, and the
  // destructor that runs afterwards, in every case, refunds only an open one.
  class ReservationHandle {
    const bucket: TokenBucket
    const reserved: real
    var reconciled: bool

    constructor (bucket: TokenBucket, reserved: real)
      ensures this.bucket == bucket && this.reserved == reserved && !reconciled
    {
      this.bucket := bucket;
      this.reserved := reserved;
      reconciled := false;
    }

    method Reconcile(actual: real, now: real) returns (charge: real)
      modifies this, bucket
      ensures reconciled
      ensures (bucket.State(), charge) ==
              TokenBuckets.Reconcile(bucket.params, old(bucket.State()), reserved, actual, now)
    {
      reconciled := true;
      charge := reserved;
      if actual < reserved {
        bucket.Refund(reserved - actual, now);
        charge := actual;
      } else if actual > reserved {
        var answer := bucket.TryConsume(actual - reserved, now);
        if answer.Granted? {
          charge := actual;
        }
      }
      Drop(now);
    }

    method Drop(now: real)
      modifies bucket
      ensures bucket.State() ==
              if old(reconciled) then old(bucket.State())
              else TokenBuckets.Refund(bucket.params, old(bucket.State()), reserved, now)
      ensures reconciled == old(reconciled)
    {
      if !reconciled {
        bucket.Refund(reserved, now);
      }
    }
  }

  method TryReserve(bucket: TokenBucket, cost: real, now: real)
    returns (handle: Option<ReservationHandle>, answer: Answer)
    modifies bucket
    ensures (bucket.State(), answer) == TryConsume(bucket.params, old(bucket.State()), cost, now)
    ensures handle.Some? <==> answer.Granted?
    ensures handle.Some? ==> fresh(handle.value) && !handle.value.reconciled
                             && handle.value.bucket == bucket && handle.value.reserved == cost
  {
    handle := None;
    answer := bucket.TryConsume(cost, now);
    if answer.Granted? {
      var h := new ReservationHandle(bucket, cost);
      handle := Some(h);
    }
  }
}
