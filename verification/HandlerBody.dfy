// One undisturbed call of a handler as it is written, over the objects it shares with
// other requests: `chat_completions` of src/handlers/chat.rs, lines 104-319, and
// `embeddings` of src/handlers/embeddings.rs, lines 74-196, which skips the cache.

module HandlerBody {
  import opened Basics
  import opened FailoverOrder
  import opened Gateway
  import opened GatewayAnswers
  import opened CircuitBreakers
  import opened ProviderBreaker
  import opened FailoverLoop
  import opened RateLimiter
  import opened SseEvents
  import opened SseFraming
  import opened StreamPipeline
  import Buckets = TokenBuckets

  // The exact cache; the values it may evict on its own are left to Gateway.dfy.
  class ExactCache {
    var entries: map<string, Body>

    constructor ()
      ensures entries == map[]
    {
      entries := map[];
    }

    method Get(key: string) returns (body: Option<Body>)
      ensures body == if key in entries then Some(entries[key]) else None
    {
      body := if key in entries then Some(entries[key]) else None;
    }

    method Insert(key: string, body: Body)
      modifies this
      ensures entries == old(entries)[key := body]
    {
      entries := entries[key := body];
    }
  }

  // The candidates at the moments their breakers are read. Only reads: no slot is taken.
  method SelectOrdered(breakers: seq<CircuitBreaker>, readAt: nat -> real) returns (picks: seq<nat>)
    ensures IsSublist(picks, |breakers|)
    ensures forall i :: 0 <= i < |breakers| ==>
              (i in picks <==> CircuitBreakers.IsEligible(breakers[i].config, breakers[i].State(), readAt(i)))
  {
    picks := [];
    for n := 0 to |breakers|
      invariant IsSublist(picks, n)
      invariant forall i :: 0 <= i < n ==>
                  (i in picks <==> CircuitBreakers.IsEligible(breakers[i].config, breakers[i].State(), readAt(i)))
    {
      var eligible := breakers[n].IsEligible(readAt(n));
      if eligible {
        picks := picks + [n];
      }
    }
  }

  // When the parts of a call happen.
  datatype Times = Times(
    reserve: real, lookup: real, eligible: nat -> real, calls: nat -> real, leave: real)

  // What a handler that has answered leaves in the bucket in which it reserved.
  function BucketAfter(p: Buckets.Params, b: Buckets.Bucket, reserved: real, usage: Option<nat>, now: real)
    : Buckets.Bucket
  {
    match usage
    case Some(total) => Buckets.Reconcile(p, b, reserved, total as real, now).0
    case None => Buckets.Refund(p, b, reserved, now)
  }

  // A breaker nobody calls stays as it is.
  lemma {:induction false} SeenByOutsider(b: CircuitBreaker, breakers: seq<CircuitBreaker>, calls: seq<Call>)
    requires b !in breakers
    ensures Seen(b, breakers, calls) == []
  {
    if calls != [] {
      SeenByOutsider(b, breakers, calls[..|calls| - 1]);
    }
  }

  // The candidates are the providers whose breakers were eligible when read; the answer
  // is that of the first decisive one; and every breaker, taken from `start` to `end`, saw
  // exactly the calls of the attempts made at its positions.
  ghost predicate Contacted(kind: Kind, names: seq<Provider>, breakers: seq<CircuitBreaker>, replies: seq<Reply>,
      times: Times, start: map<CircuitBreaker, Breaker>, end: map<CircuitBreaker, Breaker>,
      picks: seq<nat>, attempts: seq<Attempt>, out: Outcome)
    requires |names| == |breakers| == |replies|
  {
    && IsSublist(picks, |names|)
    && (forall b :: b in breakers ==> b in start)
    && (forall i :: 0 <= i < |breakers| ==>
          (i in picks <==> CircuitBreakers.IsEligible(breakers[i].config, start[breakers[i]], times.eligible(i))))
    && IsResult(kind, Picked(names, picks), Picked(breakers, picks), start, Picked(replies, picks), times.calls,
                attempts, out)
    && (forall b :: b in breakers ==> b in end)
    && (forall b :: b in breakers ==>
          end[b] == Replay(b.config, start[b], Seen(b, Picked(breakers, picks), Calls(kind, attempts, times.calls))))
  }

  method Contact(kind: Kind, names: seq<Provider>, breakers: seq<CircuitBreaker>, replies: seq<Reply>, times: Times)
    returns (out: Outcome, attempts: seq<Attempt>, picks: seq<nat>)
    requires |names| == |breakers| == |replies|
    modifies breakers
    ensures Contacted(kind, names, breakers, replies, times, old(States(breakers)), States(breakers),
                      picks, attempts, out)
  {
    hide IsResult, Seen, Calls, CircuitBreakers.IsEligible, After;
    picks := SelectOrdered(breakers, times.eligible);
    var candidates, answers := Picked(breakers, picks), Picked(replies, picks);
    attempts, out := Failover(kind, Picked(names, picks), candidates, answers, times.calls);
    ResultFrom(kind, Picked(names, picks), candidates, old(States(candidates)), old(States(breakers)), answers,
               times.calls, attempts, out);
    ghost var calls := Calls(kind, attempts, times.calls);
    forall b | b in breakers
      ensures b.State() == Replay(b.config, old(b.State()), Seen(b, candidates, calls))
    {
      if b !in candidates {
        SeenByOutsider(b, candidates, calls);
        assert b.State() == old(b.State());
      }
    }
  }

  // What a handler shares with others.
  datatype Shared = Shared(breakers: map<CircuitBreaker, Breaker>, bucket: Buckets.Bucket, entries: map<string, Body>)

  // What it is called with.
  datatype Task = Task(kind: Kind, prompt: Prompt, estimate: real)

  // How an undisturbed call takes the shared state from `before` to `after`: it ends at the
  // reservation, at the cache, or with the answer of the failover loop. A stream that has
  // begun leaves the reservation open; in every other case it is settled.
  ghost predicate Handled(task: Task, params: Buckets.Params, names: seq<Provider>, breakers: seq<CircuitBreaker>,
      replies: seq<Reply>, usageOf: Body -> Option<nat>, times: Times, before: Shared, after: Shared,
      picks: seq<nat>, attempts: seq<Attempt>, out: Outcome)
    requires |names| == |breakers| == |replies|
  {
    var key := CacheKey(task.kind, task.prompt);
    var (held, answer) := Buckets.TryConsume(params, before.bucket, task.estimate, times.reserve);
    match answer
    case Refused(retryAfter) =>
      out == RateLimited(retryAfter) && attempts == [] && picks == [] && after == before.(bucket := held)
    case Granted =>
      if key.Some? && key.value in before.entries then
        && out == CacheHit(before.entries[key.value]) && attempts == [] && picks == []
        && after == before.(bucket := BucketAfter(params, held, task.estimate, Some(0), times.lookup))
      else
        && Contacted(task.kind, names, breakers, replies, times, before.breakers, after.breakers, picks, attempts, out)
        && after.entries ==
           (if out.Served? && key.Some? then before.entries[key.value := out.body] else before.entries)
        && after.bucket ==
           (if out.StreamOpened? then held
            else BucketAfter(params, held, task.estimate, if out.Served? then usageOf(out.body) else None, times.leave))
  }

  ghost function SharedBy(breakers: seq<CircuitBreaker>, bucket: TokenBucket, cache: ExactCache): Shared
    reads breakers, bucket, cache
  {
    Shared(States(breakers), bucket.State(), cache.entries)
  }

  // `open` is the reservation handed over to a stream that has begun.
  method Handle(task: Task, bucket: TokenBucket, cache: ExactCache, names: seq<Provider>,
      breakers: seq<CircuitBreaker>, replies: seq<Reply>, usageOf: Body -> Option<nat>, times: Times)
    returns (out: Outcome, attempts: seq<Attempt>, open: Option<ReservationHandle>, picks: seq<nat>)
    requires |names| == |breakers| == |replies|
    modifies bucket, cache, breakers
    ensures Handled(task, bucket.params, names, breakers, replies, usageOf, times,
                    old(SharedBy(breakers, bucket, cache)), SharedBy(breakers, bucket, cache), picks, attempts, out)
    ensures open.Some? == out.StreamOpened?
    ensures open.Some? ==>
              open.value.bucket == bucket && open.value.reserved == task.estimate && !open.value.reconciled
  {
    hide Buckets.TryConsume, Buckets.Reconcile, Buckets.Refund, Contacted, CacheKey, States, IsSublist;
    attempts, open, picks := [], None, [];
    var reservation, answer := TryReserve(bucket, task.estimate, times.reserve);
    if reservation.None? {
      return RateLimited(answer.retryAfter), attempts, None, picks;
    }
    var key := CacheKey(task.kind, task.prompt);
    if key.Some? {
      var cached := cache.Get(key.value);
      if cached.Some? {
        var _ := reservation.value.Reconcile(0.0, times.lookup);
        return CacheHit(cached.value), attempts, None, picks;
      }
    }
    out, attempts, picks := Contact(task.kind, names, breakers, replies, times);
    if out.StreamOpened? {
      open := reservation;
      return;
    }
    var usage: Option<nat> := None;
    if out.Served? {
      if key.Some? {
        cache.Insert(key.value, out.body);
      }
      usage := usageOf(out.body);
    }
    if usage.Some? {
      var _ := reservation.value.Reconcile(usage.value as real, times.leave);
    } else {
      reservation.value.Drop(times.leave);
    }
  }

  // The first read that is no chunk is not the end.
  predicate Breaks(polls: seq<Poll>) {
    |ChunksRead(polls)| < |polls| && polls[|ChunksRead(polls)|] != EndOfStream
  }

  // The stream that took the reservation over, with its two callbacks. One settles the
  // reservation at the chunk that completes the first usage record, or else it is refunded
  // when the callback is dropped; the other reports a break or a stall at the read that
  // shows it. `clock` gives the time of each read. The callbacks act on objects that the
  // loop does not read and that have nothing in common.
  method Stream(parse: JsonParser, polls: seq<Poll>, breaker: CircuitBreaker, open: ReservationHandle,
      clock: nat -> real, droppedAt: real)
    returns (output: seq<Item>, charges: seq<Charge>)
    requires !open.reconciled
    modifies open, open.bucket, breaker
    ensures output == Passed(ChunksRead(polls)) + (if Breaks(polls) then [Failure] else [])
    ensures
      var p, b := open.bucket.params, old(open.bucket.State());
      match BatchUsage(parse, Flatten(ChunksRead(polls)))
      case None => charges == [] && open.bucket.State() == BucketAfter(p, b, open.reserved, None, droppedAt)
      case Some(usage) =>
        && IsCharge(parse, ChunksRead(polls), charges, usage)
        && open.bucket.State() ==
           BucketAfter(p, b, open.reserved, Some(usage.prompt + usage.completion), clock(charges[0].at))
    ensures breaker.State() ==
            if Breaks(polls) then
              CircuitBreakers.RecordFailure(breaker.config, old(breaker.State()), clock(|ChunksRead(polls)|))
            else old(breaker.State())
  {
    hide Buckets.Reconcile, Buckets.Refund, CircuitBreakers.RecordFailure;
    hide BatchUsage, BatchContent, Passed, ChunksRead, FirstContentAt, FirstUsageAt, Flatten;
    var ttft, errors;
    output, ttft, charges, errors := Passthrough(parse, polls);
    if charges != [] {
      var usage := charges[0].usage;
      var _ := open.Reconcile((usage.prompt + usage.completion) as real, clock(charges[0].at));
    } else {
      open.Drop(droppedAt);
    }
    if errors != [] {
      breaker.RecordFailure(clock(errors[0]));
    }
  }
}
