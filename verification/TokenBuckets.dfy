// What the operations of the lazily refilled token bucket do to its state, and
// what follows for whole runs. The class itself is in RateLimiter.dfy.
//
// Token counts are exact reals and a clock reading is a number of seconds.
// `Instant::duration_since` never goes below zero, hence the Max in Elapsed.

module TokenBuckets {
  import opened Basics

  datatype Params = Params(capacity: real, rate: real)
  datatype Bucket = Bucket(tokens: real, lastRefill: real)
  datatype Answer = Granted | Refused(retryAfter: nat)

  const MAX_ELAPSED := 3600.0
  const U64_MAX: nat := 0xFFFF_FFFF_FFFF_FFFF

  function ParamsFor(capacity: real, refillPerSec: real): Params {
    Params(Max(capacity, 0.0), Max(refillPerSec, 0.0))
  }

  // `from_config`: a limit of n per minute is a burst of n refilled at n/60 a second.
  function PerMinute(limit: nat): Params {
    ParamsFor(limit as real, limit as real / 60.0)
  }

  function FullAt(p: Params, now: real): Bucket {
    Bucket(p.capacity, now)
  }

  function Elapsed(b: Bucket, now: real): real {
    Min(Max(now - b.lastRefill, 0.0), MAX_ELAPSED)
  }

  function Inflow(p: Params, seconds: real): real {
    p.rate * seconds
  }

  function Refill(p: Params, b: Bucket, now: real): Bucket {
    if Elapsed(b, now) > 0.0 then
      Bucket(Min(b.tokens + Inflow(p, Elapsed(b, now)), p.capacity), now)
    else
      b
  }

  // Float-to-u64 conversion saturates; the result is never below one second.
  function RetryAfter(p: Params, deficit: real): nat {
    var seconds := if p.rate > 0.0 then Ceiling(deficit / p.rate) else U64_MAX;
    if seconds < 1 then 1 else if seconds > U64_MAX then U64_MAX else seconds
  }

  function TryConsume(p: Params, b: Bucket, cost: real, now: real): (Bucket, Answer) {
    var r := Refill(p, b, now);
    if r.tokens >= cost then (r.(tokens := r.tokens - cost), Granted)
    else (r, Refused(RetryAfter(p, cost - r.tokens)))
  }

  function Refund(p: Params, b: Bucket, n: real, now: real): Bucket {
    var r := Refill(p, b, now);
    r.(tokens := Min(r.tokens + n, p.capacity))
  }

  // `ReservationHandle::reconcile`: the new bucket and what the request ends up
  // paying, which is the reserved amount when a deficit cannot be collected.
  function Reconcile(p: Params, b: Bucket, reserved: real, actual: real, now: real): (Bucket, real) {
    if actual < reserved then
      (Refund(p, b, reserved - actual, now), actual)
    else if actual > reserved then
      var (b', answer) := TryConsume(p, b, actual - reserved, now);
      (b', if answer.Granted? then actual else reserved)
    else
      (b, reserved)
  }

  // ---- The level of a bucket ------------------------------------------------

  predicate WellFormed(p: Params, b: Bucket) {
    0.0 <= b.tokens <= p.capacity && p.rate >= 0.0
  }

  // An empty bucket fills before the 3600 s bound on one refill can bite.
  predicate FillsWithinClamp(p: Params) {
    p.rate == 0.0 || Inflow(p, MAX_ELAPSED) >= p.capacity
  }

  // What a bucket filled continuously, and without that bound, holds at `now`.
  function Level(p: Params, b: Bucket, now: real): real {
    Min(b.tokens + Inflow(p, Max(now - b.lastRefill, 0.0)), p.capacity)
  }

  lemma InflowMonotone(p: Params, x: real, y: real)
    requires p.rate >= 0.0 && x <= y
    ensures Inflow(p, x) <= Inflow(p, y)
    ensures Inflow(p, 0.0) == 0.0
  {
    MulMonotone(p.rate, x, y);
  }

  lemma InflowSplits(p: Params, x: real, y: real)
    ensures Inflow(p, x) + Inflow(p, y) == Inflow(p, x + y)
  {
    MulSplit(p.rate, x, y);
  }

  lemma InflowReaches(p: Params, amount: real, seconds: real)
    requires p.rate > 0.0
    ensures amount / p.rate <= seconds <==> amount <= Inflow(p, seconds)
  {
    DivBound(p.rate, amount, seconds);
  }

  lemma PerMinuteFills(limit: nat)
    ensures PerMinute(limit) == Params(limit as real, limit as real / 60.0)
    ensures FillsWithinClamp(PerMinute(limit))
  {
    assert PerMinute(limit).rate * MAX_ELAPSED == limit as real * 60.0;
  }

  // The 3600 s bound is unobservable exactly when an empty bucket fills within it.
  lemma ClampUnobservable(p: Params)
    requires p.rate >= 0.0 && p.capacity >= 0.0
    ensures p.rate == 0.0 || p.rate * 3600.0 >= p.capacity <==>
            forall b: Bucket, now: real :: WellFormed(p, b) ==> Refill(p, b, now).tokens == Level(p, b, now)
  {
    if FillsWithinClamp(p) {
      forall b: Bucket, now: real | WellFormed(p, b)
        ensures Refill(p, b, now).tokens == Level(p, b, now)
      {
        RefillIsLevel(p, b, now);
      }
    } else {
      var b := Bucket(0.0, 0.0);
      var now := p.capacity / p.rate + MAX_ELAPSED;
      assert p.rate * now == p.capacity + p.rate * MAX_ELAPSED by {
        MulSplit(p.rate, p.capacity / p.rate, MAX_ELAPSED);
        assert p.rate * (p.capacity / p.rate) == p.capacity;
      }
      assert now > MAX_ELAPSED by { DivBound(p.rate, p.capacity, 0.0); }
      assert p.rate * now >= p.capacity by { MulMonotone(p.rate, 0.0, MAX_ELAPSED); }
      assert WellFormed(p, b);
      assert Refill(p, b, now).tokens < p.capacity;
      assert Level(p, b, now) == p.capacity;
    }
  }

  lemma RefillIsLevel(p: Params, b: Bucket, now: real)
    requires WellFormed(p, b) && FillsWithinClamp(p)
    ensures Refill(p, b, now).tokens == Level(p, b, now)
    ensures WellFormed(p, Refill(p, b, now))
    ensures Refill(p, b, now).lastRefill == Max(now, b.lastRefill)
  {
    var e := Max(now - b.lastRefill, 0.0);
    assert p.rate == 0.0 ==> Inflow(p, e) == 0.0 && Inflow(p, MAX_ELAPSED) == 0.0;
    hide Inflow;
    InflowMonotone(p, 0.0, e);
    if e > MAX_ELAPSED {
      InflowMonotone(p, MAX_ELAPSED, e);
    }
  }

  // Filling is a flow: looking at the bucket on the way changes nothing later.
  lemma LevelFlows(p: Params, b: Bucket, u: real, v: real)
    requires WellFormed(p, b)
    requires b.lastRefill <= u <= v
    ensures Level(p, b, v) == Min(Level(p, b, u) + Inflow(p, v - u), p.capacity)
  {
    hide Inflow;
    InflowSplits(p, u - b.lastRefill, v - u);
    assert (u - b.lastRefill) + (v - u) == v - b.lastRefill;
    InflowMonotone(p, 0.0, v - u);
  }

  // ---- Runs -----------------------------------------------------------------

  datatype Op = Consume(cost: real) | GiveBack(amount: real) | Observe
  datatype Event = Event(op: Op, at: real)

  function After(p: Params, b: Bucket, e: Event): Bucket {
    match e.op
    case Consume(cost) => TryConsume(p, b, cost, e.at).0
    case GiveBack(n) => Refund(p, b, n, e.at)
    case Observe => Refill(p, b, e.at)
  }

  predicate Grants(p: Params, b: Bucket, e: Event) {
    e.op.Consume? && TryConsume(p, b, e.op.cost, e.at).1.Granted?
  }

  // What the caller is told: the answer to a charge, hint included, or the tokens seen.
  datatype Response = Charge(answer: Answer) | Reading(tokens: real) | NoReply

  function Respond(p: Params, b: Bucket, e: Event): Response {
    match e.op
    case Consume(cost) => Charge(TryConsume(p, b, cost, e.at).1)
    case GiveBack(_) => NoReply
    case Observe => Reading(Refill(p, b, e.at).tokens)
  }

  // The same at a bucket that holds `level` at that moment.
  function RespondAt(p: Params, level: real, e: Event): Response {
    match e.op
    case Consume(cost) => Charge(if level >= cost then Granted else Refused(RetryAfter(p, cost - level)))
    case GiveBack(_) => NoReply
    case Observe => Reading(level)
  }

  function LevelAfter(p: Params, level: real, e: Event): real {
    match e.op
    case Consume(cost) => if level >= cost then level - cost else level
    case GiveBack(n) => Min(level + n, p.capacity)
    case Observe => level
  }

  function StateAfter(p: Params, b: Bucket, events: seq<Event>): Bucket
    decreases |events|
  {
    if events == [] then b else StateAfter(p, After(p, b, events[0]), events[1..])
  }

  // The clock never runs backwards, and nobody consumes or refunds a negative amount.
  predicate Orderly(events: seq<Event>, from: real) {
    events == [] ||
    (&& events[0].at >= from
     && (events[0].op.Consume? ==> events[0].op.cost >= 0.0)
     && (events[0].op.GiveBack? ==> events[0].op.amount >= 0.0)
     && Orderly(events[1..], events[0].at))
  }

  lemma StepWellFormed(p: Params, b: Bucket, e: Event)
    requires WellFormed(p, b) && FillsWithinClamp(p) && Orderly([e], b.lastRefill)
    ensures WellFormed(p, After(p, b, e))
    ensures After(p, b, e).lastRefill == e.at
    ensures After(p, b, e).tokens == LevelAfter(p, Level(p, b, e.at), e)
    ensures Respond(p, b, e) == RespondAt(p, Level(p, b, e.at), e)
    ensures Grants(p, b, e) <==> e.op.Consume? && Level(p, b, e.at) >= e.op.cost
    ensures Level(p, After(p, b, e), e.at) == After(p, b, e).tokens
  {
    hide Inflow, RetryAfter;
    RefillIsLevel(p, b, e.at);
    InflowMonotone(p, 0.0, 0.0);
  }

  // ---- Lazy refill refines a continuously filled tank -------------------------

  function Answers(p: Params, b: Bucket, events: seq<Event>): seq<Response>
    decreases |events|
  {
    if events == [] then []
    else [Respond(p, b, events[0])] + Answers(p, After(p, b, events[0]), events[1..])
  }

  // The reference: a tank holding `level` at time `at`, filled without pause and
  // without any bound on the elapsed time.
  function TankAnswers(p: Params, level: real, at: real, events: seq<Event>): seq<Response>
    decreases |events|
  {
    if events == [] then []
    else
      var e := events[0];
      var filled := Min(level + Inflow(p, e.at - at), p.capacity);
      [RespondAt(p, filled, e)] + TankAnswers(p, LevelAfter(p, filled, e), e.at, events[1..])
  }

  lemma {:induction false} LazyRefinesContinuous(p: Params, b: Bucket, from: real, events: seq<Event>)
    requires WellFormed(p, b) && FillsWithinClamp(p)
    requires b.lastRefill <= from && Orderly(events, from)
    ensures Answers(p, b, events) == TankAnswers(p, Level(p, b, from), from, events)
    decreases |events|
  {
    hide Inflow, RespondAt, LevelAfter, Respond;
    if events != [] {
      var e := events[0];
      StepWellFormed(p, b, e);
      LevelFlows(p, b, from, e.at);
      var b' := After(p, b, e);
      LazyRefinesContinuous(p, b', e.at, events[1..]);
    }
  }

  // The run with every observation and every refused call taken out.
  function Essential(p: Params, b: Bucket, events: seq<Event>): seq<Event>
    decreases |events|
  {
    if events == [] then []
    else
      var rest := Essential(p, After(p, b, events[0]), events[1..]);
      if events[0].op.GiveBack? || Grants(p, b, events[0]) then [events[0]] + rest else rest
  }

  // Two buckets no caller can tell apart from `from` on.
  predicate Alike(p: Params, b: Bucket, c: Bucket, from: real) {
    && WellFormed(p, b) && WellFormed(p, c)
    && b.lastRefill <= from && c.lastRefill <= from
    && Level(p, b, from) == Level(p, c, from)
  }

  lemma {:induction false} AlikeAnswers(p: Params, b: Bucket, c: Bucket, from: real, events: seq<Event>)
    requires FillsWithinClamp(p) && Alike(p, b, c, from) && Orderly(events, from)
    ensures Answers(p, b, events) == Answers(p, c, events)
  {
    LazyRefinesContinuous(p, b, from, events);
    LazyRefinesContinuous(p, c, from, events);
  }

  function LastTime(events: seq<Event>, from: real): real
    decreases |events|
  {
    if events == [] then from else LastTime(events[1..], events[0].at)
  }

  // Observations and refused calls, however many, leave every later answer alone.
  lemma ObservationsInvisible(p: Params, b: Bucket, from: real, events: seq<Event>, later: seq<Event>)
    requires WellFormed(p, b) && FillsWithinClamp(p)
    requires b.lastRefill <= from && Orderly(events, from) && Orderly(later, LastTime(events, from))
    ensures Answers(p, StateAfter(p, b, events), later) == Answers(p, StateAfter(p, b, Essential(p, b, events)), later)
  {
    EssentialAlike(p, b, b, from, events);
    var seen, unseen := StateAfter(p, b, events), StateAfter(p, b, Essential(p, b, events));
    AlikeAnswers(p, seen, unseen, LastTime(events, from), later);
  }

  lemma {:induction false} EssentialAlike(p: Params, b: Bucket, c: Bucket, from: real, events: seq<Event>)
    requires FillsWithinClamp(p) && Alike(p, b, c, from) && Orderly(events, from)
    ensures Alike(p, StateAfter(p, b, events), StateAfter(p, c, Essential(p, b, events)), LastTime(events, from))
    decreases |events|
  {
    hide Inflow;
    if events != [] {
      var e := events[0];
      var b' := After(p, b, e);
      StepWellFormed(p, b, e);
      StepWellFormed(p, c, e);
      LevelFlows(p, b, from, e.at);
      LevelFlows(p, c, from, e.at);
      if e.op.GiveBack? || Grants(p, b, e) {
        EssentialAlike(p, b', After(p, c, e), e.at, events[1..]);
        assert ([e] + Essential(p, b', events[1..]))[1..] == Essential(p, b', events[1..]);
      } else {
        InflowMonotone(p, 0.0, e.at - from);
        EssentialAlike(p, b', c, e.at, events[1..]);
      }
    }
  }

  // ---- Reserve, then drop -----------------------------------------------------

  function Decisions(p: Params, b: Bucket, events: seq<Event>): seq<bool>
    decreases |events|
  {
    if events == [] then []
    else [Grants(p, b, events[0])] + Decisions(p, After(p, b, events[0]), events[1..])
  }

  // The fullest the bucket ever is until t1.
  function Peak(p: Params, b: Bucket, events: seq<Event>, t1: real): real
    decreases |events|
  {
    if events == [] then Level(p, b, t1)
    else
      var e := events[0];
      Max(Max(Level(p, b, e.at), After(p, b, e).tokens), Peak(p, After(p, b, e), events[1..], t1))
  }

  // What two buckets differ by, while the same is granted from both, shrinks only when
  // the fuller one overflows: by how much depends on the peak of the other.
  lemma {:induction false} GapAfter(p: Params, b: Bucket, c: Bucket, gap: real, from: real, events: seq<Event>,
                                    t1: real)
    requires WellFormed(p, b) && WellFormed(p, c) && FillsWithinClamp(p)
    requires b.lastRefill <= from && c.lastRefill <= from && gap >= 0.0
    requires Level(p, c, from) == Level(p, b, from) + gap
    requires Orderly(events, from) && LastTime(events, from) <= t1
    requires Decisions(p, b, events) == Decisions(p, c, events)
    ensures
      var b', c' := StateAfter(p, b, events), StateAfter(p, c, events);
      && WellFormed(p, b') && WellFormed(p, c') && b'.lastRefill <= t1 && c'.lastRefill <= t1 && from <= t1
      && Level(p, c', t1) == Level(p, b', t1) + Min(gap, p.capacity - Peak(p, b, events, t1))
    decreases |events|
  {
    hide Inflow, Level, After, Grants, Respond, RespondAt, LevelAfter;
    if events == [] {
      GapFlows(p, b, c, gap, from, t1);
    } else {
      var e := events[0];
      DecisionsNext(p, b, events);
      DecisionsNext(p, c, events);
      GapStep(p, b, c, gap, from, e);
      var left := Min(gap, p.capacity - Max(Level(p, b, e.at), After(p, b, e).tokens));
      GapAfter(p, After(p, b, e), After(p, c, e), left, e.at, events[1..], t1);
    }
  }

  lemma DecisionsNext(p: Params, b: Bucket, events: seq<Event>)
    requires events != []
    ensures Decisions(p, b, events) != [] && Decisions(p, b, events)[0] == Grants(p, b, events[0])
    ensures Decisions(p, b, events)[1..] == Decisions(p, After(p, b, events[0]), events[1..])
  {
  }

  lemma GapFlows(p: Params, b: Bucket, c: Bucket, gap: real, from: real, now: real)
    requires WellFormed(p, b) && WellFormed(p, c) && gap >= 0.0
    requires b.lastRefill <= from <= now && c.lastRefill <= from
    requires Level(p, c, from) == Level(p, b, from) + gap
    ensures Level(p, c, now) == Level(p, b, now) + Min(gap, p.capacity - Level(p, b, now))
    ensures Level(p, b, now) <= p.capacity
  {
    hide Inflow;
    LevelFlows(p, b, from, now);
    LevelFlows(p, c, from, now);
    InflowMonotone(p, 0.0, now - from);
  }

  lemma GapStep(p: Params, b: Bucket, c: Bucket, gap: real, from: real, e: Event)
    requires WellFormed(p, b) && WellFormed(p, c) && FillsWithinClamp(p) && gap >= 0.0
    requires b.lastRefill <= from && c.lastRefill <= from && Orderly([e], from)
    requires Level(p, c, from) == Level(p, b, from) + gap
    requires Grants(p, b, e) == Grants(p, c, e)
    ensures
      var b', c' := After(p, b, e), After(p, c, e);
      var left := Min(gap, p.capacity - Max(Level(p, b, e.at), b'.tokens));
      && WellFormed(p, b') && WellFormed(p, c') && b'.lastRefill == e.at == c'.lastRefill && left >= 0.0
      && Level(p, c', e.at) == Level(p, b', e.at) + left
  {
    hide Level, After, Grants, Respond, RespondAt;
    GapFlows(p, b, c, gap, from, e.at);
    StepWellFormed(p, b, e);
    StepWellFormed(p, c, e);
  }

  // A reservation of k is dropped at t1. If in between the same was granted as would have
  // been without it, the drop leaves no trace exactly if the bucket never came so full
  // that k more would not have fitted, or was never fuller than it is at the drop.
  lemma DropInvisibleIff(p: Params, b: Bucket, k: real, t0: real, between: seq<Event>, t1: real)
    requires WellFormed(p, b) && FillsWithinClamp(p)
    requires k >= 0.0 && b.lastRefill <= t0
    requires TryConsume(p, b, k, t0).1.Granted?
    requires Orderly(between, t0) && LastTime(between, t0) <= t1
    requires Decisions(p, TryConsume(p, b, k, t0).0, between) == Decisions(p, b, between)
    ensures
      var held := TryConsume(p, b, k, t0).0;
      var end := StateAfter(p, held, between);
      var peak := Peak(p, held, between, t1);
      (forall later :: Orderly(later, t1) ==>
         Answers(p, Refund(p, end, k, t1), later) == Answers(p, StateAfter(p, b, between), later))
      <==> peak + k <= p.capacity || peak == Level(p, end, t1)
  {
    hide Inflow, Orderly, Peak, Decisions, Answers;
    var held := TryConsume(p, b, k, t0).0;
    var end, plain := StateAfter(p, held, between), StateAfter(p, b, between);
    var peak := Peak(p, held, between, t1);
    var dropped := Refund(p, end, k, t1);
    HeldLevel(p, b, k, t0);
    GapAfter(p, held, b, k, t0, between, t1);
    PeakBounds(p, held, t0, between, t1);
    DropLevel(p, end, k, t1);
    if peak + k <= p.capacity || peak == Level(p, end, t1) {
      forall later | Orderly(later, t1)
        ensures Answers(p, dropped, later) == Answers(p, plain, later)
      {
        AlikeAnswers(p, dropped, plain, t1, later);
      }
    } else {
      TellApart(p, dropped, plain, t1);
    }
  }

  lemma HeldLevel(p: Params, b: Bucket, k: real, t0: real)
    requires WellFormed(p, b) && FillsWithinClamp(p) && k >= 0.0 && b.lastRefill <= t0
    requires TryConsume(p, b, k, t0).1.Granted?
    ensures
      var held := TryConsume(p, b, k, t0).0;
      WellFormed(p, held) && held.lastRefill == t0 && Level(p, b, t0) == Level(p, held, t0) + k
  {
    StepWellFormed(p, b, Event(Consume(k), t0));
  }

  lemma DropLevel(p: Params, end: Bucket, k: real, t1: real)
    requires WellFormed(p, end) && FillsWithinClamp(p) && k >= 0.0 && end.lastRefill <= t1
    ensures
      var dropped := Refund(p, end, k, t1);
      && WellFormed(p, dropped) && dropped.lastRefill <= t1
      && Level(p, dropped, t1) == Min(Level(p, end, t1) + k, p.capacity)
  {
    StepWellFormed(p, end, Event(GiveBack(k), t1));
  }

  lemma {:induction false} PeakBounds(p: Params, b: Bucket, from: real, events: seq<Event>, t1: real)
    requires WellFormed(p, b) && FillsWithinClamp(p) && b.lastRefill <= from
    requires Orderly(events, from) && LastTime(events, from) <= t1
    ensures Level(p, StateAfter(p, b, events), t1) <= Peak(p, b, events, t1) <= p.capacity
    decreases |events|
  {
    if events != [] {
      StepWellFormed(p, b, events[0]);
      PeakBounds(p, After(p, b, events[0]), events[0].at, events[1..], t1);
    }
  }

  // Buckets at different levels answer some charge differently.
  lemma TellApart(p: Params, b: Bucket, c: Bucket, at: real)
    requires WellFormed(p, b) && WellFormed(p, c) && FillsWithinClamp(p)
    requires b.lastRefill <= at && c.lastRefill <= at && Level(p, c, at) < Level(p, b, at)
    ensures exists later :: Orderly(later, at) && Answers(p, b, later) != Answers(p, c, later)
  {
    hide Inflow, RetryAfter;
    RefillIsLevel(p, b, at);
    RefillIsLevel(p, c, at);
    var e := Event(Consume(Level(p, b, at)), at);
    assert Answers(p, b, [e])[0] == Charge(Granted);
    assert Answers(p, c, [e])[0].answer.Refused?;
    assert Orderly([e], at);
  }

  predicate OnlyObservations(events: seq<Event>) {
    forall i :: 0 <= i < |events| ==> events[i].op.Observe?
  }

  // With only observations in between it is never fuller than at the end.
  lemma ReserveThenDropInvisible(p: Params, b: Bucket, k: real, t0: real, looks: seq<Event>, t1: real,
                                 later: seq<Event>)
    requires WellFormed(p, b) && FillsWithinClamp(p)
    requires k >= 0.0 && b.lastRefill <= t0
    requires TryConsume(p, b, k, t0).1.Granted?
    requires OnlyObservations(looks) && Orderly(looks, t0) && LastTime(looks, t0) <= t1
    requires Orderly(later, t1)
    ensures Answers(p, Refund(p, StateAfter(p, TryConsume(p, b, k, t0).0, looks), k, t1), later) == Answers(p, b, later)
  {
    hide Inflow, Answers, Peak, StateAfter, Level, TryConsume, Orderly, OnlyObservations, Decisions;
    var held := TryConsume(p, b, k, t0).0;
    HeldLevel(p, b, k, t0);
    PeakOfObservations(p, held, t0, looks, t1);
    PeakOfObservations(p, b, t0, looks, t1);
    DropInvisibleIff(p, b, k, t0, looks, t1);
    AlikeAnswers(p, StateAfter(p, b, looks), b, t1, later);
  }

  lemma {:induction false} PeakOfObservations(p: Params, b: Bucket, from: real, looks: seq<Event>, t1: real)
    requires WellFormed(p, b) && FillsWithinClamp(p) && b.lastRefill <= from
    requires OnlyObservations(looks) && Orderly(looks, from) && LastTime(looks, from) <= t1
    ensures Decisions(p, b, looks) == seq(|looks|, _ => false)
    ensures Alike(p, StateAfter(p, b, looks), b, t1) && from <= t1
    ensures Peak(p, b, looks, t1) == Level(p, StateAfter(p, b, looks), t1) >= Level(p, b, from)
    decreases |looks|
  {
    hide Inflow;
    if looks != [] {
      var e := looks[0];
      StepWellFormed(p, b, e);
      PeakOfObservations(p, After(p, b, e), e.at, looks[1..], t1);
      LevelFlows(p, b, from, e.at);
      LevelFlows(p, b, e.at, t1);
      LevelFlows(p, After(p, b, e), e.at, t1);
      InflowMonotone(p, 0.0, e.at - from);
      InflowMonotone(p, 0.0, t1 - e.at);
    } else {
      LevelFlows(p, b, from, t1);
      InflowMonotone(p, 0.0, t1 - from);
    }
  }

  // A visible drop, since a reservation shelters tokens from overflowing. Ten tokens are
  // held for a minute, somebody else spends the ten that flowed in meanwhile, and the drop
  // still returns ten; without it none are left.
  lemma DropAfterSpendingIsVisible()
    ensures
      var p := PerMinute(10);
      var b := FullAt(p, 0.0);
      var spend := Event(Consume(10.0), 60.0);
      var held := TryConsume(p, b, 10.0, 0.0).0;
      && Grants(p, held, spend) && Grants(p, b, spend)
      && Refund(p, After(p, held, spend), 10.0, 60.0).tokens == 10.0
      && After(p, b, spend).tokens == 0.0
  {
  }

  // ---- Sliding window ---------------------------------------------------------

  // What a run spends, and what it gives back, at times within [s, t].
  function WindowSpent(p: Params, b: Bucket, events: seq<Event>, s: real, t: real): real
    decreases |events|
  {
    if events == [] then 0.0
    else
      var e := events[0];
      (if s <= e.at <= t && Grants(p, b, e) then e.op.cost else 0.0)
      + WindowSpent(p, After(p, b, e), events[1..], s, t)
  }

  function WindowGivenBack(events: seq<Event>, s: real, t: real): real
    decreases |events|
  {
    if events == [] then 0.0
    else
      (if s <= events[0].at <= t && events[0].op.GiveBack? then events[0].op.amount else 0.0)
      + WindowGivenBack(events[1..], s, t)
  }

  // Holds for every rate and capacity: the bound on one refill only loses tokens.
  lemma RefillBounds(p: Params, b: Bucket, now: real)
    requires b.tokens <= p.capacity && p.rate >= 0.0 && b.lastRefill <= now
    ensures Refill(p, b, now).tokens <= p.capacity
    ensures Refill(p, b, now).tokens <= b.tokens + Inflow(p, now - b.lastRefill)
    ensures Refill(p, b, now).lastRefill == now
  {
    InflowMonotone(p, Elapsed(b, now), now - b.lastRefill);
  }

  lemma {:induction false} SpentInside(p: Params, b: Bucket, events: seq<Event>, s: real, t: real)
    requires b.tokens <= p.capacity && p.rate >= 0.0
    requires s <= b.lastRefill <= t && Orderly(events, b.lastRefill)
    ensures WindowSpent(p, b, events, s, t)
            <= Max(b.tokens, 0.0) + Inflow(p, t - b.lastRefill) + WindowGivenBack(events, s, t)
    decreases |events|
  {
    hide Inflow;
    InflowMonotone(p, 0.0, t - b.lastRefill);
    if events != [] {
      var e := events[0];
      if e.at > t {
        SpentOutside(p, b, events, s, t);
        GivenBackNonNegative(events, b.lastRefill, s, t);
      } else {
        RefillBounds(p, b, e.at);
        InflowMonotone(p, 0.0, e.at - b.lastRefill);
        SpentInside(p, After(p, b, e), events[1..], s, t);
        InflowSplits(p, e.at - b.lastRefill, t - e.at);
        assert (e.at - b.lastRefill) + (t - e.at) == t - b.lastRefill;
      }
    }
  }

  lemma {:induction false} SpentOutside(p: Params, b: Bucket, events: seq<Event>, s: real, t: real)
    requires events != [] && events[0].at > t && Orderly(events, events[0].at)
    ensures WindowSpent(p, b, events, s, t) == 0.0
    decreases |events|
  {
    if |events| > 1 {
      SpentOutside(p, After(p, b, events[0]), events[1..], s, t);
    }
  }

  lemma {:induction false} GivenBackNonNegative(events: seq<Event>, from: real, s: real, t: real)
    requires Orderly(events, from)
    ensures WindowGivenBack(events, s, t) >= 0.0
    decreases |events|
  {
    if events != [] {
      GivenBackNonNegative(events[1..], events[0].at, s, t);
    }
  }

  // In every run and every window, no more is consumed than a full bucket, what
  // flows in during the window and what is refunded during it.
  lemma {:induction false} SlidingWindow(p: Params, b: Bucket, events: seq<Event>, s: real, t: real)
    requires b.tokens <= p.capacity && p.capacity >= 0.0 && p.rate >= 0.0
    requires s <= t && Orderly(events, b.lastRefill)
    ensures WindowSpent(p, b, events, s, t) <= p.capacity + Inflow(p, t - s) + WindowGivenBack(events, s, t)
    decreases |events|
  {
    hide Inflow;
    InflowMonotone(p, 0.0, t - s);
    if events != [] {
      var e := events[0];
      if e.at > t {
        SpentOutside(p, b, events, s, t);
        GivenBackNonNegative(events, b.lastRefill, s, t);
      } else {
        RefillBounds(p, b, e.at);
        var b' := After(p, b, e);
        if e.at < s {
          SlidingWindow(p, b', events[1..], s, t);
        } else {
          SpentInside(p, b', events[1..], s, t);
          InflowMonotone(p, t - e.at, t - s);
          GivenBackNonNegative(events[1..], e.at, s, t);
        }
      }
    }
  }

  function RequestsAdmitted(p: Params, b: Bucket, events: seq<Event>, s: real, t: real): nat
    decreases |events|
  {
    if events == [] then 0
    else
      (if s <= events[0].at <= t && Grants(p, b, events[0]) then 1 else 0)
      + RequestsAdmitted(p, After(p, b, events[0]), events[1..], s, t)
  }

  // The RPM bucket is charged one token a request and never refunded.
  predicate RequestsOnly(events: seq<Event>) {
    forall i :: 0 <= i < |events| ==> events[i].op == Consume(1.0) || events[i].op == Observe
  }

  lemma RequestWindow(rpm: nat, birth: real, events: seq<Event>, s: real, t: real)
    requires s <= t && RequestsOnly(events) && Orderly(events, birth)
    ensures RequestsAdmitted(PerMinute(rpm), FullAt(PerMinute(rpm), birth), events, s, t) as real
            <= rpm as real + rpm as real * (t - s) / 60.0
  {
    assert MinuteFlow(rpm, t - s) == rpm as real * (t - s) / 60.0;
    hide Inflow, PerMinute, Orderly, RequestsOnly, RequestsAdmitted, MinuteFlow;
    PerMinuteFills(rpm);
    PerMinuteInflow(rpm, t - s);
    RequestsWithinInflow(PerMinute(rpm), birth, events, s, t);
  }

  lemma RequestsWithinInflow(p: Params, birth: real, events: seq<Event>, s: real, t: real)
    requires p.capacity >= 0.0 && p.rate >= 0.0
    requires s <= t && RequestsOnly(events) && Orderly(events, birth)
    ensures RequestsAdmitted(p, FullAt(p, birth), events, s, t) as real <= p.capacity + Inflow(p, t - s)
  {
    hide Inflow, WindowSpent, WindowGivenBack;
    SlidingWindow(p, FullAt(p, birth), events, s, t);
    RequestsAreSpending(p, FullAt(p, birth), events, s, t);
  }

  lemma PerMinuteInflow(limit: nat, seconds: real)
    ensures Inflow(PerMinute(limit), seconds) == MinuteFlow(limit, seconds)
  {
  }

  lemma {:induction false} RequestsAreSpending(p: Params, b: Bucket, events: seq<Event>, s: real, t: real)
    requires RequestsOnly(events)
    ensures RequestsAdmitted(p, b, events, s, t) as real == WindowSpent(p, b, events, s, t)
    ensures WindowGivenBack(events, s, t) == 0.0
    decreases |events|
  {
    if events != [] {
      RequestsAreSpending(p, After(p, b, events[0]), events[1..], s, t);
    }
  }

  // ---- Retry-After --------------------------------------------------------------

  // After a refusal at `now`, an undisturbed retry w seconds later is granted exactly
  // when the deficit has flowed in.
  lemma RetryGranted(p: Params, b: Bucket, cost: real, now: real, w: real)
    requires WellFormed(p, b) && FillsWithinClamp(p) && p.rate > 0.0
    requires b.lastRefill <= now && w >= 0.0 && cost <= p.capacity
    requires TryConsume(p, b, cost, now).1.Refused?
    ensures
      var (b', _) := TryConsume(p, b, cost, now);
      TryConsume(p, b', cost, now + w).1.Granted? <==> (cost - b'.tokens) / p.rate <= w
  {
    hide Inflow;
    var b' := TryConsume(p, b, cost, now).0;
    RefillIsLevel(p, b, now);
    RefillIsLevel(p, b', now + w);
    InflowReaches(p, cost - b'.tokens, w);
  }

  predicate GrantedAfter(p: Params, b: Bucket, cost: real, now: real, seconds: nat) {
    TryConsume(p, b, cost, now + seconds as real).1.Granted?
  }

  // For a per-minute bucket and a cost it can ever hold, the hint is the least whole
  // number of seconds after which an undisturbed retry succeeds, and at most 60.
  lemma RetryAfterIsExact(limit: nat, b: Bucket, cost: real, now: real)
    requires WellFormed(PerMinute(limit), b) && b.lastRefill <= now
    requires 0.0 <= cost <= limit as real
    requires TryConsume(PerMinute(limit), b, cost, now).1.Refused?
    ensures
      var p := PerMinute(limit);
      var (b', answer) := TryConsume(p, b, cost, now);
      && 1 <= answer.retryAfter <= 60
      && forall w: nat :: GrantedAfter(p, b', cost, now, w) <==> w >= answer.retryAfter
  {
    var p := PerMinute(limit);
    PerMinuteFills(limit);
    var (b', answer) := TryConsume(p, b, cost, now);
    RefillIsLevel(p, b, now);
    var deficit := cost - b'.tokens;
    assert 0.0 < deficit <= limit as real;
    DivBound(p.rate, deficit, 60.0);
    DivBound(p.rate, deficit, 0.0);
    forall w: nat
      ensures GrantedAfter(p, b', cost, now, w) <==> w >= answer.retryAfter
    {
      RetryGranted(p, b, cost, now, w as real);
    }
  }

  // What flows into a bucket with that limit per minute, and what it holds at `now`, with
  // the rate and the capacity written out.
  function MinuteFlow(limit: nat, seconds: real): real {
    limit as real * seconds / 60.0
  }

  function LevelOf(limit: nat, b: Bucket, now: real): real {
    var filled := b.tokens + MinuteFlow(limit, now - b.lastRefill);
    if filled <= limit as real then filled else limit as real
  }

  function OverflowOf(limit: nat, b: Bucket, back: real, now: real): real {
    var excess := b.tokens + MinuteFlow(limit, now - b.lastRefill) + back - limit as real;
    if excess > 0.0 then excess else 0.0
  }

  lemma WrittenOut(limit: nat, b: Bucket, back: real, now: real)
    requires b.lastRefill <= now
    ensures Level(PerMinute(limit), b, now) == LevelOf(limit, b, now)
    ensures Overflow(PerMinute(limit), b, back, now) == OverflowOf(limit, b, back, now)
    ensures Inflow(PerMinute(limit), now - b.lastRefill) == MinuteFlow(limit, now - b.lastRefill)
  {
    PerMinuteFills(limit);
    PerMinuteInflow(limit, now - b.lastRefill);
    hide Inflow, PerMinute, MinuteFlow;
  }

  // A charge is granted exactly if what is left and what has flowed in since covers it.
  lemma GrantedExactly(limit: nat, b: Bucket, cost: real, now: real)
    requires WellFormed(PerMinute(limit), b) && b.lastRefill <= now
    ensures TryConsume(PerMinute(limit), b, cost, now).1.Granted? <==> LevelOf(limit, b, now) >= cost
  {
    PerMinuteFills(limit);
    WrittenOut(limit, b, 0.0, now);
    RefillIsLevel(PerMinute(limit), b, now);
    hide Inflow, PerMinute, Level, LevelOf, Refill;
  }

  // The hint, for every cost: the least whole number of seconds, one at least, in which the
  // deficit would flow in, as far as 64 bits can say.
  lemma HintIsLeast(limit: nat, b: Bucket, cost: real, now: real)
    requires WellFormed(PerMinute(limit), b) && b.lastRefill <= now
    requires TryConsume(PerMinute(limit), b, cost, now).1.Refused?
    ensures
      var deficit := cost - LevelOf(limit, b, now);
      var hint := TryConsume(PerMinute(limit), b, cost, now).1.retryAfter;
      HintFor(limit, deficit, hint)
  {
    var p := PerMinute(limit);
    PerMinuteFills(limit);
    RefillIsLevel(p, b, now);
    WrittenOut(limit, b, 0.0, now);
    var deficit := cost - Level(p, b, now);
    if limit > 0 {
      SameQuotient(deficit, limit as real);
    }
    hide Level, LevelOf, Refill, Inflow;
  }

  lemma AnswerIsExact(limit: nat, b: Bucket, cost: real, now: real)
    requires WellFormed(PerMinute(limit), b) && b.lastRefill <= now
    ensures
      match TryConsume(PerMinute(limit), b, cost, now).1
      case Granted => LevelOf(limit, b, now) >= cost
      case Refused(hint) => LevelOf(limit, b, now) < cost && HintFor(limit, cost - LevelOf(limit, b, now), hint)
  {
    hide PerMinute, HintFor, LevelOf, TryConsume, WellFormed;
    GrantedExactly(limit, b, cost, now);
    if TryConsume(PerMinute(limit), b, cost, now).1.Refused? {
      HintIsLeast(limit, b, cost, now);
    }
  }

  lemma SameQuotient(deficit: real, limit: real)
    requires limit > 0.0
    ensures deficit / (limit / 60.0) == deficit * 60.0 / limit
  {
    var x := deficit / (limit / 60.0);
    assert (limit / 60.0) * x == deficit;
    assert limit * x == deficit * 60.0;
    var y := deficit * 60.0 / limit;
    assert limit * y == deficit * 60.0;
    MulStrict(limit, x, y);
    MulStrict(limit, y, x);
  }

  predicate HintFor(limit: nat, deficit: real, hint: nat) {
    if limit == 0 || deficit * 60.0 / limit as real > 18446744073709551615.0 then hint == 18446744073709551615
    else IsLeastWait(hint, deficit * 60.0 / limit as real)
  }

  predicate IsLeastWait(hint: nat, due: real) {
    1 <= hint && due <= hint as real && (hint == 1 || hint as real - 1.0 < due)
  }

  // A cost above the capacity is refused in every state, whatever the hint says.
  lemma TooLargeNeverGranted(p: Params, b: Bucket, cost: real, events: seq<Event>, now: real)
    requires b.tokens <= p.capacity && p.rate >= 0.0 && cost > p.capacity
    requires Orderly(events, b.lastRefill)
    ensures TryConsume(p, StateAfter(p, b, events), cost, now).1.Refused?
  {
    RunBelowCapacity(p, b, events);
  }

  lemma {:induction false} RunBelowCapacity(p: Params, b: Bucket, events: seq<Event>)
    requires b.tokens <= p.capacity && p.rate >= 0.0
    requires Orderly(events, b.lastRefill)
    ensures StateAfter(p, b, events).tokens <= p.capacity
    decreases |events|
  {
    if events != [] {
      RefillBounds(p, b, events[0].at);
      RunBelowCapacity(p, After(p, b, events[0]), events[1..]);
    }
  }

  // ---- Conservation -------------------------------------------------------------

  // What does not fit when the bucket has been filled up to `now` and `back` tokens are
  // handed back to it.
  function Overflow(p: Params, b: Bucket, back: real, now: real): real {
    Max(0.0, b.tokens + Inflow(p, now - b.lastRefill) + back - p.capacity)
  }

  // The operation that makes b into b' at `now`, handing back `back` tokens and taking out
  // `taken`, neither makes tokens nor loses any, except exactly those that do not fit.
  predicate Conserves(p: Params, b: Bucket, b': Bucket, back: real, taken: real, now: real) {
    && WellFormed(p, b') && b'.lastRefill == now
    && b'.tokens == b.tokens + Inflow(p, now - b.lastRefill) + back - taken - Overflow(p, b, back, now)
  }

  lemma ConsumeConserves(p: Params, b: Bucket, cost: real, now: real)
    requires WellFormed(p, b) && FillsWithinClamp(p) && b.lastRefill <= now && cost >= 0.0
    ensures
      var (b', answer) := TryConsume(p, b, cost, now);
      Conserves(p, b, b', 0.0, if answer.Granted? then cost else 0.0, now)
  {
    hide Inflow, RetryAfter;
    RefillIsLevel(p, b, now);
    InflowMonotone(p, 0.0, now - b.lastRefill);
  }

  lemma RefundConserves(p: Params, b: Bucket, n: real, now: real)
    requires WellFormed(p, b) && FillsWithinClamp(p) && b.lastRefill <= now && n >= 0.0
    ensures Conserves(p, b, Refund(p, b, n, now), n, 0.0, now)
  {
    hide Inflow;
    RefillIsLevel(p, b, now);
    InflowMonotone(p, 0.0, now - b.lastRefill);
  }

  // The final charge is the actual cost when the reservation covers it or the rest can
  // be collected, and the reservation otherwise; what is not charged comes back. An actual
  // cost equal to the reservation does not touch the bucket.
  lemma ReconcileConserves(p: Params, b: Bucket, reserved: real, actual: real, now: real)
    requires WellFormed(p, b) && FillsWithinClamp(p) && b.lastRefill <= now
    requires reserved >= 0.0 && actual >= 0.0
    ensures
      var (b', charge) := Reconcile(p, b, reserved, actual, now);
      && (if actual == reserved then b' == b
          else Conserves(p, b, b', Max(0.0, reserved - actual), Max(0.0, charge - reserved), now))
      && charge == (if actual <= reserved || Level(p, b, now) >= actual - reserved then actual else reserved)
  {
    hide Inflow, RetryAfter;
    RefillIsLevel(p, b, now);
    if actual < reserved {
      RefundConserves(p, b, reserved - actual, now);
    } else if actual > reserved {
      ConsumeConserves(p, b, actual - reserved, now);
    }
  }
}
