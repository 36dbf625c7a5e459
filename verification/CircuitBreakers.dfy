// The circuit breaker of src/router/circuit_breaker.rs as a timed state machine on
// values, and what it guarantees over whole histories. The class that carries the
// state in place is in ProviderBreaker.dfy.

module CircuitBreakers {
  import opened Basics

  datatype Mode = Closed | Open | HalfOpen

  // `maxCalls` is the configured half_open_max_calls; see Slots.
  datatype Settings = Settings(threshold: nat, cooldownSeconds: nat, maxCalls: nat)

  datatype Breaker = Breaker(mode: Mode, failures: nat, lastFailure: Option<real>, halfOpenCalls: nat)

  const FRESH := Breaker(Closed, 0, None, 0)

  function Slots(c: Settings): nat {
    if c.maxCalls < 1 then 1 else c.maxCalls
  }

  // Failures in a row that open a closed breaker: a threshold of zero acts as one.
  function Trip(c: Settings): nat {
    if c.threshold < 1 then 1 else c.threshold
  }

  predicate CooledDown(c: Settings, b: Breaker, now: real) {
    b.lastFailure.Some? && Max(now - b.lastFailure.value, 0.0) >= c.cooldownSeconds as real
  }

  predicate IsEligible(c: Settings, b: Breaker, now: real) {
    match b.mode
    case Closed => true
    case Open => CooledDown(c, b, now)
    case HalfOpen => b.halfOpenCalls < Slots(c)
  }

  // The request that turns Open into HalfOpen is admitted without taking a slot.
  function AllowRequest(c: Settings, b: Breaker, now: real): (Breaker, bool) {
    match b.mode
    case Closed => (b, true)
    case Open =>
      if CooledDown(c, b, now) then (b.(mode := HalfOpen, halfOpenCalls := 0), true) else (b, false)
    case HalfOpen =>
      if b.halfOpenCalls < Slots(c) then (b.(halfOpenCalls := b.halfOpenCalls + 1), true) else (b, false)
  }

  function RecordSuccess(b: Breaker): Breaker {
    if b.mode == HalfOpen then b.(mode := Closed, failures := 0, halfOpenCalls := 0)
    else b.(failures := 0)
  }

  function RecordFailure(c: Settings, b: Breaker, now: real): Breaker {
    var b' := b.(lastFailure := Some(now), failures := b.failures + 1);
    if b.mode == HalfOpen then b'.(mode := Open, halfOpenCalls := 0)
    else if b'.failures >= c.threshold then b'.(mode := Open)
    else b'
  }

  // Who is let through, with the limits written out: a half-open breaker has max(1, maximum)
  // slots and an open one opens up when its last failure is as old as the cooldown.
  lemma AdmissionByMode(c: Settings, b: Breaker, now: real)
    ensures
      AllowRequest(c, b, now).1 <==>
      match b.mode
      case Closed => true
      case Open =>
        b.lastFailure.Some? && (now - b.lastFailure.value >= c.cooldownSeconds as real || c.cooldownSeconds == 0)
      case HalfOpen => b.halfOpenCalls == 0 || b.halfOpenCalls < c.maxCalls
  {
  }

  // Building a candidate list asks the same question as sending does at that instant.
  lemma EligibleIffAllowed(c: Settings, b: Breaker, now: real)
    ensures IsEligible(c, b, now) <==> AllowRequest(c, b, now).1
    ensures !IsEligible(c, b, now) ==> AllowRequest(c, b, now).0 == b
  {
  }

  // ---- Histories --------------------------------------------------------------

  datatype Event = Asked(at: real) | Succeeded(at: real) | Failed(at: real)

  function After(c: Settings, b: Breaker, e: Event): Breaker {
    match e
    case Asked(now) => AllowRequest(c, b, now).0
    case Succeeded(_) => RecordSuccess(b)
    case Failed(now) => RecordFailure(c, b, now)
  }

  function Replay(c: Settings, b: Breaker, h: seq<Event>): Breaker {
    if h == [] then b else After(c, Replay(c, b, h[..|h| - 1]), h[|h| - 1])
  }

  lemma ReplaySnoc(c: Settings, b: Breaker, h: seq<Event>, e: Event)
    ensures Replay(c, b, h + [e]) == After(c, Replay(c, b, h), e)
  {
    assert (h + [e])[..|h|] == h;
  }

  // How often the breaker said yes along the history.
  function Admitted(c: Settings, b: Breaker, h: seq<Event>): nat {
    if h == [] then 0
    else
      var before := h[..|h| - 1];
      Admitted(c, b, before)
      + (if h[|h| - 1].Asked? && AllowRequest(c, Replay(c, b, before), h[|h| - 1].at).1 then 1 else 0)
  }

  function FailuresSinceSuccess(h: seq<Event>): nat {
    if h == [] then 0
    else
      var n := FailuresSinceSuccess(h[..|h| - 1]);
      match h[|h| - 1]
      case Asked(_) => n
      case Succeeded(_) => 0
      case Failed(_) => n + 1
  }

  function LastFailure(h: seq<Event>): Option<real> {
    if h == [] then None
    else if h[|h| - 1].Failed? then Some(h[|h| - 1].at)
    else LastFailure(h[..|h| - 1])
  }

  predicate Coherent(c: Settings, b: Breaker) {
    && (b.mode == Closed ==> b.failures < Trip(c))
    && (b.mode != Closed ==> b.lastFailure.Some?)
    && (b.mode == HalfOpen ==> b.halfOpenCalls <= Slots(c))
    && (b.mode != HalfOpen ==> b.halfOpenCalls == 0)
  }

  // The counters are functions of the history.
  lemma {:induction false} CountersRefineHistory(c: Settings, h: seq<Event>)
    ensures
      var b := Replay(c, FRESH, h);
      && b.failures == FailuresSinceSuccess(h)
      && b.lastFailure == LastFailure(h)
      && Coherent(c, b)
  {
    if h != [] {
      CountersRefineHistory(c, h[..|h| - 1]);
    }
  }

  // A failure leaves the breaker Open exactly when it was not Closed already or when
  // the failures since the last success now reach the threshold.
  lemma FailureTrips(c: Settings, h: seq<Event>, at: real)
    ensures
      var before := Replay(c, FRESH, h);
      var after := Replay(c, FRESH, h + [Failed(at)]);
      && (after.mode == Open <==> before.mode != Closed || FailuresSinceSuccess(h) + 1 >= c.threshold)
      && after.mode != HalfOpen && after.lastFailure == Some(at)
  {
    CountersRefineHistory(c, h);
    CountersRefineHistory(c, h + [Failed(at)]);
    ReplaySnoc(c, FRESH, h, Failed(at));
  }

  predicate Between(h: seq<Event>, from: real, before: real) {
    && (forall i :: 0 <= i < |h| ==> from <= h[i].at < before)
    && (forall i, j :: 0 <= i < j < |h| ==> h[i].at <= h[j].at)
  }

  // Once a failure at time t leaves the breaker Open, nothing is admitted before
  // t + cooldown, whatever mix of requests, late successes and late failures follows.
  lemma {:induction false} NothingAdmittedWhileCooling(c: Settings, h: seq<Event>, t: real, later: seq<Event>)
    requires Replay(c, FRESH, h + [Failed(t)]).mode == Open
    requires Between(later, t, t + c.cooldownSeconds as real)
    ensures Admitted(c, Replay(c, FRESH, h + [Failed(t)]), later) == 0
  {
    ReplaySnoc(c, FRESH, h, Failed(t));
    StaysOpen(c, Replay(c, FRESH, h + [Failed(t)]), t, later);
  }

  lemma {:induction false} StaysOpen(c: Settings, b: Breaker, t: real, h: seq<Event>)
    requires b.mode == Open && b.lastFailure == Some(t)
    requires Between(h, t, t + c.cooldownSeconds as real)
    ensures
      var b' := Replay(c, b, h);
      && b'.mode == Open && b'.lastFailure.Some? && t <= b'.lastFailure.value
      && (h == [] || b'.lastFailure.value <= Max(t, h[|h| - 1].at))
      && Admitted(c, b, h) == 0
  {
    if h != [] {
      StaysOpen(c, b, t, h[..|h| - 1]);
    }
  }

  // And at the end of the cooldown the next request is let through: for an open
  // breaker and a clock that has not run backwards this is an equivalence.
  lemma OpenAdmitsExactlyAfterCooldown(c: Settings, h: seq<Event>, now: real)
    requires Replay(c, FRESH, h).mode == Open
    requires LastFailure(h).Some? ==> LastFailure(h).value <= now
    ensures LastFailure(h).Some?
    ensures AllowRequest(c, Replay(c, FRESH, h), now).1 <==> now >= LastFailure(h).value + c.cooldownSeconds as real
  {
    CountersRefineHistory(c, h);
  }

  predicate OnlyAsks(h: seq<Event>) {
    forall i :: 0 <= i < |h| ==> h[i].Asked?
  }

  // A half-open episode admits one request more than it has slots: asked any number of
  // times, at any times, without a report in between, an open breaker whose cooldown is
  // over at the first admits min(n, max(1, maxCalls) + 1), and these are the first ones.
  lemma {:induction false} EpisodeAdmissions(c: Settings, b: Breaker, h: seq<Event>)
    requires b.mode == Open && OnlyAsks(h)
    requires h != [] ==> CooledDown(c, b, h[0].at)
    ensures
      var most := if c.maxCalls <= 1 then 2 else c.maxCalls + 1;
      && Admitted(c, b, h) == (if |h| <= most then |h| else most)
      && (h == [] ==> Replay(c, b, h) == b)
      && (h != [] ==> Replay(c, b, h).mode == HalfOpen && Replay(c, b, h).halfOpenCalls == Admitted(c, b, h) - 1)
  {
    if h != [] {
      EpisodeAdmissions(c, b, h[..|h| - 1]);
    }
  }
}
