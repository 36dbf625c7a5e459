// How many requests of one client get past the RPM middleware, in every run of the
// gateway: src/middleware/rate_limit.rs, lines 171-199.

module GatewayAdmission {
  import opened Basics
  import opened ExactCache
  import opened Gateway
  import opened GatewayMoves
  import opened TokenBuckets
  import Ledger = GatewayLedger

  predicate IsArrival(a: Action, client: Client) {
    a.Arrive? && a.client == client && a.estimate >= 0.0 && IsJsonText(a.prompt.payload)
  }

  // The arrival is let through to its handler.
  predicate GetsThrough(c: Config, s: System, a: Action, client: Client) {
    && IsArrival(a, client)
    && var s' := Step(c, s, a);
       |s'.requests| == |s.requests| + 1 && s'.requests[|s.requests|].pc == Entered
  }

  // Requests of the client that get through at times within [from, to].
  function AdmittedBetween(c: Config, s: System, actions: seq<Action>, client: Client, from: real, to: real): nat
    decreases |actions|
  {
    if actions == [] then 0
    else
      (if from <= s.now <= to && GetsThrough(c, s, actions[0], client) then 1 else 0)
      + AdmittedBetween(c, Step(c, s, actions[0]), actions[1..], client, from, to)
  }

  // The limit, and as much again for every minute of the window.
  function Allowance(c: Config, seconds: real): real {
    c.rpm as real + c.rpm as real * seconds / 60.0
  }

  // What the run does to the client's RPM bucket.
  function Arrivals(c: Config, s: System, actions: seq<Action>, client: Client): seq<Event>
    decreases |actions|
  {
    if actions == [] then []
    else
      (if IsArrival(actions[0], client) then [Event(Consume(1.0), s.now)] else [])
      + Arrivals(c, Step(c, s, actions[0]), actions[1..], client)
  }

  // The bucket of a client, with the limit written out: a new client has it full, and it
  // fills again within a minute.
  function RpmBucket(c: Config, s: System, client: Client): Bucket {
    if client in s.accounts then s.accounts[client].rpm else Bucket(c.rpm as real, s.now)
  }

  function RpmParams(c: Config): Params {
    Params(c.rpm as real, c.rpm as real / 60.0)
  }

  lemma RpmIs(c: Config, s: System, client: Client)
    ensures Rpm(c) == RpmParams(c) && AccountOf(c, s, client).rpm == RpmBucket(c, s, client)
  {
    PerMinuteFills(c.rpm);
  }

  // An arrival charges the bucket one token and is let through exactly if that is
  // granted; if not it is answered with the bucket's hint.
  lemma ArrivalCharges(c: Config, s: System, a: Action, client: Client)
    requires IsArrival(a, client)
    ensures client in Step(c, s, a).accounts && Step(c, s, a).now == s.now
    ensures
      var s' := Step(c, s, a);
      var (rpm, answer) := TokenBuckets.TryConsume(RpmParams(c), RpmBucket(c, s, client), 1.0, s.now);
      && RpmBucket(c, s', client) == rpm && |s'.requests| == |s.requests| + 1
      && (GetsThrough(c, s, a, client) <==> answer.Granted?)
      && (answer.Refused? ==> s'.requests[|s.requests|].pc == Finished(RateLimited(answer.retryAfter)))
  {
    RpmIs(c, s, client);
    hide AccountOf, TokenBuckets.TryConsume, Rpm, RpmParams;
    assert AccountOf(c, Step(c, s, a), client) == AccountOf(c, s, client).(rpm :=
        TokenBuckets.TryConsume(Rpm(c), AccountOf(c, s, client).rpm, 1.0, s.now).0) by {
      StoredAccount(c, Step(c, s, a), client);
    }
  }

  // In every run an arrival gets through exactly if its client's bucket holds a token at
  // that moment, and is otherwise told the least whole number of seconds to wait for it.
  lemma ArrivalIsExact(c: Config, start: real, actions: seq<Action>, a: Action, client: Client)
    requires IsArrival(a, client)
    ensures
      var s := Run(c, Init(start), actions);
      var s', level := Step(c, s, a), LevelOf(c.rpm, RpmBucket(c, s, client), s.now);
      && (GetsThrough(c, s, a, client) <==> level >= 1.0)
      && (level < 1.0 ==>
            && |s'.requests| == |s.requests| + 1
            && var pc := s'.requests[|s.requests|].pc;
               pc.Finished? && pc.out.RateLimited? && HintFor(c.rpm, 1.0 - level, pc.out.retryAfter))
  {
    var s := Run(c, Init(start), actions);
    assert WellFormed(RpmParams(c), RpmBucket(c, s, client)) && RpmBucket(c, s, client).lastRefill <= s.now by {
      Ledger.InitInv(c, start);
      Ledger.RunAccounts(c, Init(start), actions);
      RpmIs(c, s, client);
      assert Ledger.AccountOk(c, AccountOf(c, s, client), s.now);
    }
    hide Run, Step, GetsThrough, IsArrival, RpmBucket, WellFormed, HintFor, LevelOf, RpmParams, TokenBuckets.TryConsume;
    ArrivalCharges(c, s, a, client);
    TokenOrHint(c, RpmBucket(c, s, client), s.now);
  }

  lemma TokenOrHint(c: Config, b: Bucket, now: real)
    requires WellFormed(RpmParams(c), b) && b.lastRefill <= now
    ensures
      match TokenBuckets.TryConsume(RpmParams(c), b, 1.0, now).1
      case Granted => LevelOf(c.rpm, b, now) >= 1.0
      case Refused(hint) => LevelOf(c.rpm, b, now) < 1.0 && HintFor(c.rpm, 1.0 - LevelOf(c.rpm, b, now), hint)
  {
    hide *;
    assert PerMinute(c.rpm) == RpmParams(c) by { ParamsAre(c); }
    AnswerIsExact(c.rpm, b, 1.0, now);
  }

  lemma ParamsAre(c: Config)
    ensures PerMinute(c.rpm) == RpmParams(c)
  {
    PerMinuteFills(c.rpm);
  }

  // Of the requests of a new client that arrive at one instant, as many get through as the
  // limit says.
  lemma BurstIsTheLimit(c: Config, s: System, burst: seq<Action>, client: Client)
    requires client !in s.accounts && forall i :: 0 <= i < |burst| ==> IsArrival(burst[i], client)
    ensures AdmittedBetween(c, s, burst, client, s.now, s.now) == if |burst| <= c.rpm then |burst| else c.rpm
  {
    BurstFrom(c, s, burst, client, c.rpm);
  }

  lemma {:induction false} BurstFrom(c: Config, s: System, burst: seq<Action>, client: Client, left: nat)
    requires forall i :: 0 <= i < |burst| ==> IsArrival(burst[i], client)
    requires RpmBucket(c, s, client) == Bucket(left as real, s.now)
    ensures AdmittedBetween(c, s, burst, client, s.now, s.now) == if |burst| <= left then |burst| else left
    decreases |burst|
  {
    hide Step, GetsThrough, IsArrival, RpmBucket;
    if burst != [] {
      ArrivalCharges(c, s, burst[0], client);
      NoTimePasses(RpmParams(c), Bucket(left as real, s.now), s.now);
      BurstFrom(c, Step(c, s, burst[0]), burst[1..], client, if left > 0 then left - 1 else 0);
    }
  }

  lemma NoTimePasses(p: Params, b: Bucket, now: real)
    requires b.lastRefill == now
    ensures
      var (b', answer) := TokenBuckets.TryConsume(p, b, 1.0, now);
      && (answer.Granted? <==> b.tokens >= 1.0)
      && b' == if b.tokens >= 1.0 then b.(tokens := b.tokens - 1.0) else b
  {
    hide RetryAfter, Inflow;
  }

  lemma StoredAccount(c: Config, s: System, client: Client)
    requires client in s.accounts
    ensures AccountOf(c, s, client) == s.accounts[client]
  {
  }

  // Nothing else does anything to it: it is never refunded.
  lemma OthersLeaveRpm(c: Config, s: System, a: Action, client: Client)
    requires !IsArrival(a, client)
    ensures client in s.accounts ==>
              client in Step(c, s, a).accounts && Step(c, s, a).accounts[client].rpm == s.accounts[client].rpm
    ensures client !in s.accounts && client in Step(c, s, a).accounts ==>
              Step(c, s, a).accounts[client].rpm == FullAt(Rpm(c), s.now)
    ensures Step(c, s, a).now >= s.now
    ensures client !in s.accounts && client in Step(c, s, a).accounts ==> Step(c, s, a).now == s.now
  {
    hide MoveOn, TokenBuckets.TryConsume, IsJsonText;
    if a.Act? && a.id < |s.requests| {
      MoveLeavesRpm(c, s, a.id, a.move, client);
    }
  }

  lemma MoveLeavesRpm(c: Config, s: System, id: nat, m: Move, client: Client)
    requires id < |s.requests|
    ensures
      var s' := MoveOn(c, s, id, m);
      && s'.now == s.now
      && (client in s.accounts ==> client in s'.accounts && s'.accounts[client].rpm == s.accounts[client].rpm)
      && (client !in s.accounts && client in s'.accounts ==> s'.accounts[client].rpm == FullAt(Rpm(c), s.now))
  {
    if IsFree(m) {
      hide MoveOn;
      Frame(c, s, id, m);
    } else {
      hide Buckets.TryConsume, Buckets.Reconcile, Buckets.Refund;
    }
  }

  // The RPM bucket sees exactly the arrivals, so what is proved of a bucket's runs
  // applies.
  lemma {:induction false} AdmissionIsBucketRun(
    c: Config, s: System, actions: seq<Action>, client: Client, from: real, to: real)
    requires client in s.accounts || (actions != [] && IsArrival(actions[0], client))
    ensures
      var events := Arrivals(c, s, actions, client);
      && AdmittedBetween(c, s, actions, client, from, to)
         == RequestsAdmitted(RpmParams(c), RpmBucket(c, s, client), events, from, to)
      && RequestsOnly(events) && Orderly(events, s.now)
    decreases |actions|
  {
    hide Step, TokenBuckets.TryConsume, GetsThrough, IsArrival;
    if actions != [] {
      var a, s' := actions[0], Step(c, s, actions[0]);
      var later := Arrivals(c, s', actions[1..], client);
      if IsArrival(a, client) {
        ArrivalCharges(c, s, a, client);
        AdmissionIsBucketRun(c, s', actions[1..], client, from, to);
        HeadTail(Event(Consume(1.0), s.now), later);
      } else {
        NotThrough(c, s, a, client);
        OthersLeaveRpm(c, s, a, client);
        AdmissionIsBucketRun(c, s', actions[1..], client, from, to);
        OrderlyEarlier(later, s'.now, s.now);
        assert [] + later == later;
      }
    }
  }

  lemma NotThrough(c: Config, s: System, a: Action, client: Client)
    requires !IsArrival(a, client)
    ensures !GetsThrough(c, s, a, client)
  {
    hide Step, IsArrival;
  }

  lemma OrderlyEarlier(events: seq<Event>, from: real, earlier: real)
    requires Orderly(events, from) && earlier <= from
    ensures Orderly(events, earlier)
  {
  }

  lemma BucketBounded(c: Config, birth: real, events: seq<Event>, from: real, to: real)
    requires from <= to && RequestsOnly(events) && Orderly(events, birth)
    ensures 0.0 <= RequestsAdmitted(Rpm(c), FullAt(Rpm(c), birth), events, from, to) as real <= Allowance(c, to - from)
  {
    hide RequestsOnly, Orderly, RequestsAdmitted;
    RequestWindow(c.rpm, birth, events, from, to);
  }

  lemma {:induction false} UnknownClientBounded(
    c: Config, s: System, actions: seq<Action>, client: Client, from: real, to: real)
    requires client !in s.accounts && from <= to
    ensures AdmittedBetween(c, s, actions, client, from, to) as real <= Allowance(c, to - from)
    decreases |actions|
  {
    hide Step, GetsThrough, IsArrival, RequestsAdmitted, RequestsOnly, Orderly, Allowance;
    BucketBounded(c, s.now, [], from, to) by { NoEvents(s.now); }
    if actions != [] {
      var a, s' := actions[0], Step(c, s, actions[0]);
      if IsArrival(a, client) {
        AdmissionIsBucketRun(c, s, actions, client, from, to);
        BucketBounded(c, s.now, Arrivals(c, s, actions, client), from, to);
      } else {
        NotThrough(c, s, a, client);
        OthersLeaveRpm(c, s, a, client);
        if client in s'.accounts {
          AdmissionIsBucketRun(c, s', actions[1..], client, from, to);
          BucketBounded(c, s'.now, Arrivals(c, s', actions[1..], client), from, to);
        } else {
          UnknownClientBounded(c, s', actions[1..], client, from, to);
        }
      }
    }
  }

  lemma NoEvents(now: real)
    ensures RequestsOnly([]) && Orderly([], now)
  {
  }

  // In every run and every window of time, a client gets no more than its limit plus
  // what flows in during the window past the RPM middleware, whatever its handlers do
  // and whatever becomes of the requests.
  lemma AdmissionsBounded(c: Config, start: real, actions: seq<Action>, client: Client, from: real, to: real)
    requires from <= to
    ensures AdmittedBetween(c, Init(start), actions, client, from, to) as real <= Allowance(c, to - from)
  {
    hide Allowance, AdmittedBetween;
    UnknownClientBounded(c, Init(start), actions, client, from, to);
  }
}
