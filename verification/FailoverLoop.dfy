// The failover loop of one handler as it is written, over breaker objects: the loop of
// src/handlers/chat.rs, lines 170-318, and that of src/handlers/embeddings.rs, lines
// 99-196, which differ only in the statuses they accept and in what a lost body means.
// Between two calls on a breaker nothing else runs here; Gateway.dfy interleaves.

module FailoverLoop {
  import opened Basics
  import opened Gateway
  import opened GatewayAnswers
  import opened CircuitBreakers
  import opened ProviderBreaker

  // What the upstream at one position would answer.
  datatype Reply = Reply(header: Header, body: Option<Body>)

  // A call on the breaker at a position.
  datatype Call = Call(position: nat, event: CircuitBreakers.Event)

  // The clock readings at a position: when it is asked, when headers are in, when a body
  // turns out to be lost.
  function AskedAt(i: nat): nat { 3 * i }
  function HeaderAt(i: nat): nat { 3 * i + 1 }
  function BodyAt(i: nat): nat { 3 * i + 2 }

  function CallsAt(kind: Kind, a: Attempt, i: nat, clock: nat -> real): seq<Call> {
    var asked := Call(i, Asked(clock(AskedAt(i))));
    match a
    case Denied => [asked]
    case Answered(h) =>
      var now := clock(HeaderAt(i));
      [asked, Call(i, if CountsAsFailure(kind, h) then Failed(now) else Succeeded(now))]
    case BodyBroken(_) =>
      [asked, Call(i, Succeeded(clock(HeaderAt(i)))), Call(i, Failed(clock(BodyAt(i))))]
  }

  // The calls a whole list of attempts makes.
  function Calls(kind: Kind, attempts: seq<Attempt>, clock: nat -> real): seq<Call> {
    if attempts == [] then []
    else
      var n := |attempts| - 1;
      Calls(kind, attempts[..n], clock) + CallsAt(kind, attempts[n], n, clock)
  }

  // What one breaker sees of them; two positions may share a breaker.
  ghost function Seen(b: CircuitBreaker, breakers: seq<CircuitBreaker>, calls: seq<Call>)
    : seq<CircuitBreakers.Event>
  {
    if calls == [] then []
    else
      var last := calls[|calls| - 1];
      Seen(b, breakers, calls[..|calls| - 1])
      + (if last.position < |breakers| && breakers[last.position] == b then [last.event] else [])
  }

  // What a contacted position amounts to.
  function Met(kind: Kind, reply: Reply): Attempt {
    if IsAcceptance(kind, reply.header) && !kind.ChatStream? && reply.body.None? then BodyBroken(reply.header)
    else Answered(reply.header)
  }

  predicate Matches(kind: Kind, a: Attempt, reply: Reply) {
    a.Denied? || a == Met(kind, reply)
  }

  // Every breaker is where its own part of the log leads from its starting state.
  ghost predicate Tracked(breakers: seq<CircuitBreaker>, start: map<CircuitBreaker, Breaker>, log: seq<Call>)
    reads breakers
  {
    forall b :: b in breakers ==> b in start && b.State() == Replay(b.config, start[b], Seen(b, breakers, log))
  }

  ghost function States(breakers: seq<CircuitBreaker>): map<CircuitBreaker, Breaker>
    reads breakers
  {
    map b | b in breakers :: b.State()
  }

  // Position k is passed over exactly if its breaker, after the calls made at earlier
  // positions, refuses.
  ghost predicate AskedRightly(kind: Kind, breakers: seq<CircuitBreaker>, start: map<CircuitBreaker, Breaker>,
      attempts: seq<Attempt>, clock: nat -> real, k: nat)
  {
    && k < |attempts| && k < |breakers| && breakers[k] in start
    && var b := breakers[k];
       var before := Replay(b.config, start[b], Seen(b, breakers, Calls(kind, attempts[..k], clock)));
       attempts[k].Denied? <==> !CircuitBreakers.AllowRequest(b.config, before, clock(AskedAt(k))).1
  }

  lemma AskedEarlier(kind: Kind, breakers: seq<CircuitBreaker>, start: map<CircuitBreaker, Breaker>,
      attempts: seq<Attempt>, a: Attempt, clock: nat -> real, k: nat)
    requires AskedRightly(kind, breakers, start, attempts, clock, k)
    ensures AskedRightly(kind, breakers, start, attempts + [a], clock, k)
  {
    assert (attempts + [a])[..k] == attempts[..k];
  }

  lemma AskedNow(kind: Kind, breakers: seq<CircuitBreaker>, start: map<CircuitBreaker, Breaker>,
      attempts: seq<Attempt>, a: Attempt, clock: nat -> real, state: Breaker)
    requires |attempts| < |breakers| && breakers[|attempts|] in start
    requires
      var b := breakers[|attempts|];
      && state == Replay(b.config, start[b], Seen(b, breakers, Calls(kind, attempts, clock)))
      && (a.Denied? <==> !CircuitBreakers.AllowRequest(b.config, state, clock(AskedAt(|attempts|))).1)
    ensures AskedRightly(kind, breakers, start, attempts + [a], clock, |attempts|)
  {
    assert (attempts + [a])[..|attempts|] == attempts;
  }

  lemma NothingLogged(kind: Kind, breakers: seq<CircuitBreaker>, start: map<CircuitBreaker, Breaker>,
      clock: nat -> real)
    requires forall b :: b in breakers ==> b in start && b.State() == start[b]
    ensures Calls(kind, [], clock) == [] && FirstDecisive(kind, []) == None
    ensures Tracked(breakers, start, [])
  {
  }

  // One call on the breaker at position i, and what it does to every breaker of the list.
  lemma SeenNext(b: CircuitBreaker, breakers: seq<CircuitBreaker>, log: seq<Call>, call: Call, from: Breaker)
    ensures
      Replay(b.config, from, Seen(b, breakers, log + [call])) ==
      if call.position < |breakers| && breakers[call.position] == b
      then CircuitBreakers.After(b.config, Replay(b.config, from, Seen(b, breakers, log)), call.event)
      else Replay(b.config, from, Seen(b, breakers, log))
  {
    hide Replay;
    assert (log + [call])[..|log|] == log;
    ReplaySnoc(b.config, from, Seen(b, breakers, log), call.event);
    assert Seen(b, breakers, log) + [] == Seen(b, breakers, log);
  }

  method AskAt(breakers: seq<CircuitBreaker>, i: nat, now: real,
      ghost start: map<CircuitBreaker, Breaker>, ghost log: seq<Call>)
    returns (allowed: bool)
    requires i < |breakers| && Tracked(breakers, start, log)
    modifies breakers[i]
    ensures Tracked(breakers, start, log + [Call(i, Asked(now))])
    ensures allowed == CircuitBreakers.AllowRequest(breakers[i].config, old(breakers[i].State()), now).1
  {
    hide Replay, Seen, CircuitBreakers.AllowRequest;
    allowed := breakers[i].AllowRequest(now);
    forall b | b in breakers
      ensures b in start && b.State() == Replay(b.config, start[b], Seen(b, breakers, log + [Call(i, Asked(now))]))
    {
      SeenNext(b, breakers, log, Call(i, Asked(now)), start[b]);
    }
  }

  method ReportAt(breakers: seq<CircuitBreaker>, i: nat, failed: bool, now: real,
      ghost start: map<CircuitBreaker, Breaker>, ghost log: seq<Call>)
    requires i < |breakers| && Tracked(breakers, start, log)
    modifies breakers[i]
    ensures Tracked(breakers, start, log + [Call(i, if failed then Failed(now) else Succeeded(now))])
  {
    hide Replay, Seen, CircuitBreakers.RecordFailure, CircuitBreakers.RecordSuccess;
    if failed {
      breakers[i].RecordFailure(now);
    } else {
      breakers[i].RecordSuccess();
    }
    ghost var call := Call(i, if failed then Failed(now) else Succeeded(now));
    forall b | b in breakers
      ensures b in start && b.State() == Replay(b.config, start[b], Seen(b, breakers, log + [call]))
    {
      SeenNext(b, breakers, log, call, start[b]);
    }
  }

  // What happens at position i, up to the outcome if it is decisive.
  method AttemptAt(kind: Kind, breakers: seq<CircuitBreaker>, i: nat, reply: Reply, clock: nat -> real,
      ghost start: map<CircuitBreaker, Breaker>, ghost log: seq<Call>)
    returns (attempt: Attempt, out: Option<Outcome>)
    requires i < |breakers| && Tracked(breakers, start, log)
    modifies breakers[i]
    ensures Tracked(breakers, start, log + CallsAt(kind, attempt, i, clock))
    ensures Matches(kind, attempt, reply)
    ensures attempt.Denied? <==>
              !CircuitBreakers.AllowRequest(breakers[i].config, old(breakers[i].State()), clock(AskedAt(i))).1
    ensures out.Some? <==> Decisive(kind, attempt)
    ensures out.Some? ==>
              match attempt
              case Denied => false
              case BodyBroken(_) => out.value == BodyLost && kind.Embeddings?
              case Answered(h) =>
                if IsRejection(h) then out.value == Rejected(h)
                else if !IsAcceptance(kind, h) then false
                else if kind.ChatStream? then out.value == StreamOpened
                else reply.body.Some? && out.value == Served(reply.body.value)
  {
    hide Tracked, CountsAsFailure, IsRejection, IsAcceptance, Classify, CircuitBreakers.AllowRequest;
    VerdictByStatus(kind, reply.header);
    var allowed := AskAt(breakers, i, clock(AskedAt(i)), start, log);
    if !allowed {
      return Denied, None;
    }
    ghost var asked := log + [Call(i, Asked(clock(AskedAt(i))))];
    var header := reply.header;
    ReportAt(breakers, i, Classify(kind, header) == Retry, clock(HeaderAt(i)), start, asked);
    ghost var reported :=
      Call(i, if CountsAsFailure(kind, header) then Failed(clock(HeaderAt(i))) else Succeeded(clock(HeaderAt(i))));
    assert asked + [reported] == log + CallsAt(kind, Answered(header), i, clock);
    attempt, out := Answered(header), None;
    match Classify(kind, header) {
      case Retry =>
      case Reject => out := Some(Rejected(header));
      case Accept =>
        if kind.ChatStream? {
          out := Some(StreamOpened);
        } else if reply.body.Some? {
          out := Some(Served(reply.body.value));
        } else {
          ReportAt(breakers, i, true, clock(BodyAt(i)), start, asked + [reported]);
          attempt := BodyBroken(header);
          assert asked + [reported] + [Call(i, Failed(clock(BodyAt(i))))] == log + CallsAt(kind, attempt, i, clock);
          out := if kind.Embeddings? then Some(BodyLost) else None;
        }
    }
  }

  // The outcomes of the loop, and whose body is served.
  predicate EndsLoop(attempts: seq<Attempt>, replies: seq<Reply>, out: Outcome) {
    && !out.RateLimited? && !out.CacheHit? && !out.Cancelled?
    && (out.Served? ==> 0 < |attempts| <= |replies| && replies[|attempts| - 1].body == Some(out.body))
  }

  // What the loop promises of its attempts and its outcome, breakers being at `start`.
  ghost predicate IsResult(kind: Kind, names: seq<Provider>, breakers: seq<CircuitBreaker>,
      start: map<CircuitBreaker, Breaker>, replies: seq<Reply>, clock: nat -> real,
      attempts: seq<Attempt>, out: Outcome)
  {
    && |names| == |breakers| == |replies| && |attempts| <= |names|
    && Follows(kind, names, attempts, out) && EndsLoop(attempts, replies, out)
    && (forall i :: 0 <= i < |attempts| ==> Matches(kind, attempts[i], replies[i]))
    && (forall k :: 0 <= k < |attempts| ==> AskedRightly(kind, breakers, start, attempts, clock, k))
  }

  lemma CallsSnoc(kind: Kind, attempts: seq<Attempt>, a: Attempt, clock: nat -> real)
    ensures Calls(kind, attempts + [a], clock) == Calls(kind, attempts, clock) + CallsAt(kind, a, |attempts|, clock)
  {
    assert (attempts + [a])[..|attempts|] == attempts;
  }

  // The loop gives the answer of the first decisive position, and each breaker ends
  // where exactly the calls of the attempts made lead.
  method Failover(kind: Kind, names: seq<Provider>, breakers: seq<CircuitBreaker>, replies: seq<Reply>,
      clock: nat -> real)
    returns (attempts: seq<Attempt>, out: Outcome)
    requires |names| == |breakers| == |replies|
    modifies breakers
    ensures IsResult(kind, names, breakers, old(States(breakers)), replies, clock, attempts, out)
    ensures forall b :: b in breakers ==>
              b.State() == Replay(b.config, old(b.State()), Seen(b, breakers, Calls(kind, attempts, clock)))
  {
    hide CountsAsFailure, IsRejection, IsAcceptance, CallsAt, Calls, Seen, Replay, LastContacted, FirstDecisive;
    hide AskedRightly;
    hide CircuitBreakers.AllowRequest, Met;
    attempts := [];
    ghost var start := States(breakers);
    NothingLogged(kind, breakers, start, clock);
    if |breakers| == 0 {
      return attempts, NoProviders;
    }
    var i := 0;
    while i < |breakers|
      invariant 0 <= i <= |breakers| && |attempts| == i
      invariant Tracked(breakers, start, Calls(kind, attempts, clock))
      invariant FirstDecisive(kind, attempts) == None
      invariant forall k :: 0 <= k < i ==> Matches(kind, attempts[k], replies[k])
      invariant forall k :: 0 <= k < i ==> AskedRightly(kind, breakers, start, attempts, clock, k)
    {
      ghost var state := breakers[i].State();
      var attempt, ended := AttemptAt(kind, breakers, i, replies[i], clock, start, Calls(kind, attempts, clock));
      CallsSnoc(kind, attempts, attempt, clock);
      DecisiveSnoc(kind, attempts, attempt);
      AskedNow(kind, breakers, start, attempts, attempt, clock, state);
      forall k | 0 <= k < i
        ensures AskedRightly(kind, breakers, start, attempts + [attempt], clock, k)
      {
        AskedEarlier(kind, breakers, start, attempts, attempt, clock, k);
      }
      attempts := attempts + [attempt];
      if ended.Some? {
        return attempts, ended.value;
      }
      i := i + 1;
    }
    out := AllFailed(LastContacted(attempts));
  }

  // ---- The contract determines the result ------------------------------------------------

  lemma {:induction false} ResultsAgree(kind: Kind, names: seq<Provider>, breakers: seq<CircuitBreaker>,
      start: map<CircuitBreaker, Breaker>, replies: seq<Reply>, clock: nat -> real,
      a: seq<Attempt>, outA: Outcome, b: seq<Attempt>, outB: Outcome, k: nat)
    requires IsResult(kind, names, breakers, start, replies, clock, a, outA)
    requires IsResult(kind, names, breakers, start, replies, clock, b, outB)
    requires k <= |a| && k <= |b|
    ensures a[..k] == b[..k]
  {
    hide Follows, EndsLoop, Met;
    if k > 0 {
      ResultsAgree(kind, names, breakers, start, replies, clock, a, outA, b, outB, k - 1);
      assert AskedRightly(kind, breakers, start, a, clock, k - 1);
      assert AskedRightly(kind, breakers, start, b, clock, k - 1);
      assert a[k - 1] == b[k - 1];
      assert a[..k] == a[..k - 1] + [a[k - 1]] && b[..k] == b[..k - 1] + [b[k - 1]];
    }
  }

  lemma {:induction false} FirstDecisiveStays(kind: Kind, a: seq<Attempt>, b: seq<Attempt>)
    requires FirstDecisive(kind, a).Some?
    ensures FirstDecisive(kind, a + b) == FirstDecisive(kind, a)
  {
    hide Decisive;
    assert (a + b)[0] == a[0] && (a + b)[1..] == a[1..] + b;
    if !Decisive(kind, a[0]) {
      FirstDecisiveStays(kind, a[1..], b);
    }
  }

  lemma ResultIsWhole(kind: Kind, names: seq<Provider>, a: seq<Attempt>, outA: Outcome, b: seq<Attempt>, outB: Outcome)
    requires Follows(kind, names, a, outA) && Follows(kind, names, b, outB)
    requires !outA.RateLimited? && !outA.CacheHit? && !outA.Cancelled?
    requires !outB.RateLimited? && !outB.CacheHit? && !outB.Cancelled?
    requires |a| <= |b| && b[..|a|] == a
    ensures a == b
  {
    hide FirstDecisive, LastContacted, CountsAsFailure, IsRejection, IsAcceptance;
    if |a| < |b| {
      assert b == a + b[|a|..];
      assert FirstDecisive(kind, a) == Some(|a| - 1);
      FirstDecisiveStays(kind, a, b[|a|..]);
    }
    assert b[..|a|] == b;
  }

  // Only the states of the breakers in the list matter.
  lemma ResultFrom(kind: Kind, names: seq<Provider>, breakers: seq<CircuitBreaker>,
      start: map<CircuitBreaker, Breaker>, other: map<CircuitBreaker, Breaker>, replies: seq<Reply>,
      clock: nat -> real, attempts: seq<Attempt>, out: Outcome)
    requires IsResult(kind, names, breakers, start, replies, clock, attempts, out)
    requires forall b :: b in breakers ==> b in start && b in other && start[b] == other[b]
    ensures IsResult(kind, names, breakers, other, replies, clock, attempts, out)
  {
    hide Follows, EndsLoop, Matches, Calls, Seen, Replay, CircuitBreakers.AllowRequest;
    forall k | 0 <= k < |attempts|
      ensures AskedRightly(kind, breakers, other, attempts, clock, k)
    {
      assert AskedRightly(kind, breakers, start, attempts, clock, k);
      assert breakers[k] in breakers;
    }
  }

  // For given replies, clock and breakers there is one result only, so the contract of
  // Failover leaves no choice: the right providers are contacted, and the right answer given.
  lemma ResultIsDetermined(kind: Kind, names: seq<Provider>, breakers: seq<CircuitBreaker>,
      start: map<CircuitBreaker, Breaker>, replies: seq<Reply>, clock: nat -> real,
      a: seq<Attempt>, outA: Outcome, b: seq<Attempt>, outB: Outcome)
    requires IsResult(kind, names, breakers, start, replies, clock, a, outA)
    requires IsResult(kind, names, breakers, start, replies, clock, b, outB)
    ensures a == b && outA == outB
  {
    hide AskedRightly, FirstDecisive, LastContacted, Matches;
    var k := if |a| <= |b| then |a| else |b|;
    ResultsAgree(kind, names, breakers, start, replies, clock, a, outA, b, outB, k);
    assert a[..|a|] == a && b[..|b|] == b;
    if |a| <= |b| {
      ResultIsWhole(kind, names, a, outA, b, outB);
    } else {
      ResultIsWhole(kind, names, b, outB, a, outA);
    }
  }

  // A position that is let through and answers 200 with a body ends the loop with that body,
  // or opens its stream; one that answers 4xx, other than 408 and 429, ends it with that.
  lemma ReplyDecidesResult(kind: Kind, names: seq<Provider>, breakers: seq<CircuitBreaker>,
      start: map<CircuitBreaker, Breaker>, replies: seq<Reply>, clock: nat -> real,
      attempts: seq<Attempt>, out: Outcome, k: nat, code: nat)
    requires IsResult(kind, names, breakers, start, replies, clock, attempts, out)
    requires k < |attempts| && !attempts[k].Denied? && replies[k].header == Status(code)
    ensures code / 100 == 4 && code != 408 && code != 429 ==> k == |attempts| - 1 && out == Rejected(Status(code))
    ensures code == 200 && kind.ChatStream? ==> k == |attempts| - 1 && out == StreamOpened
    ensures code == 200 && !kind.ChatStream? && replies[k].body.Some? ==>
              k == |attempts| - 1 && out == Served(replies[k].body.value)
  {
    hide Follows, AskedRightly;
    assert Matches(kind, attempts[k], replies[k]);
    if attempts[k].Answered? {
      AnswerByStatus(kind, names, attempts, out, k, code);
    }
  }
}
