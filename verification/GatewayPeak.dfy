// The bound of GatewayRecovery.BrokenStreamsNeedConcurrency is attained: as many streams as
// the threshold, open at once and then all broken, do open the breaker.

module GatewayPeak {
  import opened Basics
  import opened Gateway
  import opened GatewayMoves
  import opened CircuitBreakers
  import opened GatewayBreakers
  import opened GatewayRecovery
  import opened GatewayWitness

  // `open` streams are open at n and nothing else is, and it has failed `failures` times.
  ghost predicate Streams(c: Config, s: System, n: Provider, open: nat, failures: nat, peak: nat) {
    var p := ProviderOf(s, n);
    && Inv(c, s)
    && p.breaker.mode == Closed && p.breaker.failures == failures && p.earlyFailures == 0 && p.peak == peak
    && OpenAt(n, s.requests) == open
    && forall id :: 0 <= id < |s.requests| && IsOpenAt(s.requests[id], n) ==> s.requests[id].pc.Streaming?
  }

  lemma {:induction false} SomeOpen(n: Provider, requests: seq<Request>) returns (id: nat)
    requires OpenAt(n, requests) > 0
    ensures id < |requests| && IsOpenAt(requests[id], n)
  {
    if IsOpenAt(requests[0], n) {
      id := 0;
    } else {
      var k := SomeOpen(n, requests[1..]);
      id := k + 1;
    }
  }

  lemma AskClosed(c: Config, p: ProviderState, now: real)
    requires p.breaker.mode == Closed
    ensures AllowRequest(c.breaker, p.breaker, now).1
    ensures Ask(c, p, now).0 == p.(history := p.history + [Asked(now)])
  {
  }

  lemma EnteredOpens(c: Config, s: System, s1: System, n: Provider, open: nat)
    requires HasEntered(c, s, s1, n) && Streams(c, s, n, open, 0, open)
    ensures
      var p1 := ProviderOf(s1, n);
      && p1.breaker == BreakerOf(s, n) && p1.earlyFailures == 0 && p1.peak == open
      && OpenAt(n, s1.requests) == open
      && forall id :: 0 <= id < |s1.requests| && IsOpenAt(s1.requests[id], n) ==> s1.requests[id].pc.Streaming?
  {
    hide Inv;
    AskClosed(c, ProviderOf(s, n), s.now);
    var id := |s.requests|;
    assert s1.requests == s.requests + [s1.requests[id]];
    OpenPush(n, s.requests, s1.requests[id]);
  }

  lemma HeadOpens(c: Config, s: System, id: nat, n: Provider)
    requires id < |s.requests| && s.requests[id].pc.Sent? && s.requests[id].provider == n
    requires s.requests[id].kind == ChatStream && BreakerOf(s, n).mode == Closed
    ensures
      var s', p := Step(c, s, Act(id, Head(Status(200)))), ProviderOf(s, n);
      var p' := ProviderOf(s', n);
      && p'.breaker == p.breaker.(failures := 0) && p'.earlyFailures == p.earlyFailures
      && s'.now == s.now && s'.requests == s.requests[id := s'.requests[id]] && s'.requests[id].pc == Streaming
      && s'.requests[id].provider == n
      && OpenAt(n, s'.requests) == OpenAt(n, s.requests) + 1
      && p'.peak == if OpenAt(n, s'.requests) > p.peak then OpenAt(n, s'.requests) else p.peak
  {
    var s' := HeadMove(c, s, id, s.requests[id], Status(200));
    OpenPut(n, s.requests, id, s'.requests[id]);
    hide OpenAt;
  }

  // One more stream is opened.
  lemma OpensOne(c: Config, s: System, n: Provider, open: nat) returns (actions: seq<Action>)
    requires Validated(c) && n in Providers(c) && Streams(c, s, n, open, 0, open)
    ensures Streams(c, Run(c, s, actions), n, open + 1, 0, open + 1) && Run(c, s, actions).now == s.now
  {
    AskClosed(c, ProviderOf(s, n), s.now);
    var entering := Enter(c, s, n);
    var id, s1 := |s.requests|, Run(c, s, entering);
    EnteredOpens(c, s, s1, n, open);
    hide Inv, Step, Run, OpenAt;
    HeadOpens(c, s1, id, n);
    RunThen(c, s, entering, Act(id, Head(Status(200))));
    actions := entering + [Act(id, Head(Status(200)))];
    GatewayBreakers.RunKeepsInv(c, s, actions);
  }

  lemma OpensAll(c: Config, s: System, n: Provider, open: nat) returns (actions: seq<Action>)
    requires Validated(c) && n in Providers(c) && Streams(c, s, n, open, 0, open) && open <= Trip(c.breaker)
    ensures Streams(c, Run(c, s, actions), n, Trip(c.breaker), 0, Trip(c.breaker)) && Run(c, s, actions).now == s.now
    decreases Trip(c.breaker) - open
  {
    hide Streams, Run;
    if open == Trip(c.breaker) {
      actions := [];
      assert Run(c, s, []) == s by { RunNone(c, s); }
    } else {
      var first := OpensOne(c, s, n, open);
      var rest := OpensAll(c, Run(c, s, first), n, open + 1);
      RunAppend(c, s, first, rest);
      actions := first + rest;
    }
  }

  lemma BreakCloses(c: Config, s: System, id: nat, n: Provider)
    requires id < |s.requests| && s.requests[id].pc.Streaming? && s.requests[id].provider == n
    ensures
      var s', p := Step(c, s, Act(id, StreamDone(true))), ProviderOf(s, n);
      var p' := ProviderOf(s', n);
      && p'.breaker == RecordFailure(c.breaker, p.breaker, s.now)
      && p'.earlyFailures == p.earlyFailures && p'.peak == p.peak
      && s'.now == s.now && s'.requests == s.requests[id := s'.requests[id]] && !IsOpenAt(s'.requests[id], n)
      && OpenAt(n, s'.requests) == OpenAt(n, s.requests) - 1
  {
    hide MoveOn, RecordFailure;
    var s' := Step(c, s, Act(id, StreamDone(true)));
    Frame(c, s, id, StreamDone(true));
    Calls(c, s, id, StreamDone(true));
    StreamDoneShape(c, s, id, true);
    OpenPut(n, s.requests, id, s'.requests[id]);
  }

  // One after another they break.
  lemma {:induction false} BreaksAll(c: Config, s: System, n: Provider, open: nat) returns (actions: seq<Action>)
    requires 0 < open <= Trip(c.breaker)
    requires Streams(c, s, n, open, Trip(c.breaker) - open, Trip(c.breaker))
    ensures
      var p := ProviderOf(Run(c, s, actions), n);
      p.breaker.mode == Open && p.earlyFailures == 0 && p.peak == Trip(c.breaker) && Run(c, s, actions).now == s.now
    decreases open
  {
    hide Inv, Step, Run, OpenAt;
    var id := SomeOpen(n, s.requests);
    var a := Act(id, StreamDone(true));
    var s1 := Step(c, s, a);
    BreakCloses(c, s, id, n);
    RunOne(c, s, a);
    actions := [a];
    if open > 1 {
      GatewayBreakers.RunKeepsInv(c, s, [a]);
      var rest := BreaksAll(c, s1, n, open - 1);
      RunAppend(c, s, [a], rest);
      actions := [a] + rest;
    }
  }

  // Whatever the configuration, max(1, threshold) streams open at once, all broken, and no
  // other failure, open the breaker of a given provider; it takes no time at all.
  lemma BoundIsAttained(c: Config, start: real, n: Provider) returns (actions: seq<Action>)
    requires Validated(c) && n in Providers(c)
    ensures
      var s := GatewayRecovery.After(c, start, actions);
      var p := ProviderOf(s, n);
      && p.breaker.mode == Open && p.earlyFailures == 0 && s.now == start
      && p.peak == if c.breaker.threshold < 1 then 1 else c.breaker.threshold
  {
    InitInv(c, start);
    var opening := OpensAll(c, Init(start), n, 0);
    var s1 := Run(c, Init(start), opening);
    var breaking := BreaksAll(c, s1, n, Trip(c.breaker));
    RunAppend(c, Init(start), opening, breaking);
    actions := opening + breaking;
  }
}
