// When a provider can still recover. A handler that is dropped while it waits for
// headers never reports, so its probe keeps its slot: the property "a half-open breaker
// always gets its report" fails for runs with cancellation. This file says exactly in
// which states it has failed for good.

module GatewayWedge {
  import opened Basics
  import opened Gateway
  import opened GatewayMoves
  import opened CircuitBreakers
  import opened GatewayBreakers
  import opened GatewayRecovery
  import opened GatewayWitness
  import Answers = GatewayAnswers

  // A request that may still report to n.
  predicate Attends(r: Request, n: Provider) {
    r.provider == n && (r.pc.Sent? || r.pc.ReadingBody? || r.pc.Streaming?)
  }

  // Half-open, every slot taken, and nobody left who could report.
  predicate Wedged(c: Config, s: System, n: Provider) {
    && BreakerOf(s, n).mode == HalfOpen
    && BreakerOf(s, n).halfOpenCalls >= (if c.breaker.maxCalls < 1 then 1 else c.breaker.maxCalls)
    && forall id :: 0 <= id < |s.requests| ==> !Attends(s.requests[id], n)
  }

  // ---- Wedged is for ever ---------------------------------------------------------------

  lemma MoveStaysWedged(c: Config, s: System, id: nat, m: Move, n: Provider)
    requires Wedged(c, s, n) && id < |s.requests|
    ensures BreakerOf(MoveOn(c, s, id, m), n) == BreakerOf(s, n)
    ensures !Attends(MoveOn(c, s, id, m).requests[id], n)
  {
    hide MoveOn, AllowRequest;
    assert !Attends(s.requests[id], n);
    Frame(c, s, id, m);
    Calls(c, s, id, m);
    FullyTaken(c, BreakerOf(s, n), s.now);
    if m.Try? {
      TryShape(c, s, id);
    }
  }

  lemma FullyTaken(c: Config, b: Breaker, now: real)
    requires b.mode == HalfOpen && b.halfOpenCalls >= Slots(c.breaker)
    ensures AllowRequest(c.breaker, b, now) == (b, false)
  {
  }

  lemma StepStaysWedged(c: Config, s: System, a: Action, n: Provider)
    requires Wedged(c, s, n)
    ensures Wedged(c, Step(c, s, a), n) && BreakerOf(Step(c, s, a), n) == BreakerOf(s, n)
  {
    hide MoveOn, ArriveStep;
    StepGrows(c, s, a);
    match a
    case Arrive(_, _, _, _) => ArriveFrame(c, s, a);
    case Act(id, m) =>
      if id < |s.requests| {
        MoveStaysWedged(c, s, id, m, n);
        Frame(c, s, id, m);
      }
    case _ =>
  }

  // A wedged provider is never contacted again, by anybody, in any continuation.
  lemma {:induction false} WedgedForever(c: Config, s: System, actions: seq<Action>, n: Provider)
    requires Wedged(c, s, n)
    ensures Wedged(c, Run(c, s, actions), n) && BreakerOf(Run(c, s, actions), n) == BreakerOf(s, n)
    decreases |actions|
  {
    hide Wedged, Step, BreakerOf;
    if actions != [] {
      StepStaysWedged(c, s, actions[0], n);
      WedgedForever(c, Step(c, s, actions[0]), actions[1..], n);
    }
  }

  // A run in which nobody is dropped at the send await never gets there.
  lemma OnlyCancellationWedges(c: Config, start: real, actions: seq<Action>, n: Provider)
    requires NoDropAtSend(c, Init(start), actions)
    ensures !Wedged(c, GatewayRecovery.After(c, start, actions), n)
  {
    var s := GatewayRecovery.After(c, start, actions);
    NoOrphanedProbe(c, start, actions, n);
    if BreakerOf(s, n).mode == HalfOpen {
      var id: nat :| InFlightProbe(s, id, n);
      assert Attends(s.requests[id], n);
    }
  }

  // ---- Anything else can recover ---------------------------------------------------------

  // A newcomer that gets in and is answered closes the breaker.
  lemma NewcomerCloses(c: Config, s: System, n: Provider) returns (actions: seq<Action>)
    requires Validated(c) && n in Providers(c)
    requires BreakerOf(s, n).mode != Closed && AllowRequest(c.breaker, BreakerOf(s, n), s.now).1
    ensures BreakerOf(Run(c, s, actions), n).mode == Closed
  {
    hide Step, Run;
    var entering := Enter(c, s, n);
    var s' := Run(c, s, entering);
    var answer := Act(|s.requests|, Head(Status(200)));
    HeadCloses(c, s', |s.requests|, n);
    actions := entering + [answer];
    RunThen(c, s, entering, answer);
  }

  // An open breaker: everything in flight ends, the cooldown passes, a newcomer comes.
  lemma OpenCloses(c: Config, s: System, n: Provider) returns (actions: seq<Action>)
    requires Inv(c, s) && BodiesBegun(s) && Validated(c) && n in Providers(c) && BreakerOf(s, n).mode == Open
    ensures BreakerOf(Run(c, s, actions), n).mode == Closed
  {
    OpenRemembers(c, s, n);
    hide Inv, Step, Run, NobodyWaits;
    var wait := Tick(c.breaker.cooldownSeconds as real);
    var ending := EndsAll(c, s, 0, n);
    var s1 := Run(c, s, ending);
    Passing(c, s1, c.breaker.cooldownSeconds as real);
    RunThen(c, s, ending, wait);
    var closing := NewcomerCloses(c, Step(c, s1, wait), n);
    RunAppend(c, s, ending + [wait], closing);
    actions := ending + [wait] + closing;
  }

  // An open breaker remembers a failure, and not one from the future.
  lemma OpenRemembers(c: Config, s: System, n: Provider)
    requires Inv(c, s)
    ensures Coherent(c.breaker, BreakerOf(s, n))
    ensures BreakerOf(s, n).mode == Open ==>
              BreakerOf(s, n).lastFailure.Some? && BreakerOf(s, n).lastFailure.value <= s.now
  {
    assert ProviderOk(c, s, n);
  }

  lemma HeadCloses(c: Config, s: System, id: nat, n: Provider)
    requires id < |s.requests| && s.requests[id].pc.Sent? && s.requests[id].provider == n
    requires BreakerOf(s, n).mode != Open
    ensures BreakerOf(Step(c, s, Act(id, Head(Status(200)))), n).mode == Closed
  {
    hide OpenAt, TouchesOnly;
  }

  // A response that is still open can break, which opens the breaker.
  lemma BreakOpens(c: Config, s: System, id: nat, n: Provider) returns (a: Action)
    requires id < |s.requests| && Attends(s.requests[id], n) && !s.requests[id].pc.Sent? && BodiesBegun(s)
    requires BreakerOf(s, n).mode == HalfOpen
    ensures BreakerOf(Step(c, s, a), n).mode == Open && BodiesBegun(Step(c, s, a))
  {
    hide TouchesOnly, KeyOf;
    if s.requests[id].pc.Streaming? {
      a := Act(id, StreamDone(true));
      assert BreakerOf(Step(c, s, a), n) == RecordFailure(c.breaker, BreakerOf(s, n), s.now);
    } else {
      a := Act(id, Read(None, None));
      assert BreakerOf(Step(c, s, a), n) == RecordFailure(c.breaker, BreakerOf(s, n), s.now);
    }
  }

  lemma CanClose(c: Config, s: System, n: Provider) returns (actions: seq<Action>)
    requires Inv(c, s) && BodiesBegun(s) && Validated(c) && n in Providers(c) && !Wedged(c, s, n)
    ensures BreakerOf(Run(c, s, actions), n).mode == Closed
  {
    hide Inv, Step, BodiesBegun;
    var b := BreakerOf(s, n);
    if b.mode == Closed {
      actions := [];
    } else if b.mode == Open {
      actions := OpenCloses(c, s, n);
    } else if b.halfOpenCalls < Slots(c.breaker) {
      actions := NewcomerCloses(c, s, n);
    } else {
      var id :| 0 <= id < |s.requests| && Attends(s.requests[id], n);
      if s.requests[id].pc.Sent? {
        actions := [Act(id, Head(Status(200)))];
        HeadCloses(c, s, id, n);
        RunOne(c, s, Act(id, Head(Status(200))));
      } else {
        var a := BreakOpens(c, s, id, n);
        RunOne(c, s, a);
        GatewayBreakers.RunKeepsInv(c, s, [a]);
        var rest := OpenCloses(c, Step(c, s, a), n);
        actions := [a] + rest;
        RunAppend(c, s, [a], rest);
      }
    }
  }

  lemma BodiesHaveBegun(s: System)
    requires Answers.Inv(s)
    ensures BodiesBegun(s)
  {
    forall id | 0 <= id < |s.requests| && s.requests[id].pc.ReadingBody?
      ensures s.requests[id].attempts != []
    {
      Answers.TrailAt(s, id);
    }
  }

  // In every reachable state, cancellation allowed: a configured provider can still
  // recover exactly when it is not wedged.
  lemma RecoversUnlessWedged(c: Config, start: real, actions: seq<Action>, n: Provider)
    requires Validated(c) && n in Providers(c)
    ensures
      var s := GatewayRecovery.After(c, start, actions);
      !Wedged(c, s, n) <==> exists more :: BreakerOf(Run(c, s, more), n).mode == Closed
  {
    var s := GatewayRecovery.After(c, start, actions);
    InitInv(c, start);
    GatewayBreakers.RunKeepsInv(c, Init(start), actions);
    Answers.InitInv(start);
    Answers.RunKeepsInv(c, Init(start), actions);
    assert BodiesBegun(s) by { BodiesHaveBegun(s); }
    if Wedged(c, s, n) {
      forall more
        ensures BreakerOf(Run(c, s, more), n).mode != Closed
      {
        WedgedForever(c, s, more, n);
      }
    } else {
      var more := CanClose(c, s, n);
      assert BreakerOf(Run(c, s, more), n).mode == Closed;
    }
  }

  // ---- And wedged states are reachable ------------------------------------------------------

  // A newcomer is admitted at n and either drops its handler while waiting or meets a
  // connection error.
  lemma Visit(c: Config, s: System, n: Provider, abandon: bool) returns (actions: seq<Action>)
    requires Inv(c, s) && Validated(c) && n in Providers(c) && NobodyWaits(s)
    requires AllowRequest(c.breaker, BreakerOf(s, n), s.now).1
    ensures
      var s' := Run(c, s, actions);
      var admitted := AllowRequest(c.breaker, BreakerOf(s, n), s.now).0;
      && Inv(c, s') && NobodyWaits(s') && s'.now == s.now
      && BreakerOf(s', n) == (if abandon then admitted else RecordFailure(c.breaker, admitted, s.now))
  {
    hide Inv, AllowRequest, RecordFailure, Step, Run;
    var entering := Enter(c, s, n);
    var s' := Run(c, s, entering);
    var id := |s.requests|;
    var last := Act(id, if abandon then Cancel else Head(ConnectError));
    Leaves(c, s', id, n, abandon);
    actions := entering + [last];
    RunThen(c, s, entering, last);
    GatewayBreakers.RunKeepsInv(c, s, actions);
  }

  lemma Leaves(c: Config, s: System, id: nat, n: Provider, abandon: bool)
    requires id < |s.requests| && s.requests[id].pc.Sent? && s.requests[id].provider == n
    ensures
      var s' := Step(c, s, Act(id, if abandon then Cancel else Head(ConnectError)));
      && TouchesOnly(s, s', id) && !Waits(s'.requests[id])
      && BreakerOf(s', n) == (if abandon then BreakerOf(s, n) else RecordFailure(c.breaker, BreakerOf(s, n), s.now))
  {
    hide RecordFailure;
  }

  // Enough connection errors in a row open the breaker.
  lemma Trips(c: Config, s: System, n: Provider) returns (actions: seq<Action>)
    requires Inv(c, s) && Validated(c) && n in Providers(c) && NobodyWaits(s)
    requires BreakerOf(s, n).mode == Closed
    ensures
      var s' := Run(c, s, actions);
      Inv(c, s') && NobodyWaits(s') && BreakerOf(s', n).mode == Open
    decreases Trip(c.breaker) - BreakerOf(s, n).failures
  {
    hide Inv, NobodyWaits, Run;
    OpenRemembers(c, s, n);
    actions := Visit(c, s, n, false);
    var s' := Run(c, s, actions);
    if BreakerOf(s', n).mode != Open {
      var more := Trips(c, s', n);
      RunAppend(c, s, actions, more);
      actions := actions + more;
    }
  }

  // Abandoned probes use up the slots one by one.
  lemma Drains(c: Config, s: System, n: Provider) returns (actions: seq<Action>)
    requires Inv(c, s) && Validated(c) && n in Providers(c) && NobodyWaits(s)
    requires BreakerOf(s, n).mode == HalfOpen
    ensures Wedged(c, Run(c, s, actions), n)
    decreases Slots(c.breaker) - BreakerOf(s, n).halfOpenCalls
  {
    hide Inv;
    if BreakerOf(s, n).halfOpenCalls >= Slots(c.breaker) {
      actions := [];
    } else {
      actions := Visit(c, s, n, true);
      var more := Drains(c, Run(c, s, actions), n);
      RunAppend(c, s, actions, more);
      actions := actions + more;
    }
  }

  // Whatever the configuration, some run with dropped handlers leaves a given provider
  // unreachable for ever. Time passes only while nothing is in flight.
  lemma WedgeIsReachable(c: Config, start: real, n: Provider) returns (actions: seq<Action>)
    requires Validated(c) && n in Providers(c)
    ensures Wedged(c, GatewayRecovery.After(c, start, actions), n)
  {
    InitInv(c, start);
    var s0 := Init(start);
    var trip := Trips(c, s0, n);
    var s1 := Run(c, s0, trip);
    OpenRemembers(c, s1, n);
    hide Inv, Step, Run, NobodyWaits;
    var wait := Tick(c.breaker.cooldownSeconds as real);
    Passing(c, s1, c.breaker.cooldownSeconds as real);
    RunThen(c, s0, trip, wait);
    var s2 := Step(c, s1, wait);
    GatewayBreakers.RunKeepsInv(c, s0, trip + [wait]);
    assert NobodyWaits(s2) by { StillNobody(s1, s2); }
    var probe := Visit(c, s2, n, true);
    var s3 := Run(c, s2, probe);
    var drain := Drains(c, s3, n);
    RunAppend(c, s0, trip + [wait], probe);
    RunAppend(c, s0, trip + [wait] + probe, drain);
    actions := trip + [wait] + probe + drain;
  }

  lemma StillNobody(s: System, s': System)
    requires NobodyWaits(s) && s'.requests == s.requests
    ensures NobodyWaits(s')
  {
  }
}
