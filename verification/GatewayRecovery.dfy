// Main results about breakers in runs of the gateway: who owes a report, when a
// provider can be tripped by broken streams, and how long it is left alone.

module GatewayRecovery {
  import opened Basics
  import opened Gateway
  import opened GatewayMoves
  import opened CircuitBreakers
  import opened GatewayBreakers

  // The state a run from an empty gateway reaches.
  function After(c: Config, start: real, actions: seq<Action>): System {
    Run(c, Init(start), actions)
  }

  lemma Reachable(c: Config, start: real, actions: seq<Action>, n: Provider)
    ensures Inv(c, After(c, start, actions)) && ProviderOk(c, After(c, start, actions), n)
  {
    InitInv(c, start);
    RunKeepsInv(c, Init(start), actions);
  }

  // ---- Half-open episodes -------------------------------------------------------------

  // In every run the probes of the current half-open episode that have not reported,
  // abandoned ones included, are one more than the slots in use. So an episode never
  // admits more than slots + 1 requests.
  lemma ProbesInFlight(c: Config, start: real, actions: seq<Action>, n: Provider)
    ensures
      var s := After(c, start, actions);
      var p := ProviderOf(s, n);
      p.breaker.mode == HalfOpen ==>
        && Owing(n, p.episode, s.requests) == p.breaker.halfOpenCalls + 1
        && Owing(n, p.episode, s.requests) <= (if c.breaker.maxCalls < 1 then 1 else c.breaker.maxCalls) + 1
  {
    Reachable(c, start, actions, n);
  }

  // No handler is dropped at the send await; it may be dropped anywhere else.
  predicate DropsAtSend(s: System, a: Action) {
    a.Act? && a.move.Cancel? && a.id < |s.requests| && s.requests[a.id].pc.Sent?
  }

  predicate NoDropAtSend(c: Config, s: System, actions: seq<Action>)
    decreases |actions|
  {
    actions == [] || (!DropsAtSend(s, actions[0]) && NoDropAtSend(c, Step(c, s, actions[0]), actions[1..]))
  }

  predicate OwesWhileSent(r: Request) {
    r.owes.Some? ==> r.pc.Sent?
  }

  lemma MoveOwesWhileSent(c: Config, s: System, id: nat, m: Move)
    requires id < |s.requests| && OwesWhileSent(s.requests[id])
    requires !(m.Cancel? && s.requests[id].pc.Sent?)
    ensures OwesWhileSent(MoveOn(c, s, id, m).requests[id])
  {
    hide MoveOn;
    Frame(c, s, id, m);
    match m
    case Try => TryShape(c, s, id);
    case Head(h) => HeadShape(c, s, id, h);
    case Read(body, usage) => ReadShape(c, s, id, body, usage);
    case StreamDone(broken) => StreamDoneShape(c, s, id, broken);
    case _ =>
  }

  lemma StepOwesWhileSent(c: Config, s: System, a: Action)
    requires forall i :: 0 <= i < |s.requests| ==> OwesWhileSent(s.requests[i])
    requires !DropsAtSend(s, a)
    ensures forall i :: 0 <= i < |Step(c, s, a).requests| ==> OwesWhileSent(Step(c, s, a).requests[i])
  {
    hide MoveOn, ArriveStep;
    if a.Arrive? {
      ArriveFrame(c, s, a);
    } else if a.Act? && a.id < |s.requests| {
      Frame(c, s, a.id, a.move);
      MoveOwesWhileSent(c, s, a.id, a.move);
    }
  }

  lemma {:induction false} RunOwesWhileSent(c: Config, s: System, actions: seq<Action>)
    requires forall i :: 0 <= i < |s.requests| ==> OwesWhileSent(s.requests[i])
    requires NoDropAtSend(c, s, actions)
    ensures forall i :: 0 <= i < |Run(c, s, actions).requests| ==> OwesWhileSent(Run(c, s, actions).requests[i])
    decreases |actions|
  {
    hide Step, OwesWhileSent;
    if actions != [] {
      StepOwesWhileSent(c, s, actions[0]);
      RunOwesWhileSent(c, Step(c, s, actions[0]), actions[1..]);
    }
  }

  ghost predicate InFlightProbe(s: System, id: nat, n: Provider) {
    && id < |s.requests| && s.requests[id].pc.Sent? && s.requests[id].provider == n
    && Owes(s.requests[id], n, ProviderOf(s, n).episode)
  }

  // If no handler is dropped while it waits for headers, no half-open breaker is ever
  // orphaned: a request this very episode admitted is still waiting for its response.
  lemma NoOrphanedProbe(c: Config, start: real, actions: seq<Action>, n: Provider)
    requires NoDropAtSend(c, Init(start), actions)
    ensures
      var s := After(c, start, actions);
      ProviderOf(s, n).breaker.mode == HalfOpen ==> exists id :: InFlightProbe(s, id, n)
  {
    var s := After(c, start, actions);
    var p := ProviderOf(s, n);
    Reachable(c, start, actions, n);
    RunOwesWhileSent(c, Init(start), actions);
    if p.breaker.mode == HalfOpen {
      OwingPositive(n, p.episode, s.requests);
      var id :| 0 <= id < |s.requests| && Owes(s.requests[id], n, p.episode);
      InvAt(c, s, n, id);
      assert OwesWhileSent(s.requests[id]);
      assert InFlightProbe(s, id, n);
    }
  }

  // In every run, a request that is waiting for headers owes its provider a report, and
  // one that has moved on owes nothing unless its handler was dropped.
  lemma OnlyWaitingOwes(c: Config, start: real, actions: seq<Action>, id: nat)
    requires id < |After(c, start, actions).requests|
    ensures
      var r := After(c, start, actions).requests[id];
      && (r.pc.Sent? ==> r.owes.Some? && r.owes.value.to == r.provider)
      && (!r.pc.Sent? && r.pc != Unwinding(Cancelled) && r.pc != Finished(Cancelled) ==> r.owes.None?)
  {
    Reachable(c, start, actions, "");
    InvAt(c, After(c, start, actions), "", id);
  }

  // Every call but an ask is a report; it ends the half-open episode of the breaker that
  // gets it, with all slots free, whoever makes it.
  lemma ReportEndsEpisode(c: Config, s: System, id: nat, m: Move)
    requires Inv(c, s) && id < |s.requests|
    requires !m.Try? && CallOf(s, s.requests[id], m).Some?
    ensures
      var r, s' := s.requests[id], MoveOn(c, s, id, m);
      var e := if m.Head? && !CountsAsFailure(r.kind, m.header) then Succeeded(s.now) else Failed(s.now);
      && s'.requests[id].owes.None?
      && ProviderOf(s', r.provider).history == ProviderOf(s, r.provider).history + [e]
      && ProviderOf(s', r.provider).breaker.mode != HalfOpen
      && ProviderOf(s', r.provider).breaker.halfOpenCalls == 0
      && forall other :: other != r.provider ==> ProviderOf(s', other) == ProviderOf(s, other)
  {
    hide MoveOn, CountsAsFailure, Inv, BreakerOk, ProbesOk, OpenOk, RecordSuccess, RecordFailure;
    var r := s.requests[id];
    Calls(c, s, id, m);
    InvAt(c, s, r.provider, id);
    ReportedBreaker(c, ProviderOf(s, r.provider), s.now);
    match m
    case Head(h) =>
      HeadShape(c, s, id, h);
    case Read(body, usage) => ReadShape(c, s, id, body, usage);
    case StreamDone(broken) => StreamDoneShape(c, s, id, broken);
  }

  lemma ReportedBreaker(c: Config, p: ProviderState, now: real)
    requires BreakerOk(c, p, now)
    ensures RecordSuccess(p.breaker).mode != HalfOpen && RecordSuccess(p.breaker).halfOpenCalls == 0
    ensures
      var b := RecordFailure(c.breaker, p.breaker, now);
      b.mode != HalfOpen && b.halfOpenCalls == 0
  {
  }

  // Every breaker is the replay of its history, so what CircuitBreakers proves about
  // histories holds in every run of the gateway.
  lemma BreakersReplayHistory(c: Config, start: real, actions: seq<Action>, n: Provider)
    ensures
      var p := ProviderOf(After(c, start, actions), n);
      && p.breaker == Replay(c.breaker, FRESH, p.history)
      && p.breaker.failures == FailuresSinceSuccess(p.history)
      && p.breaker.lastFailure == LastFailure(p.history)
      && (p.breaker.mode == Closed ==> p.breaker.failures == 0 || p.breaker.failures < c.breaker.threshold)
      && (p.breaker.mode != Closed ==> p.breaker.lastFailure.Some?)
  {
    Reachable(c, start, actions, n);
    CountersRefineHistory(c.breaker, ProviderOf(After(c, start, actions), n).history);
  }

  // ---- Failures of open responses --------------------------------------------------------

  // As long as a provider has only ever failed after its headers, the failure count and
  // the responses still open never exceed the most that were open at once. It can then
  // leave Closed only if that many reached the threshold, so streams that break one at
  // a time never trip a threshold of two or more.
  lemma BrokenStreamsNeedConcurrency(c: Config, start: real, actions: seq<Action>, n: Provider)
    ensures
      var s := After(c, start, actions);
      var p := ProviderOf(s, n);
      && OpenAt(n, s.requests) <= p.peak
      && (p.earlyFailures == 0 ==>
            && p.breaker.failures + OpenAt(n, s.requests) <= p.peak
            && (p.peak == 0 || p.peak < c.breaker.threshold ==> p.breaker.mode == Closed))
  {
    Reachable(c, start, actions, n);
  }

  // `earlyFailures` and `peak` mean what they say: the first counts the failures
  // reported by Head moves, the second is raised exactly by the moves that open a
  // response when more are open than ever before.
  lemma PeakIsTheMaximum(c: Config, s: System, id: nat, m: Move, n: Provider)
    requires Inv(c, s) && id < |s.requests|
    ensures
      var s' := MoveOn(c, s, id, m);
      var p, p' := ProviderOf(s, n), ProviderOf(s', n);
      && p'.peak == (if OpenAt(n, s'.requests) > p.peak then OpenAt(n, s'.requests) else p.peak)
      && p'.earlyFailures == p.earlyFailures
           + (if m.Head? && s.requests[id].pc.Sent? && s.requests[id].provider == n
                 && CountsAsFailure(s.requests[id].kind, m.header) then 1 else 0)
  {
    hide Inv, BreakerOk, ProbesOk, MoveOn, OpenAt, CountsAsFailure;
    MoveKeepsInv(c, s, id, m);
    InvAt(c, s, n, id);
    InvAt(c, MoveOn(c, s, id, m), n, id);
    if m.Head? {
      HeadPeak(c, s, id, m.header, n);
    } else {
      Calls(c, s, id, m);
    }
  }

  lemma HeadPeak(c: Config, s: System, id: nat, h: Header, n: Provider)
    requires Inv(c, s) && id < |s.requests|
    ensures
      var s' := MoveOn(c, s, id, Head(h));
      var p, p' := ProviderOf(s, n), ProviderOf(s', n);
      && p'.peak == (if OpenAt(n, s'.requests) > p.peak then OpenAt(n, s'.requests) else p.peak)
      && p'.earlyFailures == p.earlyFailures
           + (if s.requests[id].pc.Sent? && s.requests[id].provider == n
                 && CountsAsFailure(s.requests[id].kind, h) then 1 else 0)
  {
    hide OpenAt, Classify, CountsAsFailure, IsRejection, IsAcceptance, Inv, BreakerOk, ProbesOk;
    hide RecordSuccess, RecordFailure, TouchesOnly;
    var s' := HeadMove(c, s, id, s.requests[id], h);
    InvAt(c, s, n, id);
    if s.requests[id].pc.Sent? {
      OpenPut(n, s.requests, id, s'.requests[id]);
      VerdictByStatus(s.requests[id].kind, h);
    }
  }

  // ---- Cooling down ---------------------------------------------------------------------------

  predicate IsCooling(b: Breaker, t: real) {
    b.mode == Open && b.lastFailure.Some? && b.lastFailure.value >= t
  }

  predicate AwaitsHeaders(r: Request, n: Provider) {
    r.pc.Sent? && r.provider == n
  }

  lemma CallKeepsCooling(c: Config, b: Breaker, t: real, now: real)
    requires IsCooling(b, t) && t <= now < t + c.breaker.cooldownSeconds as real
    ensures AllowRequest(c.breaker, b, now) == (b, false)
    ensures IsCooling(RecordSuccess(b), t) && IsCooling(RecordFailure(c.breaker, b, now), t)
  {
  }

  lemma MoveKeepsCooling(c: Config, s: System, id: nat, m: Move, t: real, n: Provider)
    requires id < |s.requests| && IsCooling(ProviderOf(s, n).breaker, t)
    requires t <= s.now < t + c.breaker.cooldownSeconds as real
    ensures IsCooling(ProviderOf(MoveOn(c, s, id, m), n).breaker, t)
    ensures AwaitsHeaders(MoveOn(c, s, id, m).requests[id], n) ==> AwaitsHeaders(s.requests[id], n)
  {
    hide MoveOn, IsCooling, AllowRequest, RecordFailure, RecordSuccess;
    Frame(c, s, id, m);
    Calls(c, s, id, m);
    CallKeepsCooling(c, ProviderOf(s, n).breaker, t, s.now);
    if m.Try? {
      TryShape(c, s, id);
    }
  }

  lemma {:induction false} TimeAdvances(c: Config, s: System, actions: seq<Action>)
    ensures Run(c, s, actions).now >= s.now
    decreases |actions|
  {
    hide Step;
    if actions != [] {
      StepGrows(c, s, actions[0]);
      TimeAdvances(c, Step(c, s, actions[0]), actions[1..]);
    }
  }

  // From a failure at time t that leaves the breaker Open until t + cooldown, whatever the
  // handlers do and however many late reports arrive, nobody new is sent to the provider.
  lemma {:induction false} CoolingAdmitsNobody(c: Config, s: System, t: real, actions: seq<Action>, n: Provider)
    requires t <= s.now && IsCooling(ProviderOf(s, n).breaker, t)
    requires Run(c, s, actions).now < t + c.breaker.cooldownSeconds as real
    ensures IsCooling(ProviderOf(Run(c, s, actions), n).breaker, t)
    ensures
      var s' := Run(c, s, actions);
      forall id :: 0 <= id < |s'.requests| && AwaitsHeaders(s'.requests[id], n) ==>
                     id < |s.requests| && AwaitsHeaders(s.requests[id], n)
    decreases |actions|
  {
    hide MoveOn, ArriveStep, IsCooling;
    if actions != [] {
      var a := actions[0];
      var s1 := Step(c, s, a);
      TimeAdvances(c, s1, actions[1..]);
      StepGrows(c, s, a);
      if a.Act? && a.id < |s.requests| {
        MoveKeepsCooling(c, s, a.id, a.move, t, n);
      } else if a.Arrive? {
        ArriveFrame(c, s, a);
      }
      CoolingAdmitsNobody(c, s1, t, actions[1..], n);
    }
  }
}
