// What the handlers and the breakers keep together, in every run of the gateway.

module GatewayBreakers {
  import opened Basics
  import opened ExactCache
  import opened Gateway
  import opened GatewayMoves
  import opened CircuitBreakers

  // Requests admitted by episode e of n that have not reported, abandoned ones included.
  predicate Owes(r: Request, n: Provider, e: nat) {
    r.owes == Some(Debt(n, Some(e)))
  }

  function Owing(n: Provider, e: nat, requests: seq<Request>): nat {
    if requests == [] then 0
    else (if Owes(requests[0], n, e) then 1 else 0) + Owing(n, e, requests[1..])
  }

  lemma {:induction false} OwingPut(n: Provider, e: nat, requests: seq<Request>, id: nat, r: Request)
    requires id < |requests|
    ensures Owing(n, e, requests[id := r]) ==
            Owing(n, e, requests) - (if Owes(requests[id], n, e) then 1 else 0) + (if Owes(r, n, e) then 1 else 0)
  {
    if id > 0 {
      OwingPut(n, e, requests[1..], id - 1, r);
      assert requests[id := r][1..] == requests[1..][id - 1 := r];
    } else {
      assert requests[id := r][1..] == requests[1..];
    }
  }

  lemma {:induction false} OwingPush(n: Provider, e: nat, requests: seq<Request>, r: Request)
    ensures Owing(n, e, requests + [r]) == Owing(n, e, requests) + (if Owes(r, n, e) then 1 else 0)
  {
    if requests != [] {
      OwingPush(n, e, requests[1..], r);
      assert (requests + [r])[1..] == requests[1..] + [r];
    } else {
      assert requests + [r] == [r];
    }
  }

  lemma {:induction false} OwingPositive(n: Provider, e: nat, requests: seq<Request>)
    ensures Owing(n, e, requests) > 0 <==> exists id :: 0 <= id < |requests| && Owes(requests[id], n, e)
  {
    if requests != [] {
      OwingPositive(n, e, requests[1..]);
      if Owing(n, e, requests[1..]) > 0 {
        var id :| 0 <= id < |requests[1..]| && Owes(requests[1..][id], n, e);
        assert Owes(requests[id + 1], n, e);
      }
      if id :| 0 <= id < |requests| && Owes(requests[id], n, e) {
        if id > 0 {
          assert Owes(requests[1..][id - 1], n, e);
        }
      }
    }
  }

  lemma {:induction false} OpenPut(n: Provider, requests: seq<Request>, id: nat, r: Request)
    requires id < |requests|
    ensures OpenAt(n, requests[id := r]) ==
            OpenAt(n, requests) - (if IsOpenAt(requests[id], n) then 1 else 0) + (if IsOpenAt(r, n) then 1 else 0)
  {
    if id > 0 {
      OpenPut(n, requests[1..], id - 1, r);
      assert requests[id := r][1..] == requests[1..][id - 1 := r];
    } else {
      assert requests[id := r][1..] == requests[1..];
    }
  }

  lemma {:induction false} OpenPush(n: Provider, requests: seq<Request>, r: Request)
    ensures OpenAt(n, requests + [r]) == OpenAt(n, requests) + (if IsOpenAt(r, n) then 1 else 0)
  {
    if requests != [] {
      OpenPush(n, requests[1..], r);
      assert (requests + [r])[1..] == requests[1..] + [r];
    } else {
      assert requests + [r] == [r];
    }
  }

  // ---- The invariant ----------------------------------------------------------------

  ghost predicate BreakerOk(c: Config, p: ProviderState, now: real) {
    && p.breaker == Replay(c.breaker, FRESH, p.history)
    && Coherent(c.breaker, p.breaker)
    && (p.breaker.lastFailure.Some? ==> p.breaker.lastFailure.value <= now)
  }

  // Slots in use are the probes in flight, less the one that opened the episode.
  predicate ProbesOk(p: ProviderState, owing: nat) {
    p.breaker.mode == HalfOpen ==> owing == p.breaker.halfOpenCalls + 1
  }

  // Failures of open responses are bounded by how many were ever open together.
  predicate OpenOk(c: Config, p: ProviderState, open: nat) {
    && open <= p.peak
    && (p.earlyFailures == 0 ==> p.breaker.failures + open <= p.peak)
    && (p.earlyFailures == 0 && p.breaker.mode != Closed ==> p.peak >= Trip(c.breaker))
  }

  ghost predicate ProviderOk(c: Config, s: System, n: Provider) {
    var p := ProviderOf(s, n);
    && BreakerOk(c, p, s.now)
    && ProbesOk(p, Owing(n, p.episode, s.requests))
    && OpenOk(c, p, OpenAt(n, s.requests))
  }

  // A debt is to the provider being contacted, is from an episode that has begun, and
  // outlives the attempt only if the handler was dropped.
  ghost predicate DebtOk(s: System, r: Request) {
    && (r.pc.Sent? ==> r.owes.Some? && r.owes.value.to == r.provider)
    && (r.owes.Some? ==> r.pc.Sent? || r.pc == Unwinding(Cancelled) || r.pc == Finished(Cancelled))
    && (r.owes.Some? && r.owes.value.probe.Some? ==>
          r.owes.value.probe.value <= ProviderOf(s, r.owes.value.to).episode)
  }

  ghost predicate Inv(c: Config, s: System) {
    && (forall n: Provider :: ProviderOk(c, s, n))
    && (forall id :: 0 <= id < |s.requests| ==> DebtOk(s, s.requests[id]))
  }

  lemma InitInv(c: Config, now: real)
    ensures Inv(c, Init(now))
  {
  }

  lemma InvAt(c: Config, s: System, n: Provider, id: nat)
    requires Inv(c, s) && id < |s.requests|
    ensures ProviderOk(c, s, n) && DebtOk(s, s.requests[id])
  {
  }

  // No debt of an episode that has not begun.
  lemma NothingOwedYet(c: Config, s: System, n: Provider)
    requires Inv(c, s)
    ensures Owing(n, ProviderOf(s, n).episode + 1, s.requests) == 0
  {
    var e := ProviderOf(s, n).episode + 1;
    OwingPositive(n, e, s.requests);
    if id :| 0 <= id < |s.requests| && Owes(s.requests[id], n, e) {
      assert DebtOk(s, s.requests[id]);
    }
  }

  lemma QuietKeepsInv(c: Config, s: System, s': System, id: nat, r: Request)
    requires Inv(c, s) && id < |s.requests|
    requires s'.requests == s.requests[id := r] && s'.providers == s.providers && s'.now == s.now
    requires r.owes == s.requests[id].owes && DebtOk(s, r)
    requires forall n :: IsOpenAt(r, n) ==> IsOpenAt(s.requests[id], n)
    ensures Inv(c, s')
  {
    forall n: Provider
      ensures ProviderOk(c, s', n)
    {
      assert ProviderOk(c, s, n);
      OwingPut(n, ProviderOf(s, n).episode, s.requests, id, r);
      OpenPut(n, s.requests, id, r);
    }
    forall i | 0 <= i < |s'.requests|
      ensures DebtOk(s', s'.requests[i])
    {
      assert DebtOk(s, s'.requests[i]);
    }
  }

  // A move that changes one breaker.
  lemma ProviderMoveKeepsInv(c: Config, s: System, s': System, id: nat, r: Request, m: Provider, p: ProviderState)
    requires Inv(c, s) && id < |s.requests|
    requires s' == PutProvider(Put(s, id, r), m, p)
    requires p.episode >= ProviderOf(s, m).episode
    requires BreakerOk(c, p, s.now)
    requires DebtOk(s', r)
    requires ProbesOk(p, Owing(m, p.episode, s'.requests)) && OpenOk(c, p, OpenAt(m, s'.requests))
    requires forall n, e :: n != m ==> (Owes(r, n, e) <==> Owes(s.requests[id], n, e))
    requires forall n :: n != m ==> (IsOpenAt(r, n) <==> IsOpenAt(s.requests[id], n))
    ensures Inv(c, s')
  {
    forall n: Provider
      ensures ProviderOk(c, s', n)
    {
      if n != m {
        assert ProviderOk(c, s, n);
        OwingPut(n, ProviderOf(s, n).episode, s.requests, id, r);
        OpenPut(n, s.requests, id, r);
      }
    }
    forall i | 0 <= i < |s'.requests|
      ensures DebtOk(s', s'.requests[i])
    {
      if i != id {
        assert DebtOk(s, s.requests[i]);
      }
    }
  }

  lemma EventKeepsCoherent(c: Config, p: ProviderState, now: real, e: Event)
    requires BreakerOk(c, p, now)
    ensures Replay(c.breaker, FRESH, p.history + [e]) == After(c.breaker, p.breaker, e)
    ensures Coherent(c.breaker, After(c.breaker, p.breaker, e))
  {
    ReplaySnoc(c.breaker, FRESH, p.history, e);
    CountersRefineHistory(c.breaker, p.history + [e]);
  }

  // Asking keeps a breaker in order; an admitted probe is one more debt of its episode,
  // and the first of an episode meets none.
  lemma AskEffect(c: Config, p: ProviderState, now: real, owing: nat, open: nat)
    requires BreakerOk(c, p, now) && ProbesOk(p, owing) && OpenOk(c, p, open)
    ensures
      var (p', allowed) := Ask(c, p, now);
      var probe := allowed && p'.breaker.mode == HalfOpen;
      && BreakerOk(c, p', now) && OpenOk(c, p', open)
      && (p'.episode == p.episode ==> ProbesOk(p', if probe then owing + 1 else owing))
      && (p'.episode != p.episode ==> p'.episode == p.episode + 1 && probe && ProbesOk(p', 1))
  {
    hide Replay;
    EventKeepsCoherent(c, p, now, Asked(now));
  }

  lemma SuccessEffect(c: Config, p: ProviderState, now: real, before: nat, peak: nat, open: nat, owing: nat)
    requires BreakerOk(c, p, now) && OpenOk(c, p, before)
    requires open <= peak && p.peak <= peak
    ensures
      var p' := ReportSuccess(p, now).(peak := peak);
      BreakerOk(c, p', now) && OpenOk(c, p', open) && ProbesOk(p', owing) && p'.episode == p.episode
  {
    hide Replay;
    EventKeepsCoherent(c, p, now, Succeeded(now));
  }

  lemma FailureEffect(c: Config, p: ProviderState, now: real, early: bool, before: nat, open: nat, owing: nat)
    requires BreakerOk(c, p, now) && OpenOk(c, p, before)
    requires if early then open <= before else open + 1 <= before
    ensures
      var p' := ReportFailure(c, p, now, early);
      BreakerOk(c, p', now) && OpenOk(c, p', open) && ProbesOk(p', owing) && p'.episode == p.episode
  {
    hide Replay;
    EventKeepsCoherent(c, p, now, Failed(now));
  }

  lemma TryKeepsInv(c: Config, s: System, id: nat)
    requires Inv(c, s) && id < |s.requests|
    ensures Inv(c, TryMove(c, s, id, s.requests[id]))
  {
    hide Inv, BreakerOk, ProbesOk, OpenOk, Ask, TouchesOnly;
    var r := s.requests[id];
    var s' := TryMove(c, s, id, r);
    if r.pc.Choosing? {
      if |r.attempts| >= |r.candidates| {
        InvAt(c, s, r.provider, id);
        QuietKeepsInv(c, s, s', id, s'.requests[id]);
      } else {
        var n := r.candidates[|r.attempts|];
        var p := ProviderOf(s, n);
        var p' := Ask(c, p, s.now).0;
        InvAt(c, s, n, id);
        AskEffect(c, p, s.now, Owing(n, p.episode, s.requests), OpenAt(n, s.requests));
        NothingOwedYet(c, s, n);
        OwingPut(n, p'.episode, s.requests, id, s'.requests[id]);
        OpenPut(n, s.requests, id, s'.requests[id]);
        ProviderMoveKeepsInv(c, s, s', id, s'.requests[id], n, p');
      }
    }
  }

  lemma HeadKeepsInv(c: Config, s: System, id: nat, h: Header)
    requires Inv(c, s) && id < |s.requests|
    ensures Inv(c, HeadMove(c, s, id, s.requests[id], h))
  {
    hide Inv, BreakerOk, ProbesOk, OpenOk, ReportHead, Classify, TouchesOnly;
    var r := s.requests[id];
    var s' := HeadMove(c, s, id, r, h);
    if r.pc.Sent? {
      var n, r' := r.provider, s'.requests[id];
      var p, before, open := ProviderOf(s, n), OpenAt(n, s.requests), OpenAt(n, s'.requests);
      InvAt(c, s, n, id);
      OpenPut(n, s.requests, id, r');
      HeadEffect(c, p, r.kind, h, s.now, before, open, Owing(n, p.episode, s'.requests));
      ProviderMoveKeepsInv(c, s, s', id, r', n, ReportHead(c, p, r.kind, h, s.now, open));
    }
  }

  lemma HeadEffect(c: Config, p: ProviderState, kind: Kind, h: Header, now: real, before: nat, open: nat, owing: nat)
    requires BreakerOk(c, p, now) && OpenOk(c, p, before)
    requires open == if Classify(kind, h) == Accept then before + 1 else before
    ensures
      var p' := ReportHead(c, p, kind, h, now, open);
      BreakerOk(c, p', now) && OpenOk(c, p', open) && ProbesOk(p', owing) && p'.episode == p.episode
  {
    hide BreakerOk, ProbesOk, ReportSuccess, ReportFailure, Classify;
    if Classify(kind, h) == Retry {
      FailureEffect(c, p, now, true, before, open, owing);
    } else {
      var peak := if Classify(kind, h) == Accept && open > p.peak then open else p.peak;
      assert open <= peak by { PeakBound(c, p, before); }
      SuccessEffect(c, p, now, before, peak, open, owing);
      PeakKept(p, now);
    }
  }

  lemma PeakBound(c: Config, p: ProviderState, open: nat)
    requires OpenOk(c, p, open)
    ensures open <= p.peak
  {
  }

  lemma PeakKept(p: ProviderState, now: real)
    ensures ReportSuccess(p, now).(peak := p.peak) == ReportSuccess(p, now)
  {
  }

  lemma ReadKeepsInv(c: Config, s: System, id: nat, body: Option<Body>, usage: Option<nat>)
    requires Inv(c, s) && id < |s.requests|
    ensures Inv(c, ReadMove(c, s, id, s.requests[id], body, usage))
  {
    var r := s.requests[id];
    var s' := ReadMove(c, s, id, r, body, usage);
    assert DebtOk(s, r);
    if r.pc.ReadingBody? && r.attempts != [] {
      if body.Some? {
        QuietKeepsInv(c, s, s', id, s'.requests[id]);
      } else {
        LateFailureKeepsInv(c, s, s', id, s'.requests[id]);
      }
    }
  }

  lemma StreamDoneKeepsInv(c: Config, s: System, id: nat, broken: bool)
    requires Inv(c, s) && id < |s.requests|
    ensures Inv(c, StreamDoneMove(c, s, id, s.requests[id], broken))
  {
    var r := s.requests[id];
    var s' := StreamDoneMove(c, s, id, r, broken);
    assert DebtOk(s, r);
    if r.pc.Streaming? {
      if broken {
        LateFailureKeepsInv(c, s, s', id, s'.requests[id]);
      } else {
        QuietKeepsInv(c, s, s', id, s'.requests[id]);
      }
    }
  }

  // A response that was open closes with a failure.
  lemma LateFailureKeepsInv(c: Config, s: System, s': System, id: nat, r: Request)
    requires Inv(c, s) && id < |s.requests| && IsOpenAt(s.requests[id], r.provider)
    requires !r.pc.Streaming? && !r.pc.ReadingBody? && !r.pc.Sent? && r.owes.None?
    requires s.requests[id].owes.None? && s.requests[id].provider == r.provider
    requires s' == PutProvider(Put(s, id, r), r.provider,
                               ReportFailure(c, ProviderOf(s, r.provider), s.now, false))
    ensures Inv(c, s')
  {
    hide BreakerOk, ProbesOk, OpenOk, ReportFailure;
    var n := r.provider;
    var p := ProviderOf(s, n);
    assert ProviderOk(c, s, n);
    OpenPut(n, s.requests, id, r);
    FailureEffect(c, p, s.now, false, OpenAt(n, s.requests), OpenAt(n, s'.requests), Owing(n, p.episode, s'.requests));
    ProviderMoveKeepsInv(c, s, s', id, r, n, ProviderOf(s', n));
  }

  // The moves that call no breaker neither owe, pay, open nor close anything.
  lemma QuietMoveKeepsInv(c: Config, s: System, id: nat, m: Move)
    requires Inv(c, s) && id < |s.requests| && !MayCall(m)
    ensures Inv(c, MoveOn(c, s, id, m))
  {
    hide Inv, MoveOn;
    var r, s' := s.requests[id], MoveOn(c, s, id, m);
    Frame(c, s, id, m);
    InvAt(c, s, r.provider, id);
    QuietKeepsInv(c, s, s', id, s'.requests[id]);
  }

  lemma MoveKeepsInv(c: Config, s: System, id: nat, m: Move)
    requires Inv(c, s) && id < |s.requests|
    ensures Inv(c, MoveOn(c, s, id, m))
  {
    hide Inv, ReserveMove, LookupMove, SelectMove, TryMove, HeadMove, ReadMove;
    hide SettleMove, UsageMove, StreamDoneMove, UnwindMove, CancelMove;
    match m
    case Try => TryKeepsInv(c, s, id);
    case Head(h) => HeadKeepsInv(c, s, id, h);
    case Read(body, usage) => ReadKeepsInv(c, s, id, body, usage);
    case StreamDone(broken) => StreamDoneKeepsInv(c, s, id, broken);
    case _ => QuietMoveKeepsInv(c, s, id, m);
  }

  lemma ArriveKeepsInv(c: Config, s: System, client: Client, kind: Kind, prompt: Prompt, estimate: real)
    requires Inv(c, s)
    ensures Inv(c, ArriveStep(c, s, client, kind, prompt, estimate))
  {
    hide BreakerOk, ProbesOk, OpenOk, Buckets.TryConsume;
    var s' := ArriveStep(c, s, client, kind, prompt, estimate);
    if estimate >= 0.0 && IsJsonText(prompt.payload) {
      var r := s'.requests[|s.requests|];
      forall n: Provider
        ensures ProviderOk(c, s', n)
      {
        assert ProviderOk(c, s, n);
        OwingPush(n, ProviderOf(s, n).episode, s.requests, r);
        OpenPush(n, s.requests, r);
      }
      forall i | 0 <= i < |s'.requests|
        ensures DebtOk(s', s'.requests[i])
      {
        assert i < |s.requests| ==> DebtOk(s, s.requests[i]);
      }
    }
  }

  lemma StepKeepsInv(c: Config, s: System, a: Action)
    requires Inv(c, s)
    ensures Inv(c, Step(c, s, a))
  {
    hide MoveOn, ArriveStep;
    match a
    case Arrive(client, kind, prompt, estimate) => ArriveKeepsInv(c, s, client, kind, prompt, estimate);
    case Act(id, m) =>
      if id < |s.requests| {
        MoveKeepsInv(c, s, id, m);
      }
    case _ =>
      var s' := Step(c, s, a);
      forall n: Provider
        ensures ProviderOk(c, s', n)
      {
        assert ProviderOk(c, s, n);
      }
      forall i | 0 <= i < |s'.requests|
        ensures DebtOk(s', s'.requests[i])
      {
        assert DebtOk(s, s.requests[i]);
      }
  }

  lemma {:induction false} RunKeepsInv(c: Config, s: System, actions: seq<Action>)
    requires Inv(c, s)
    ensures Inv(c, Run(c, s, actions))
    decreases |actions|
  {
    hide Inv, Step;
    if actions != [] {
      StepKeepsInv(c, s, actions[0]);
      RunKeepsInv(c, Step(c, s, actions[0]), actions[1..]);
    }
  }
}
