// Which calls every breaker has received, in every run of the gateway: each position of a
// candidate list that is tried asks once, and each admission is reported once when its
// headers come in or fail to.

module GatewayReports {
  import opened Basics
  import opened Gateway
  import opened GatewayMoves
  import opened CircuitBreakers
  import Breaking = GatewayBreakers
  import Selection = GatewaySelection

  // ---- Counting -----------------------------------------------------------------------

  function Count(n: Provider, names: seq<Provider>): nat {
    if names == [] then 0
    else Count(n, names[..|names| - 1]) + (if names[|names| - 1] == n then 1 else 0)
  }

  function Total(n: Provider, requests: seq<Request>, f: Request -> seq<Provider>): nat {
    if requests == [] then 0 else Count(n, f(requests[0])) + Total(n, requests[1..], f)
  }

  lemma CountNext(n: Provider, names: seq<Provider>, name: Provider)
    ensures Count(n, names + [name]) == Count(n, names) + (if name == n then 1 else 0)
    ensures names + [] == names
  {
    assert (names + [name])[..|names|] == names;
  }

  lemma {:induction false} TotalPut(n: Provider, requests: seq<Request>, f: Request -> seq<Provider>, id: nat,
                                    r: Request)
    requires id < |requests|
    ensures Total(n, requests[id := r], f) == Total(n, requests, f) - Count(n, f(requests[id])) + Count(n, f(r))
  {
    hide Count;
    if id > 0 {
      TotalPut(n, requests[1..], f, id - 1, r);
      assert requests[id := r][1..] == requests[1..][id - 1 := r];
    } else {
      assert requests[id := r][1..] == requests[1..];
    }
  }

  lemma {:induction false} TotalPush(n: Provider, requests: seq<Request>, f: Request -> seq<Provider>, r: Request)
    ensures Total(n, requests + [r], f) == Total(n, requests, f) + Count(n, f(r))
  {
    hide Count;
    if requests != [] {
      TotalPush(n, requests[1..], f, r);
      assert (requests + [r])[1..] == requests[1..] + [r];
    } else {
      assert requests + [r] == [r];
    }
  }

  // ---- What a request has done ------------------------------------------------------------

  // The positions that were asked: all that were tried, and the one being waited for.
  function AskedBy(r: Request): seq<Provider> {
    var k := |r.attempts| + (if r.owes.Some? then 1 else 0);
    r.candidates[..if k <= |r.candidates| then k else |r.candidates|]
  }

  // The provider that still waits for a report, from a handler that may have been dropped.
  function OwedBy(r: Request): seq<Provider> {
    if r.owes.Some? then [r.owes.value.to] else []
  }

  // A contacted position and whether its headers spoke for the provider.
  predicate Heard(kind: Kind, a: Attempt, healthy: bool) {
    match a
    case Denied => false
    case Answered(h) => (!CountsAsFailure(kind, h)) == healthy
    case BodyBroken(h) => (!CountsAsFailure(kind, h)) == healthy
  }

  function HeardFrom(kind: Kind, candidates: seq<Provider>, attempts: seq<Attempt>, healthy: bool): seq<Provider> {
    if attempts == [] || |attempts| > |candidates| then []
    else
      var k := |attempts| - 1;
      HeardFrom(kind, candidates, attempts[..k], healthy)
      + (if Heard(kind, attempts[k], healthy) then [candidates[k]] else [])
  }

  function HealthyBy(r: Request): seq<Provider> {
    HeardFrom(r.kind, r.candidates, r.attempts, true)
  }

  function FailingBy(r: Request): seq<Provider> {
    HeardFrom(r.kind, r.candidates, r.attempts, false)
  }

  // The positions whose body or stream was lost.
  function LostFrom(candidates: seq<Provider>, attempts: seq<Attempt>): seq<Provider> {
    if attempts == [] || |attempts| > |candidates| then []
    else
      var k := |attempts| - 1;
      LostFrom(candidates, attempts[..k]) + (if attempts[k].BodyBroken? then [candidates[k]] else [])
  }

  function LostBy(r: Request): seq<Provider> {
    LostFrom(r.candidates, r.attempts)
  }

  lemma HeardNext(kind: Kind, candidates: seq<Provider>, attempts: seq<Attempt>, a: Attempt, healthy: bool)
    requires |attempts| < |candidates|
    ensures HeardFrom(kind, candidates, attempts + [a], healthy) ==
            HeardFrom(kind, candidates, attempts, healthy)
            + (if Heard(kind, a, healthy) then [candidates[|attempts|]] else [])
    ensures LostFrom(candidates, attempts + [a]) ==
            LostFrom(candidates, attempts) + (if a.BodyBroken? then [candidates[|attempts|]] else [])
  {
    assert (attempts + [a])[..|attempts|] == attempts;
  }

  predicate CallsOk(r: Request) {
    && |r.attempts| + (if r.owes.Some? then 1 else 0) <= |r.candidates|
    && (r.pc.Entered? || r.pc.Reserved? || r.pc.Selecting? ==> r.attempts == [])
    && (r.pc.Sent? ==> r.owes.Some? && r.owes.value.to == r.provider)
    && (r.owes.Some? ==> r.pc.Sent? || r.pc == Unwinding(Cancelled) || r.pc == Finished(Cancelled))
    && (r.owes.Some? ==> r.owes.value.to == r.candidates[|r.attempts|])
    && (r.pc.ReadingBody? || r.pc.Streaming? ==>
          && r.attempts != [] && r.attempts[|r.attempts| - 1].Answered?
          && r.candidates[|r.attempts| - 1] == r.provider)
  }

  // A body cannot be read, or a stream breaks.
  predicate Loses(r: Request, m: Move) {
    || (m.Read? && m.body.None? && r.pc.ReadingBody?)
    || (m.StreamDone? && m.broken && r.pc.Streaming?)
  }

  // What each move adds to what its request has done.
  ghost predicate Adds(c: Config, s: System, s': System, id: nat, m: Move)
    requires id < |s.requests| && |s'.requests| == |s.requests|
  {
    var r, r' := s.requests[id], s'.requests[id];
    && LostBy(r') == LostBy(r) + (if Loses(r, m) then [r.provider] else [])
    && if m.Try? && HasNext(r) then
      && AskedBy(r') == AskedBy(r) + [Next(r)] && HealthyBy(r') == HealthyBy(r) && FailingBy(r') == FailingBy(r)
      && OwedBy(r) == []
      && OwedBy(r') ==
         (if AllowRequest(c.breaker, ProviderOf(s, Next(r)).breaker, s.now).1 then [] + [Next(r)] else [])
    else if m.Head? && r.pc.Sent? then
      && AskedBy(r') == AskedBy(r)
      && OwedBy(r) == [] + [r.provider] && OwedBy(r') == []
      && HealthyBy(r') == HealthyBy(r) + (if !CountsAsFailure(r.kind, m.header) then [r.provider] else [])
      && FailingBy(r') == FailingBy(r) + (if CountsAsFailure(r.kind, m.header) then [r.provider] else [])
    else
      && AskedBy(r') == AskedBy(r) && OwedBy(r') == OwedBy(r)
      && HealthyBy(r') == HealthyBy(r) && FailingBy(r') == FailingBy(r)
  }

  lemma TryAdds(c: Config, s: System, id: nat)
    requires id < |s.requests| && CallsOk(s.requests[id])
    ensures CallsOk(MoveOn(c, s, id, Try).requests[id]) && Adds(c, s, MoveOn(c, s, id, Try), id, Try)
  {
    hide MoveOn, AllowRequest, HeardFrom, LostFrom;
    var r := s.requests[id];
    Frame(c, s, id, Try);
    TryShape(c, s, id);
    if HasNext(r) {
      HeardNext(r.kind, r.candidates, r.attempts, Denied, true);
      HeardNext(r.kind, r.candidates, r.attempts, Denied, false);
    }
  }

  lemma HeadAdds(c: Config, s: System, id: nat, h: Header)
    requires id < |s.requests| && CallsOk(s.requests[id])
    ensures CallsOk(MoveOn(c, s, id, Head(h)).requests[id]) && Adds(c, s, MoveOn(c, s, id, Head(h)), id, Head(h))
  {
    hide MoveOn, HeardFrom, LostFrom, CountsAsFailure, IsRejection, IsAcceptance;
    var r := s.requests[id];
    Frame(c, s, id, Head(h));
    HeadShape(c, s, id, h);
    if r.pc.Sent? {
      HeardNext(r.kind, r.candidates, r.attempts, Answered(h), true);
      HeardNext(r.kind, r.candidates, r.attempts, Answered(h), false);
    }
  }

  // A body that is lost later does not change what its headers said.
  lemma ReadAdds(c: Config, s: System, id: nat, body: Option<Body>, usage: Option<nat>)
    requires id < |s.requests| && CallsOk(s.requests[id])
    ensures
      var s' := MoveOn(c, s, id, Read(body, usage));
      CallsOk(s'.requests[id]) && Adds(c, s, s', id, Read(body, usage))
  {
    hide MoveOn, HeardFrom, LostFrom, CountsAsFailure, IsRejection, IsAcceptance;
    var r := s.requests[id];
    Frame(c, s, id, Read(body, usage));
    ReadShape(c, s, id, body, usage);
    if r.pc.ReadingBody? && body.None? {
      LastLost(r);
    }
  }

  lemma LastLost(r: Request)
    requires CallsOk(r) && r.attempts != [] && r.attempts[|r.attempts| - 1].Answered?
    ensures
      var lost := LoseLast(r.attempts);
      && HeardFrom(r.kind, r.candidates, lost, true) == HealthyBy(r)
      && HeardFrom(r.kind, r.candidates, lost, false) == FailingBy(r)
      && LostFrom(r.candidates, lost) == LostBy(r) + [r.candidates[|r.attempts| - 1]]
  {
    hide HeardFrom, LostFrom, CountsAsFailure, IsRejection, IsAcceptance;
    var k := |r.attempts| - 1;
    var before, h := r.attempts[..k], r.attempts[k].header;
    assert r.attempts == before + [Answered(h)] && LoseLast(r.attempts) == before + [BodyBroken(h)];
    forall healthy
      ensures HeardFrom(r.kind, r.candidates, before + [BodyBroken(h)], healthy) ==
              HeardFrom(r.kind, r.candidates, r.attempts, healthy)
    {
      HeardNext(r.kind, r.candidates, before, Answered(h), healthy);
      HeardNext(r.kind, r.candidates, before, BodyBroken(h), healthy);
    }
    HeardNext(r.kind, r.candidates, before, Answered(h), true);
    HeardNext(r.kind, r.candidates, before, BodyBroken(h), true);
    assert LostFrom(r.candidates, before) + [] == LostFrom(r.candidates, before);
  }

  lemma StreamDoneAdds(c: Config, s: System, id: nat, broken: bool)
    requires id < |s.requests| && CallsOk(s.requests[id])
    ensures
      var s' := MoveOn(c, s, id, StreamDone(broken));
      CallsOk(s'.requests[id]) && Adds(c, s, s', id, StreamDone(broken))
  {
    hide MoveOn, HeardFrom, LostFrom, CountsAsFailure, IsRejection, IsAcceptance;
    var r := s.requests[id];
    StreamDoneShape(c, s, id, broken);
    if r.pc.Streaming? && broken {
      LastLost(r);
    }
  }

  lemma MoveAdds(c: Config, s: System, id: nat, m: Move)
    requires id < |s.requests| && CallsOk(s.requests[id])
    ensures CallsOk(MoveOn(c, s, id, m).requests[id]) && Adds(c, s, MoveOn(c, s, id, m), id, m)
  {
    hide MoveOn, HeardFrom, LostFrom, CountsAsFailure, IsRejection, IsAcceptance, Providers;
    match m
    case Try => TryAdds(c, s, id);
    case Head(h) => HeadAdds(c, s, id, h);
    case Read(body, usage) => ReadAdds(c, s, id, body, usage);
    case StreamDone(broken) => StreamDoneAdds(c, s, id, broken);
    case Select =>
      if s.requests[id].pc.Selecting? {
        Frame(c, s, id, m);
        Selection.SelectShape(c, s, id);
        NothingHeard(s.requests[id].kind, s.requests[id].candidates);
        NothingHeard(s.requests[id].kind, MoveOn(c, s, id, m).requests[id].candidates);
      } else {
        Selection.SelectIdle(c, s, id);
      }
    case _ => Frame(c, s, id, m);
  }

  lemma NothingHeard(kind: Kind, candidates: seq<Provider>)
    ensures HeardFrom(kind, candidates, [], true) == [] == HeardFrom(kind, candidates, [], false)
    ensures LostFrom(candidates, []) == []
  {
  }

  // ---- The law ----------------------------------------------------------------------------

  function Asks(h: seq<Event>): nat {
    if h == [] then 0 else Asks(h[..|h| - 1]) + (if h[|h| - 1].Asked? then 1 else 0)
  }

  function Successes(h: seq<Event>): nat {
    if h == [] then 0 else Successes(h[..|h| - 1]) + (if h[|h| - 1].Succeeded? then 1 else 0)
  }

  function Failures(h: seq<Event>): nat {
    if h == [] then 0 else Failures(h[..|h| - 1]) + (if h[|h| - 1].Failed? then 1 else 0)
  }

  lemma HistoryNext(c: Config, h: seq<Event>, e: Event)
    ensures Asks(h + [e]) == Asks(h) + (if e.Asked? then 1 else 0)
    ensures Successes(h + [e]) == Successes(h) + (if e.Succeeded? then 1 else 0)
    ensures Failures(h + [e]) == Failures(h) + (if e.Failed? then 1 else 0)
    ensures Admitted(c.breaker, FRESH, h + [e]) ==
            Admitted(c.breaker, FRESH, h)
            + (if e.Asked? && AllowRequest(c.breaker, Replay(c.breaker, FRESH, h), e.at).1 then 1 else 0)
  {
    assert (h + [e])[..|h|] == h;
  }

  // Each side of the law for one provider.
  predicate Balanced(c: Config, p: ProviderState, asked: nat, healthy: nat, failing: nat, owed: nat, lost: nat) {
    && Asks(p.history) == asked
    && Successes(p.history) == healthy
    && p.earlyFailures == failing
    && Failures(p.history) == failing + lost
    && Admitted(c.breaker, FRESH, p.history) == healthy + failing + owed
  }

  ghost predicate BalancedAt(c: Config, s: System, n: Provider) {
    Balanced(c, ProviderOf(s, n), Total(n, s.requests, AskedBy), Total(n, s.requests, HealthyBy),
             Total(n, s.requests, FailingBy), Total(n, s.requests, OwedBy), Total(n, s.requests, LostBy))
  }

  ghost predicate Inv(c: Config, s: System) {
    && Breaking.Inv(c, s)
    && (forall id :: 0 <= id < |s.requests| ==> CallsOk(s.requests[id]))
    && forall n :: BalancedAt(c, s, n)
  }

  // The sums after a move of request id.
  lemma TotalsPut(s: System, s': System, id: nat, n: Provider)
    requires id < |s.requests| && |s'.requests| == |s.requests| && s'.requests == s.requests[id := s'.requests[id]]
    ensures
      var r, r' := s.requests[id], s'.requests[id];
      && Total(n, s'.requests, AskedBy) ==
         Total(n, s.requests, AskedBy) - Count(n, AskedBy(r)) + Count(n, AskedBy(r'))
      && Total(n, s'.requests, HealthyBy) ==
         Total(n, s.requests, HealthyBy) - Count(n, HealthyBy(r)) + Count(n, HealthyBy(r'))
      && Total(n, s'.requests, FailingBy) ==
         Total(n, s.requests, FailingBy) - Count(n, FailingBy(r)) + Count(n, FailingBy(r'))
      && Total(n, s'.requests, OwedBy) ==
         Total(n, s.requests, OwedBy) - Count(n, OwedBy(r)) + Count(n, OwedBy(r'))
      && Total(n, s'.requests, LostBy) ==
         Total(n, s.requests, LostBy) - Count(n, LostBy(r)) + Count(n, LostBy(r'))
  {
    hide AskedBy, HealthyBy, FailingBy, OwedBy, LostBy;
    TotalPut(n, s.requests, AskedBy, id, s'.requests[id]);
    TotalPut(n, s.requests, HealthyBy, id, s'.requests[id]);
    TotalPut(n, s.requests, FailingBy, id, s'.requests[id]);
    TotalPut(n, s.requests, OwedBy, id, s'.requests[id]);
    TotalPut(n, s.requests, LostBy, id, s'.requests[id]);
  }

  function One(yes: bool): nat {
    if yes then 1 else 0
  }

  // The sums move with the breaker n is about.
  predicate TotalsMove(s: System, s': System, n: Provider, asked: nat, healthy: nat, failing: nat, owed: int,
      lost: nat) {
    && Total(n, s'.requests, AskedBy) == Total(n, s.requests, AskedBy) + asked
    && Total(n, s'.requests, HealthyBy) == Total(n, s.requests, HealthyBy) + healthy
    && Total(n, s'.requests, FailingBy) == Total(n, s.requests, FailingBy) + failing
    && Total(n, s'.requests, OwedBy) == Total(n, s.requests, OwedBy) + owed
    && Total(n, s'.requests, LostBy) == Total(n, s.requests, LostBy) + lost
  }

  lemma TryTotals(c: Config, s: System, s': System, id: nat, n: Provider)
    requires id < |s.requests| && |s'.requests| == |s.requests| && s'.requests == s.requests[id := s'.requests[id]]
    requires HasNext(s.requests[id]) && Adds(c, s, s', id, Try)
    ensures
      var to := Next(s.requests[id]);
      TotalsMove(s, s', n, One(to == n), 0, 0,
                 One(to == n && AllowRequest(c.breaker, ProviderOf(s, to).breaker, s.now).1), 0)
  {
    hide AskedBy, HealthyBy, FailingBy, OwedBy, LostBy, Count, Total, AllowRequest, ProviderOf;
    var r := s.requests[id];
    TotalsPut(s, s', id, n);
    CountNext(n, AskedBy(r), Next(r));
    CountNext(n, [], Next(r));
    CountNext(n, LostBy(r), Next(r));
    NoneCounted(n);
  }

  lemma NoneCounted(n: Provider)
    ensures Count(n, []) == 0
  {
  }

  lemma HeadTotals(c: Config, s: System, s': System, id: nat, h: Header, n: Provider)
    requires id < |s.requests| && |s'.requests| == |s.requests| && s'.requests == s.requests[id := s'.requests[id]]
    requires s.requests[id].pc.Sent? && Adds(c, s, s', id, Head(h))
    ensures
      var r := s.requests[id];
      TotalsMove(s, s', n, 0, One(r.provider == n && !CountsAsFailure(r.kind, h)),
                 One(r.provider == n && CountsAsFailure(r.kind, h)), 0 - One(r.provider == n), 0)
  {
    hide AskedBy, HealthyBy, FailingBy, OwedBy, LostBy, Count, Total, CountsAsFailure, IsRejection, IsAcceptance;
    var r := s.requests[id];
    TotalsPut(s, s', id, n);
    CountNext(n, HealthyBy(r), r.provider);
    CountNext(n, FailingBy(r), r.provider);
    CountNext(n, [], r.provider);
    CountNext(n, LostBy(r), r.provider);
    NoneCounted(n);
  }

  lemma OtherTotals(c: Config, s: System, s': System, id: nat, m: Move, n: Provider)
    requires id < |s.requests| && |s'.requests| == |s.requests| && s'.requests == s.requests[id := s'.requests[id]]
    requires !(m.Try? && HasNext(s.requests[id])) && !(m.Head? && s.requests[id].pc.Sent?) && Adds(c, s, s', id, m)
    ensures TotalsMove(s, s', n, 0, 0, 0, 0, One(Loses(s.requests[id], m) && s.requests[id].provider == n))
  {
    hide AskedBy, HealthyBy, FailingBy, OwedBy, LostBy, Count, Total;
    TotalsPut(s, s', id, n);
    CountNext(n, LostBy(s.requests[id]), s.requests[id].provider);
  }

  // One more event in a history.
  lemma BalanceNext(c: Config, p: ProviderState, p': ProviderState, e: Event, asked: nat, healthy: nat, failing: nat,
      owed: nat, lost: nat)
    requires Balanced(c, p, asked, healthy, failing, owed, lost)
    requires p.breaker == Replay(c.breaker, FRESH, p.history) && p'.history == p.history + [e]
    ensures
      match e
      case Asked(at) =>
        p'.earlyFailures == p.earlyFailures ==>
          Balanced(c, p', asked + 1, healthy, failing, owed + One(AllowRequest(c.breaker, p.breaker, at).1), lost)
      case Succeeded(_) =>
        p'.earlyFailures == p.earlyFailures && owed > 0 ==> Balanced(c, p', asked, healthy + 1, failing, owed - 1, lost)
      case Failed(_) =>
        && (p'.earlyFailures == p.earlyFailures ==> Balanced(c, p', asked, healthy, failing, owed, lost + 1))
        && (p'.earlyFailures == p.earlyFailures + 1 && owed > 0 ==>
              Balanced(c, p', asked, healthy, failing + 1, owed - 1, lost))
  {
    HistoryNext(c, p.history, e);
    hide Asks, Successes, Failures, Admitted, Replay, AllowRequest;
  }

  lemma TryBalances(c: Config, s: System, s': System, id: nat, n: Provider)
    requires id < |s.requests| && |s'.requests| == |s.requests| && s'.requests == s.requests[id := s'.requests[id]]
    requires Breaking.Inv(c, s) && BalancedAt(c, s, n)
    requires HasNext(s.requests[id]) && Adds(c, s, s', id, Try) && KeepsPeak(s, s')
    requires Called(c, s, s', Some(Call(Next(s.requests[id]), Asked(s.now))))
    ensures BalancedAt(c, s', n)
  {
    TryTotals(c, s, s', id, n);
    Replays(c, s, n);
    hide Adds, Total, Balanced, Replay, AllowRequest, Breaking.Inv, ProviderOf;
    hide AskedBy, HealthyBy, FailingBy, OwedBy, LostBy;
    if Next(s.requests[id]) == n {
      BalanceNext(c, ProviderOf(s, n), ProviderOf(s', n), Asked(s.now), Total(n, s.requests, AskedBy),
                  Total(n, s.requests, HealthyBy), Total(n, s.requests, FailingBy), Total(n, s.requests, OwedBy),
                  Total(n, s.requests, LostBy));
    }
  }

  lemma HeadBalances(c: Config, s: System, s': System, id: nat, h: Header, n: Provider)
    requires id < |s.requests| && |s'.requests| == |s.requests| && s'.requests == s.requests[id := s'.requests[id]]
    requires Breaking.Inv(c, s) && BalancedAt(c, s, n) && s.requests[id].pc.Sent?
    requires Adds(c, s, s', id, Head(h)) && CountsEarly(s, s', s.requests[id], h)
    requires Called(c, s, s', CallOf(s, s.requests[id], Head(h)))
    ensures BalancedAt(c, s', n)
  {
    HeadTotals(c, s, s', id, h, n);
    Replays(c, s, n);
    hide Adds, Total, Balanced, Replay, Breaking.Inv, ProviderOf, CountsAsFailure, IsRejection, IsAcceptance;
    hide AskedBy, HealthyBy, FailingBy, OwedBy, LostBy;
    var r := s.requests[id];
    if r.provider == n {
      BalanceNext(c, ProviderOf(s, n), ProviderOf(s', n),
                  if CountsAsFailure(r.kind, h) then Failed(s.now) else Succeeded(s.now),
                  Total(n, s.requests, AskedBy), Total(n, s.requests, HealthyBy), Total(n, s.requests, FailingBy),
                  Total(n, s.requests, OwedBy), Total(n, s.requests, LostBy));
    }
  }

  lemma OtherBalances(c: Config, s: System, s': System, id: nat, m: Move, n: Provider)
    requires id < |s.requests| && |s'.requests| == |s.requests| && s'.requests == s.requests[id := s'.requests[id]]
    requires Breaking.Inv(c, s) && BalancedAt(c, s, n) && Adds(c, s, s', id, m) && KeepsPeak(s, s')
    requires !(m.Try? && HasNext(s.requests[id])) && !(m.Head? && s.requests[id].pc.Sent?)
    requires Called(c, s, s', CallOf(s, s.requests[id], m))
    ensures BalancedAt(c, s', n)
  {
    OtherTotals(c, s, s', id, m, n);
    Replays(c, s, n);
    hide Adds, Total, Balanced, Replay, Breaking.Inv, ProviderOf, AskedBy, HealthyBy, FailingBy, OwedBy, LostBy;
    var call := CallOf(s, s.requests[id], m);
    if call.Some? && call.value.to == n {
      BalanceNext(c, ProviderOf(s, n), ProviderOf(s', n), Failed(s.now), Total(n, s.requests, AskedBy),
                  Total(n, s.requests, HealthyBy), Total(n, s.requests, FailingBy), Total(n, s.requests, OwedBy),
                  Total(n, s.requests, LostBy));
    } else {
      assert ProviderOf(s', n) == ProviderOf(s, n);
    }
  }

  lemma MoveBalances(c: Config, s: System, id: nat, m: Move, n: Provider)
    requires Inv(c, s) && id < |s.requests|
    ensures BalancedAt(c, MoveOn(c, s, id, m), n)
  {
    hide MoveOn, Breaking.Inv, CallsOk, BalancedAt, Adds, Called, KeepsPeak, CountsEarly;
    var r, s' := s.requests[id], MoveOn(c, s, id, m);
    assert BalancedAt(c, s, n) && CallsOk(r);
    Frame(c, s, id, m);
    Calls(c, s, id, m);
    MoveAdds(c, s, id, m);
    if m.Try? && HasNext(r) {
      TryBalances(c, s, s', id, n);
    } else if m.Head? {
      HeadEarly(c, s, id, m.header);
      if r.pc.Sent? {
        HeadBalances(c, s, s', id, m.header, n);
      } else {
        assert KeepsPeak(s, s') by { KeptPeak(c, s, id, m.header); }
        OtherBalances(c, s, s', id, m, n);
      }
    } else {
      OtherBalances(c, s, s', id, m, n);
    }
  }

  lemma KeptPeak(c: Config, s: System, id: nat, h: Header)
    requires id < |s.requests| && !s.requests[id].pc.Sent?
    ensures KeepsPeak(s, MoveOn(c, s, id, Head(h)))
  {
  }

  lemma Replays(c: Config, s: System, n: Provider)
    requires Breaking.Inv(c, s)
    ensures ProviderOf(s, n).breaker == Replay(c.breaker, FRESH, ProviderOf(s, n).history)
  {
    assert Breaking.ProviderOk(c, s, n);
  }

  lemma StepKeepsInv(c: Config, s: System, a: Action)
    requires Inv(c, s)
    ensures Inv(c, Step(c, s, a))
  {
    hide MoveOn, ArriveStep, Breaking.Inv, BalancedAt, CallsOk;
    var s' := Step(c, s, a);
    Breaking.StepKeepsInv(c, s, a);
    match a
    case Act(id, m) =>
      if id < |s.requests| {
        Frame(c, s, id, m);
        MoveAdds(c, s, id, m);
        forall n: Provider
          ensures BalancedAt(c, s', n)
        {
          MoveBalances(c, s, id, m, n);
        }
      }
    case Arrive(_, _, _, _) =>
      ArriveFrame(c, s, a);
      if s' != s {
        var r := s'.requests[|s.requests|];
        assert s'.requests == s.requests + [r];
        forall n: Provider
          ensures BalancedAt(c, s', n)
        {
          ArrivalBalances(c, s, s', r, n);
        }
        assert CallsOk(r) by { NewcomerOk(r); }
      }
    case _ =>
      forall n: Provider
        ensures BalancedAt(c, s', n)
      {
        SameBalance(c, s, s', n);
      }
  }

  lemma NewcomerOk(r: Request)
    requires r.candidates == [] && r.attempts == [] && r.owes.None?
    requires r.pc.Entered? || r.pc.Finished?
    ensures CallsOk(r)
  {
  }

  lemma ArrivalBalances(c: Config, s: System, s': System, r: Request, n: Provider)
    requires BalancedAt(c, s, n) && s'.requests == s.requests + [r] && s'.providers == s.providers
    requires r.candidates == [] && r.attempts == [] && r.owes.None?
    ensures BalancedAt(c, s', n)
  {
    TotalPush(n, s.requests, AskedBy, r);
    TotalPush(n, s.requests, HealthyBy, r);
    TotalPush(n, s.requests, FailingBy, r);
    TotalPush(n, s.requests, OwedBy, r);
    TotalPush(n, s.requests, LostBy, r);
  }

  lemma SameBalance(c: Config, s: System, s': System, n: Provider)
    requires BalancedAt(c, s, n) && s'.requests == s.requests && s'.providers == s.providers
    ensures BalancedAt(c, s', n)
  {
  }

  lemma {:induction false} RunKeepsInv(c: Config, s: System, actions: seq<Action>)
    requires Inv(c, s)
    ensures Inv(c, Run(c, s, actions))
    decreases |actions|
  {
    hide Inv, Step;
    if actions != [] {
      StepKeepsInv(c, s, actions[0]);
      RunKeepsInv(c, Step(c, s, actions[0]), actions[1..]);
    }
  }

  lemma Reachable(c: Config, start: real, actions: seq<Action>, n: Provider)
    ensures BalancedAt(c, Run(c, Init(start), actions), n)
  {
    Breaking.InitInv(c, start);
    assert Inv(c, Init(start));
    RunKeepsInv(c, Init(start), actions);
  }

  // ---- Main results -----------------------------------------------------------------------

  // In every run a breaker has been asked exactly as often as there are positions with its
  // name that some request has tried: building a list asks nobody, and no position is
  // asked twice.
  lemma EachPositionAskedOnce(c: Config, start: real, actions: seq<Action>, n: Provider)
    ensures
      var s := Run(c, Init(start), actions);
      Asks(ProviderOf(s, n).history) == Total(n, s.requests, AskedBy)
  {
    Reachable(c, start, actions, n);
  }

  // In every run, of the requests a breaker has let through, each has been reported to it
  // exactly once when its headers came in or failed to, except those that still wait or
  // whose handler was dropped while it waited: the successes in its history are the
  // positions whose headers spoke for it, the early failures those whose headers did not.
  // And it has heard of every body or stream that was lost, once.
  lemma EveryAdmissionReports(c: Config, start: real, actions: seq<Action>, n: Provider)
    ensures
      var s := Run(c, Init(start), actions);
      var p := ProviderOf(s, n);
      && Admitted(c.breaker, FRESH, p.history) ==
         Successes(p.history) + p.earlyFailures + Total(n, s.requests, OwedBy)
      && Successes(p.history) == Total(n, s.requests, HealthyBy)
      && p.earlyFailures == Total(n, s.requests, FailingBy)
      && Failures(p.history) == p.earlyFailures + Total(n, s.requests, LostBy)
  {
    Reachable(c, start, actions, n);
  }
}
