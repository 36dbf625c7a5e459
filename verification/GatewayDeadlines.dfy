// Requests time out, so reports come in time: how long a half-open episode can last.

module GatewayDeadlines {
  import opened Basics
  import opened Gateway
  import opened GatewayMoves
  import opened CircuitBreakers
  import opened GatewayBreakers
  import opened GatewayRecovery

  // ---- Deadlines ----------------------------------------------------------------------

  // Nobody waits past a deadline.
  predicate DeadlinesOk(s: System) {
    forall id :: 0 <= id < |s.requests| && Waits(s.requests[id]) ==> s.now <= s.requests[id].deadline
  }

  lemma MoveKeepsDeadlines(c: Config, s: System, id: nat, m: Move)
    requires id < |s.requests| && DeadlinesOk(s)
    ensures DeadlinesOk(MoveOn(c, s, id, m))
  {
    hide MoveOn, AllowRequest, ProviderOf;
    Frame(c, s, id, m);
    if m.Try? {
      TryShape(c, s, id);
    }
  }

  // ---- The request that opened an episode ----------------------------------------------

  // It was let through when the episode began, has not reported, and times out in time.
  ghost predicate Opener(c: Config, s: System, id: nat, n: Provider) {
    && id < |s.requests| && Owes(s.requests[id], n, ProviderOf(s, n).episode)
    && s.requests[id].deadline == ProviderOf(s, n).openedAt + Timeout(c, n) as real
  }

  ghost predicate HasOpener(c: Config, s: System, n: Provider) {
    ProviderOf(s, n).breaker.mode == HalfOpen ==> exists id: nat :: Opener(c, s, id, n)
  }

  // The latest episode of a provider, as one step leaves it.
  ghost predicate SameEpisodes(s: System, s': System) {
    forall n :: ProviderOf(s', n).episode == ProviderOf(s, n).episode
                && ProviderOf(s', n).openedAt == ProviderOf(s, n).openedAt
  }

  lemma OtherEpisodes(c: Config, s: System, id: nat, m: Move)
    requires id < |s.requests| && !m.Try?
    ensures SameEpisodes(s, MoveOn(c, s, id, m))
  {
    if !MayCall(m) {
      hide MoveOn;
      Frame(c, s, id, m);
    } else {
      hide RecordFailure, RecordSuccess, OpenAt, Classify, PcAfterHead, LoseLast, KeyOf, TouchesOnly;
    }
  }

  // An episode begins exactly when an open breaker lets a request through, which is then
  // the one that opened it.
  lemma TryEpisodes(c: Config, s: System, id: nat, n: Provider)
    requires id < |s.requests|
    ensures
      var r, s' := s.requests[id], MoveOn(c, s, id, Try);
      var p, p' := ProviderOf(s, n), ProviderOf(s', n);
      if HasNext(r) && Next(r) == n && p.breaker.mode == Open && AllowRequest(c.breaker, p.breaker, s.now).1 then
        && p'.episode == p.episode + 1 && p'.openedAt == s.now
        && s'.requests[id].owes == Some(Debt(n, Some(p'.episode)))
        && s'.requests[id].deadline == s.now + Timeout(c, n) as real
      else p'.episode == p.episode && p'.openedAt == p.openedAt
  {
    hide LastContacted, TouchesOnly;
  }

  lemma AskedHalfOpen(c: Config, b: Breaker, now: real)
    requires AllowRequest(c.breaker, b, now).0.mode == HalfOpen
    ensures b.mode == HalfOpen || (b.mode == Open && AllowRequest(c.breaker, b, now).1)
  {
  }

  lemma OpenerStays(c: Config, s: System, s': System, id: nat, k: nat, n: Provider)
    requires Opener(c, s, k, n) && id < |s.requests| && |s'.requests| == |s.requests|
    requires s'.requests == s.requests[id := s'.requests[id]]
    requires ProviderOf(s', n).episode == ProviderOf(s, n).episode
    requires ProviderOf(s', n).openedAt == ProviderOf(s, n).openedAt
    requires k == id ==>
               s'.requests[id].owes == s.requests[id].owes && s'.requests[id].deadline == s.requests[id].deadline
    ensures Opener(c, s', k, n)
  {
  }

  lemma TryKeepsOpener(c: Config, s: System, id: nat, n: Provider)
    requires Inv(c, s) && id < |s.requests| && HasOpener(c, s, n)
    ensures HasOpener(c, MoveOn(c, s, id, Try), n)
  {
    hide MoveOn, Inv, BreakerOk, ProbesOk, OpenOk, AllowRequest;
    var r, s' := s.requests[id], MoveOn(c, s, id, Try);
    InvAt(c, s, n, id);
    Frame(c, s, id, Try);
    Calls(c, s, id, Try);
    TryShape(c, s, id);
    TryEpisodes(c, s, id, n);
    var p, p' := ProviderOf(s, n), ProviderOf(s', n);
    if p'.breaker.mode == HalfOpen {
      if HasNext(r) && Next(r) == n {
        AskedHalfOpen(c, p.breaker, s.now);
      }
      if p.breaker.mode == HalfOpen {
        var k: nat :| Opener(c, s, k, n);
        OpenerStays(c, s, s', id, k, n);
      } else {
        assert Opener(c, s', id, n);
      }
    }
  }

  lemma OtherKeepsOpener(c: Config, s: System, id: nat, m: Move, n: Provider)
    requires Inv(c, s) && id < |s.requests| && !m.Try? && HasOpener(c, s, n)
    ensures HasOpener(c, MoveOn(c, s, id, m), n)
  {
    hide MoveOn, Inv, BreakerOk, ProbesOk, OpenOk, RecordFailure, RecordSuccess, Classify, CountsAsFailure;
    var r, s' := s.requests[id], MoveOn(c, s, id, m);
    InvAt(c, s, n, id);
    Frame(c, s, id, m);
    Calls(c, s, id, m);
    OtherEpisodes(c, s, id, m);
    if CallOf(s, r, m).Some? {
      ReportEndsEpisode(c, s, id, m);
    }
    match m {
      case Head(h) => HeadShape(c, s, id, h);
      case Read(body, usage) => ReadShape(c, s, id, body, usage);
      case StreamDone(broken) => StreamDoneShape(c, s, id, broken);
      case _ =>
    }
    if ProviderOf(s', n).breaker.mode == HalfOpen {
      var k: nat :| Opener(c, s, k, n);
      OpenerStays(c, s, s', id, k, n);
    }
  }

  // ---- Every step -----------------------------------------------------------------------

  ghost predicate TimedInv(c: Config, s: System) {
    && Inv(c, s) && DeadlinesOk(s)
    && forall n :: HasOpener(c, s, n)
  }

  lemma StepKeepsTimed(c: Config, s: System, a: Action)
    requires TimedInv(c, s)
    ensures TimedInv(c, Step(c, s, a))
  {
    hide MoveOn, ArriveStep, Inv, DeadlinesOk, HasOpener;
    var s' := Step(c, s, a);
    GatewayBreakers.StepKeepsInv(c, s, a);
    match a
    case Act(id, m) =>
      if id < |s.requests| {
        MoveKeepsDeadlines(c, s, id, m);
        forall n: Provider
          ensures HasOpener(c, s', n)
        {
          assert HasOpener(c, s, n);
          if m.Try? {
            TryKeepsOpener(c, s, id, n);
          } else {
            OtherKeepsOpener(c, s, id, m, n);
          }
        }
      }
    case _ =>
      if a.Arrive? {
        ArriveFrame(c, s, a);
      }
      StillOk(c, s, s');
  }

  // Steps that add a request at most, and wait only while nobody is late.
  lemma StillOk(c: Config, s: System, s': System)
    requires DeadlinesOk(s) && forall n :: HasOpener(c, s, n)
    requires s'.providers == s.providers
    requires
      || (s'.requests == s.requests && (s'.now == s.now || MayPass(s, s'.now)))
      || (s'.now == s.now && |s'.requests| == |s.requests| + 1 && s'.requests[..|s.requests|] == s.requests
          && !Waits(s'.requests[|s.requests|]))
    ensures DeadlinesOk(s') && forall n :: HasOpener(c, s', n)
  {
    forall id | 0 <= id < |s'.requests| && Waits(s'.requests[id])
      ensures s'.now <= s'.requests[id].deadline
    {
      assert id < |s.requests| ==> s'.requests[id] == s'.requests[..|s.requests|][id];
    }
    forall n: Provider
      ensures HasOpener(c, s', n)
    {
      assert HasOpener(c, s, n);
      if ProviderOf(s', n).breaker.mode == HalfOpen {
        var k: nat :| Opener(c, s, k, n);
        assert s'.requests[k] == s'.requests[..|s.requests|][k];
        assert Opener(c, s', k, n);
      }
    }
  }

  lemma {:induction false} RunKeepsTimed(c: Config, s: System, actions: seq<Action>)
    requires TimedInv(c, s)
    ensures TimedInv(c, Run(c, s, actions))
    decreases |actions|
  {
    hide TimedInv, Step;
    if actions != [] {
      StepKeepsTimed(c, s, actions[0]);
      RunKeepsTimed(c, Step(c, s, actions[0]), actions[1..]);
    }
  }

  lemma Timed(c: Config, start: real, actions: seq<Action>)
    ensures TimedInv(c, GatewayRecovery.After(c, start, actions))
  {
    InitInv(c, start);
    assert TimedInv(c, Init(start));
    RunKeepsTimed(c, Init(start), actions);
  }

  // ---- Main results -----------------------------------------------------------------------

  // In every run, whoever waits for headers, reads a body or streams is within the deadline
  // of the request.
  lemma NobodyOutlastsTimeout(c: Config, start: real, actions: seq<Action>, id: nat)
    requires id < |GatewayRecovery.After(c, start, actions).requests|
    ensures
      var s := GatewayRecovery.After(c, start, actions);
      s.requests[id].pc in {Sent, ReadingBody, Streaming} ==> s.now <= s.requests[id].deadline
  {
    Timed(c, start, actions);
  }

  // In every run: if a half-open episode lasts longer than the request timeout, the handler
  // of the very request that opened it was dropped at the send await.
  lemma LateEpisodeWasAbandoned(c: Config, start: real, actions: seq<Action>, n: Provider)
    requires
      var s := GatewayRecovery.After(c, start, actions);
      var p := ProviderOf(s, n);
      p.breaker.mode == HalfOpen && s.now > p.openedAt + Timeout(c, n) as real
    ensures
      var s := GatewayRecovery.After(c, start, actions);
      exists id: nat :: Opener(c, s, id, n) && IsDropped(s.requests[id])
  {
    var s := GatewayRecovery.After(c, start, actions);
    Timed(c, start, actions);
    assert HasOpener(c, s, n);
    var id: nat :| Opener(c, s, id, n);
    OnlyWaitingOwes(c, start, actions, id);
    assert IsDropped(s.requests[id]);
  }

  predicate IsDropped(r: Request) {
    r.pc == Unwinding(Cancelled) || r.pc == Finished(Cancelled)
  }

  // In every run in which no handler is dropped there, a half-open episode is over
  // within the request timeout of its beginning.
  lemma EpisodeEndsInTime(c: Config, start: real, actions: seq<Action>, n: Provider)
    requires NoDropAtSend(c, Init(start), actions)
    ensures
      var s := GatewayRecovery.After(c, start, actions);
      var p := ProviderOf(s, n);
      p.breaker.mode == HalfOpen ==> s.now <= p.openedAt + Timeout(c, n) as real
  {
    var s := GatewayRecovery.After(c, start, actions);
    Timed(c, start, actions);
    RunOwesWhileSent(c, Init(start), actions);
    if ProviderOf(s, n).breaker.mode == HalfOpen {
      assert HasOpener(c, s, n);
      var id: nat :| Opener(c, s, id, n);
      assert OwesWhileSent(s.requests[id]);
    }
  }
}
