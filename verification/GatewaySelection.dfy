// Which providers a request considers, in every run of the gateway:
// src/router/selector.rs, lines 42-59.

module GatewaySelection {
  import opened Basics
  import opened FailoverOrder
  import opened Gateway
  import opened GatewayMoves
  import opened CircuitBreakers
  import Breaking = GatewayBreakers

  // ---- The candidate list ---------------------------------------------------------------

  // The providers that were found eligible, in the order in which they were read.
  function Listed(providers: seq<Provider>, looks: seq<Look>): seq<Provider>
    requires |looks| <= |providers|
  {
    if looks == [] then []
    else
      var k := |looks| - 1;
      Listed(providers, looks[..k]) + (if looks[k].eligible then [providers[k]] else [])
  }

  lemma {:induction false} ListedNone(providers: seq<Provider>, looks: seq<Look>)
    requires |looks| <= |providers|
    ensures Listed(providers, looks) == [] <==> forall i :: 0 <= i < |looks| ==> !looks[i].eligible
  {
    if looks != [] {
      ListedNone(providers, looks[..|looks| - 1]);
    }
  }

  lemma ListedNext(providers: seq<Provider>, looks: seq<Look>, look: Look)
    requires |looks| < |providers|
    ensures Listed(providers, looks + [look]) ==
            Listed(providers, looks) + (if look.eligible then [providers[|looks|]] else [])
  {
    assert (looks + [look])[..|looks|] == looks;
  }

  // How far the handler has come with reading, at each point.
  predicate ReadEnough(c: Config, r: Request) {
    match r.pc
    case Entered => r.looks == []
    case Reserved => r.looks == []
    case Selecting => |r.looks| <= |Providers(c)|
    case Choosing => |r.looks| == |Providers(c)|
    case Sent => |r.looks| == |Providers(c)|
    case ReadingBody => |r.looks| == |Providers(c)|
    case Streaming => |r.looks| == |Providers(c)|
    case Settling(_, out) => ReadFor(c, r, out)
    case Unwinding(out) => ReadFor(c, r, out)
    case Finished(out) => ReadFor(c, r, out)
  }

  predicate ReadFor(c: Config, r: Request, out: Outcome) {
    match out
    case RateLimited(_) => r.looks == []
    case CacheHit(_) => r.looks == []
    case Cancelled => |r.looks| <= |Providers(c)|
    case NoProviders => |r.looks| == |Providers(c)| && r.candidates == []
    case _ => |r.looks| == |Providers(c)|
  }

  // What was read is what the calls made until then amount to.
  ghost predicate LookOk(c: Config, s: System, n: Provider, look: Look) {
    && look.at <= s.now && look.calls <= |ProviderOf(s, n).history|
    && look.eligible == IsEligible(c.breaker, Replay(c.breaker, FRESH, ProviderOf(s, n).history[..look.calls]), look.at)
  }

  ghost predicate LooksOk(c: Config, s: System, r: Request) {
    && |r.looks| <= |Providers(c)|
    && r.candidates == Listed(Providers(c), r.looks)
    && ReadEnough(c, r)
    && forall i :: 0 <= i < |r.looks| ==> LookOk(c, s, Providers(c)[i], r.looks[i])
  }

  ghost predicate Inv(c: Config, s: System) {
    && Breaking.Inv(c, s)
    && forall id :: 0 <= id < |s.requests| ==> LooksOk(c, s, s.requests[id])
  }

  // Histories only grow.
  ghost predicate Grows(s: System, s': System) {
    && s.now <= s'.now
    && forall n :: |ProviderOf(s, n).history| <= |ProviderOf(s', n).history|
                   && ProviderOf(s', n).history[..|ProviderOf(s, n).history|] == ProviderOf(s, n).history
  }

  lemma StepHistories(c: Config, s: System, a: Action)
    ensures Grows(s, Step(c, s, a))
  {
    hide MoveOn, ArriveStep;
    StepGrows(c, s, a);
    match a
    case Arrive(_, _, _, _) => ArriveFrame(c, s, a);
    case Act(id, m) =>
      if id < |s.requests| {
        Calls(c, s, id, m);
        var call := CallOf(s, s.requests[id], m);
      }
    case _ =>
  }

  lemma LookStays(c: Config, s: System, s': System, n: Provider, look: Look)
    requires LookOk(c, s, n, look) && Grows(s, s')
    ensures LookOk(c, s', n, look)
  {
    hide Replay, IsEligible;
    var h, h' := ProviderOf(s, n).history, ProviderOf(s', n).history;
    assert h'[..look.calls] == h'[..|h|][..look.calls];
  }

  lemma LooksStay(c: Config, s: System, s': System, r: Request)
    requires LooksOk(c, s, r) && Grows(s, s')
    ensures LooksOk(c, s', r)
  {
    hide LookOk, Grows;
    forall i | 0 <= i < |r.looks|
      ensures LookOk(c, s', Providers(c)[i], r.looks[i])
    {
      LookStays(c, s, s', Providers(c)[i], r.looks[i]);
    }
  }

  // Reading one more breaker records what it says.
  lemma SelectShape(c: Config, s: System, id: nat)
    requires id < |s.requests| && s.requests[id].pc.Selecting?
    ensures
      var r, r' := s.requests[id], MoveOn(c, s, id, Select).requests[id];
      if |r.looks| < |Providers(c)| then
        var n := Providers(c)[|r.looks|];
        var p := ProviderOf(s, n);
        var look := Look(s.now, |p.history|, IsEligible(c.breaker, p.breaker, s.now));
        && r'.looks == r.looks + [look] && r'.pc == Selecting
        && r'.candidates == r.candidates + (if look.eligible then [n] else [])
      else
        && r'.looks == r.looks && r'.candidates == r.candidates
        && r'.pc == if r.candidates == [] then Unwinding(NoProviders) else Choosing
  {
    hide IsEligible, Providers, TouchesOnly;
  }

  lemma NewLook(c: Config, s: System, n: Provider)
    requires Breaking.ProviderOk(c, s, n)
    ensures
      var p := ProviderOf(s, n);
      LookOk(c, s, n, Look(s.now, |p.history|, IsEligible(c.breaker, p.breaker, s.now)))
  {
    hide Replay, IsEligible;
    var h := ProviderOf(s, n).history;
    assert h[..|h|] == h;
  }

  lemma SelectKeepsLooks(c: Config, s: System, id: nat)
    requires id < |s.requests| && Breaking.Inv(c, s) && LooksOk(c, s, s.requests[id]) && s.requests[id].pc.Selecting?
    ensures LooksOk(c, s, MoveOn(c, s, id, Select).requests[id])
  {
    hide MoveOn, Breaking.Inv, Breaking.ProviderOk, Breaking.DebtOk, LookOk, IsEligible, Providers, Listed, ProviderOf;
    SelectShape(c, s, id);
    var r := s.requests[id];
    if |r.looks| < |Providers(c)| {
      var n := Providers(c)[|r.looks|];
      var p := ProviderOf(s, n);
      Breaking.InvAt(c, s, n, id);
      NewLook(c, s, n);
      ListedNext(Providers(c), r.looks, Look(s.now, |p.history|, IsEligible(c.breaker, p.breaker, s.now)));
    }
  }

  lemma MoveKeepsLooks(c: Config, s: System, id: nat, m: Move)
    requires id < |s.requests| && Breaking.Inv(c, s) && LooksOk(c, s, s.requests[id])
    ensures LooksOk(c, s, MoveOn(c, s, id, m).requests[id])
  {
    hide MoveOn, Breaking.Inv, LookOk, Providers;
    Frame(c, s, id, m);
    if m.Select? {
      if s.requests[id].pc.Selecting? {
        SelectKeepsLooks(c, s, id);
      } else {
        SelectIdle(c, s, id);
      }
    }
  }

  lemma SelectIdle(c: Config, s: System, id: nat)
    requires id < |s.requests| && !s.requests[id].pc.Selecting?
    ensures MoveOn(c, s, id, Select) == s
  {
  }

  lemma StepKeepsInv(c: Config, s: System, a: Action)
    requires Inv(c, s)
    ensures Inv(c, Step(c, s, a))
  {
    hide MoveOn, ArriveStep, Breaking.Inv, LooksOk;
    var s' := Step(c, s, a);
    Breaking.StepKeepsInv(c, s, a);
    StepHistories(c, s, a);
    StepGrows(c, s, a);
    forall id | 0 <= id < |s'.requests|
      ensures LooksOk(c, s', s'.requests[id])
    {
      if a.Act? && a.id == id {
        MoveKeepsLooks(c, s, id, a.move);
        LooksStay(c, s, s', s'.requests[id]);
      } else if id < |s.requests| {
        LooksStay(c, s, s', s.requests[id]);
      } else {
        ArrivalLooks(c, s, a);
      }
    }
  }

  lemma ArrivalLooks(c: Config, s: System, a: Action)
    requires a.Arrive? && |Step(c, s, a).requests| > |s.requests|
    ensures |Step(c, s, a).requests| == |s.requests| + 1
    ensures LooksOk(c, Step(c, s, a), Step(c, s, a).requests[|s.requests|])
  {
    hide Step, LookOk, Providers;
    ArriveFrame(c, s, a);
  }

  lemma {:induction false} RunKeepsInv(c: Config, s: System, actions: seq<Action>)
    requires Inv(c, s)
    ensures Inv(c, Run(c, s, actions))
    decreases |actions|
  {
    hide Inv, Step;
    if actions != [] {
      StepKeepsInv(c, s, actions[0]);
      RunKeepsInv(c, Step(c, s, actions[0]), actions[1..]);
    }
  }

  lemma Reachable(c: Config, start: real, actions: seq<Action>)
    ensures Inv(c, Run(c, Init(start), actions))
  {
    hide Breaking.Inv;
    Breaking.InitInv(c, start);
    RunKeepsInv(c, Init(start), actions);
  }

  // In every run the candidates of a request are, in failover order, exactly the
  // providers whose breakers were eligible at the moments they were read: a listed one
  // was, one left out was not, and nobody was skipped once the list is used. Nobody is
  // refused for want of providers while an eligible one was seen.
  lemma SelectionIsExact(c: Config, start: real, actions: seq<Action>, id: nat)
    requires id < |Run(c, Init(start), actions).requests|
    ensures
      var s := Run(c, Init(start), actions);
      var r := s.requests[id];
      && |r.looks| <= |Providers(c)| && r.candidates == Listed(Providers(c), r.looks) && ReadEnough(c, r)
      && (forall i :: 0 <= i < |r.looks| ==> LookOk(c, s, Providers(c)[i], r.looks[i]))
      && (r.pc == Finished(NoProviders) ==>
            |r.looks| == |Providers(c)| && forall i :: 0 <= i < |r.looks| ==> !r.looks[i].eligible)
  {
    hide Breaking.Inv, LookOk, Providers;
    Reachable(c, start, actions);
    var r := Run(c, Init(start), actions).requests[id];
    assert LooksOk(c, Run(c, Init(start), actions), r);
    ListedNone(Providers(c), r.looks);
  }

  // The configured positions of the listed providers.
  function PositionsOf(order: seq<nat>, looks: seq<Look>): seq<nat>
    requires |looks| <= |order|
  {
    if looks == [] then []
    else
      var k := |looks| - 1;
      PositionsOf(order, looks[..k]) + (if looks[k].eligible then [order[k]] else [])
  }

  lemma {:induction false} PositionsAscend(c: Config, looks: seq<Look>)
    requires |looks| <= |Providers(c)|
    ensures
      var order := Sorted(Priorities(c));
      var positions, listed := PositionsOf(order, looks), Listed(Providers(c), looks);
      && Ascending(Priorities(c), positions) && |positions| == |listed|
      && (forall k :: 0 <= k < |listed| ==> listed[k] == c.configured[positions[k]].name)
      && forall k :: 0 <= k < |positions| ==> exists j :: 0 <= j < |looks| && positions[k] == order[j]
  {
    hide Sorted, Priorities;
    SortedIsStable(Priorities(c));
    if looks != [] {
      var k := |looks| - 1;
      PositionsAscend(c, looks[..k]);
    }
  }

  // In every run, candidates are tried by priority and, where that is the same, in the
  // order of the configuration; no configured position is listed twice.
  lemma CandidatesByPriority(c: Config, start: real, actions: seq<Action>, id: nat) returns (positions: seq<nat>)
    requires id < |Run(c, Init(start), actions).requests|
    ensures
      var r := Run(c, Init(start), actions).requests[id];
      && |positions| == |r.candidates|
      && (forall k :: 0 <= k < |positions| ==>
            positions[k] < |c.configured| && r.candidates[k] == c.configured[positions[k]].name)
      && forall k, l :: 0 <= k < l < |positions| ==>
           var first, second := c.configured[positions[k]].priority, c.configured[positions[l]].priority;
           first < second || (first == second && positions[k] < positions[l])
  {
    hide Breaking.Inv, LookOk, Run;
    Reachable(c, start, actions);
    var r := Run(c, Init(start), actions).requests[id];
    assert LooksOk(c, Run(c, Init(start), actions), r);
    positions := PositionsOf(Sorted(Priorities(c)), r.looks);
    PositionsAscend(c, r.looks);
  }
}
