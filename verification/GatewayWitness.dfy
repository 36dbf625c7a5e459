// Runs that can be brought about: how a newcomer gets to a given provider, at once. It
// reads every breaker in failover order as any other request does, and is turned away or
// meets a connection error at every candidate before that provider.

module GatewayWitness {
  import opened Basics
  import opened FailoverOrder
  import opened Gateway
  import opened GatewayMoves
  import opened CircuitBreakers
  import Selection = GatewaySelection

  function BreakerOf(s: System, n: Provider): Breaker {
    ProviderOf(s, n).breaker
  }

  lemma RunNone(c: Config, s: System)
    ensures Run(c, s, []) == s
  {
  }

  lemma RunOne(c: Config, s: System, a: Action)
    ensures Run(c, s, [a]) == Step(c, s, a)
  {
    hide Step;
    assert [a][1..] == [];
  }

  lemma RunThen(c: Config, s: System, actions: seq<Action>, a: Action)
    ensures Run(c, s, actions + [a]) == Step(c, Run(c, s, actions), a)
  {
    hide Step, Run;
    RunAppend(c, s, actions, [a]);
    RunOne(c, Run(c, s, actions), a);
  }

  // ---- Undisturbed runs of one request ------------------------------------------------

  // Only time passes and request id moves, and it is not dropped.
  predicate RunsAlone(actions: seq<Action>, id: nat) {
    forall k :: 0 <= k < |actions| ==>
      actions[k].Tick? || (actions[k].Act? && actions[k].id == id && !actions[k].move.Cancel?)
  }

  lemma Joined(c: Config, s: System, a: seq<Action>, b: seq<Action>, id: nat)
    requires RunsAlone(a, id) && RunsAlone(b, id)
    ensures RunsAlone(a + b, id) && Run(c, s, a + b) == Run(c, Run(c, s, a), b)
  {
    RunAppend(c, s, a, b);
  }

  // Waiting until t, then one move.
  function MoveAt(s: System, id: nat, m: Move, t: real): seq<Action> {
    [Tick(t - s.now), Act(id, m)]
  }

  lemma MovesAt(c: Config, s: System, id: nat, m: Move, t: real)
    requires id < |s.requests| && s.now <= t && (t == s.now || MayPass(s, t))
    ensures Run(c, s, MoveAt(s, id, m, t)) == MoveOn(c, s.(now := t), id, m)
    ensures m.Cancel? || RunsAlone(MoveAt(s, id, m, t), id)
  {
    hide MoveOn, MayPass;
    var actions := MoveAt(s, id, m, t);
    RunOne(c, s, actions[0]);
    RunThen(c, s, [actions[0]], actions[1]);
    assert actions == [actions[0]] + [actions[1]];
  }

  // The others leave time until t.
  predicate OthersWait(s: System, id: nat, t: real) {
    forall i :: 0 <= i < |s.requests| && i != id && Waits(s.requests[i]) ==> t <= s.requests[i].deadline
  }

  lemma TimeLeft(s: System, id: nat, t: real, limit: real)
    requires id < |s.requests| && OthersWait(s, id, limit) && t <= limit
    requires Waits(s.requests[id]) ==> t <= s.requests[id].deadline
    ensures MayPass(s, t)
  {
  }

  // What a handler holds does not change while it selects and contacts.
  predicate Underway(s: System, s': System, id: nat) {
    && |s'.requests| == |s.requests| && id < |s.requests| && s.now <= s'.now && s'.accounts == s.accounts
    && (forall i :: 0 <= i < |s.requests| && i != id ==> s'.requests[i] == s.requests[i])
    && var r, r' := s.requests[id], s'.requests[id];
       && r'.client == r.client && r'.kind == r.kind && r'.prompt == r.prompt && r'.estimate == r.estimate
       && r'.hold == r.hold && r'.usage == r.usage
  }

  lemma StillWait(s: System, s': System, id: nat, limit: real)
    requires Underway(s, s', id) && OthersWait(s, id, limit)
    ensures OthersWait(s', id, limit)
  {
  }

  lemma FreeMoveAt(c: Config, s: System, id: nat, m: Move, t: real)
    requires id < |s.requests| && s.now <= t && IsFree(m)
    ensures Underway(s, MoveOn(c, s.(now := t), id, m), id)
    ensures MoveOn(c, s.(now := t), id, m).now == t
    ensures !m.Read? ==> MoveOn(c, s.(now := t), id, m).cache == s.cache
    ensures !m.Select? ==> MoveOn(c, s.(now := t), id, m).requests[id].candidates == s.requests[id].candidates
  {
    hide MoveOn;
    Frame(c, s.(now := t), id, m);
  }

  // ---- Arriving ---------------------------------------------------------------------------

  // A client that has not been seen has full buckets.
  lemma {:induction false} UnusedName(names: set<Client>) returns (name: Client)
    ensures name != "" && forall n :: n in names ==> |n| < |name|
    decreases |names|
  {
    name := "a";
    if names != {} {
      var n :| n in names;
      var longer := UnusedName(names - {n});
      name := if |longer| > |n| then longer else n + "a";
      assert forall m :: m in names ==> m == n || m in names - {n};
    }
  }

  lemma FullBuckets(c: Config, s: System, client: Client)
    requires Validated(c) && client !in s.accounts
    ensures
      var a := AccountOf(c, s, client);
      && Buckets.TryConsume(Rpm(c), a.rpm, 1.0, s.now).1.Granted?
      && Buckets.TryConsume(Tpm(c), a.tpm, 0.0, s.now).1.Granted?
  {
  }

  // A request of a new client is added, and no breaker has been called.
  predicate Arrived(s: System, s': System) {
    && s'.providers == s.providers && s'.now == s.now
    && |s'.requests| == |s.requests| + 1 && s'.requests[..|s.requests|] == s.requests
    && var r := s'.requests[|s.requests|];
       && r.client != "" && r.client !in s.accounts
       && r.pc == Selecting && r.kind == ChatStream && r.owes.None?
       && r.looks == [] && r.candidates == [] && r.attempts == []
  }

  lemma Arrives(c: Config, s: System) returns (actions: seq<Action>)
    requires Validated(c)
    ensures Arrived(s, Run(c, s, actions))
  {
    var client := UnusedName(s.accounts.Keys);
    FullBuckets(c, s, client);
    hide Buckets.TryConsume, AccountOf, Run;
    var id := |s.requests|;
    var arrive := Arrive(client, ChatStream, Prompt("", "{}"), 0.0);
    var s1 := Step(c, s, arrive);
    SameTpm(c, s, s1, client);
    var s2 := Step(c, s1, Act(id, Reserve));
    assert s2.requests[id].pc == Reserved;
    actions := [arrive];
    RunOne(c, s, arrive);
    RunThen(c, s, actions, Act(id, Reserve));
    actions := actions + [Act(id, Reserve)];
    RunThen(c, s, actions, Act(id, Lookup));
    actions := actions + [Act(id, Lookup)];
  }

  lemma SameTpm(c: Config, s: System, s': System, client: Client)
    requires s' == ArriveStep(c, s, client, ChatStream, Prompt("", "{}"), 0.0)
    ensures AccountOf(c, s', client).tpm == AccountOf(c, s, client).tpm
  {
  }

  // ---- Selecting ----------------------------------------------------------------------------

  predicate EligibleAt(c: Config, s: System, at: nat -> real, i: nat)
    requires i < |Providers(c)|
  {
    IsEligible(c.breaker, ProviderOf(s, Providers(c)[i]).breaker, at(i))
  }

  function PicksFrom(c: Config, s: System, at: nat -> real, from: nat): seq<nat>
    requires from <= |Providers(c)|
    decreases |Providers(c)| - from
  {
    if from == |Providers(c)| then []
    else (if EligibleAt(c, s, at, from) then [from] else []) + PicksFrom(c, s, at, from + 1)
  }

  lemma {:induction false} PicksAreEligible(c: Config, s: System, at: nat -> real, from: nat)
    requires from <= |Providers(c)|
    ensures IsSublist(PicksFrom(c, s, at, from), |Providers(c)|)
    ensures forall i :: i in PicksFrom(c, s, at, from) <==>
                          from <= i < |Providers(c)| && EligibleAt(c, s, at, i)
    decreases |Providers(c)| - from
  {
    hide EligibleAt, Providers, IsSublist;
    if from < |Providers(c)| {
      PicksAreEligible(c, s, at, from + 1);
      var rest := PicksFrom(c, s, at, from + 1);
      assert forall k :: 0 <= k < |rest| ==> rest[k] in rest;
      Ahead(from, rest, |Providers(c)|);
    } else {
      assert IsSublist([], |Providers(c)|) by { Nobody(|Providers(c)|); }
    }
  }

  lemma Nobody(n: nat)
    ensures IsSublist([], n)
  {
  }

  lemma Ahead(i: nat, rest: seq<nat>, n: nat)
    requires i < n && IsSublist(rest, n) && forall k :: 0 <= k < |rest| ==> i < rest[k]
    ensures IsSublist([i] + rest, n) && [] + rest == rest
  {
    var all := [i] + rest;
    assert all[0] == i && forall k :: 0 < k < |all| ==> all[k] == rest[k - 1];
  }

  function NamesFrom(c: Config, s: System, at: nat -> real, from: nat): seq<Provider>
    requires from <= |Providers(c)|
  {
    PicksAreEligible(c, s, at, from);
    Picked(Providers(c), PicksFrom(c, s, at, from))
  }

  lemma NamesNext(c: Config, s: System, at: nat -> real, from: nat)
    requires from < |Providers(c)|
    ensures NamesFrom(c, s, at, from) ==
            (if EligibleAt(c, s, at, from) then [Providers(c)[from]] else []) + NamesFrom(c, s, at, from + 1)
  {
    hide EligibleAt, Providers;
    PicksAreEligible(c, s, at, from);
    PicksAreEligible(c, s, at, from + 1);
  }

  lemma {:induction false} SamePicks(c: Config, s: System, s': System, at: nat -> real, from: nat)
    requires from <= |Providers(c)| && s'.providers == s.providers
    ensures PicksFrom(c, s', at, from) == PicksFrom(c, s, at, from)
    ensures NamesFrom(c, s', at, from) == NamesFrom(c, s, at, from)
    decreases |Providers(c)| - from
  {
    hide Providers, IsEligible;
    if from < |Providers(c)| {
      SamePicks(c, s, s', at, from + 1);
    }
  }

  lemma EligibleIsListed(c: Config, s: System, at: nat -> real, n: Provider)
    requires n in Providers(c) && forall i: nat :: IsEligible(c.breaker, BreakerOf(s, n), at(i))
    ensures n in NamesFrom(c, s, at, 0)
  {
    hide IsEligible, Providers;
    PicksAreEligible(c, s, at, 0);
    var i :| 0 <= i < |Providers(c)| && Providers(c)[i] == n;
    assert EligibleAt(c, s, at, i);
    var k :| 0 <= k < |PicksFrom(c, s, at, 0)| && PicksFrom(c, s, at, 0)[k] == i;
    assert NamesFrom(c, s, at, 0)[k] == n;
  }

  // Readings one after another, until the limit.
  predicate SelectsBy(c: Config, at: nat -> real, from: nat, now: real, limit: real) {
    && now <= limit
    && (forall i :: from <= i < |Providers(c)| ==> now <= at(i) <= limit)
    && (forall i, j :: from <= i < j < |Providers(c)| ==> at(i) <= at(j))
  }

  lemma {:induction false} Selects(c: Config, s: System, id: nat, at: nat -> real, limit: real)
    returns (actions: seq<Action>)
    requires id < |s.requests| && s.requests[id].pc.Selecting? && |s.requests[id].looks| <= |Providers(c)|
    requires SelectsBy(c, at, |s.requests[id].looks|, s.now, limit) && (limit == s.now || OthersWait(s, id, limit))
    ensures RunsAlone(actions, id)
    ensures
      var r, s' := s.requests[id], Run(c, s, actions);
      && Underway(s, s', id) && s'.now <= limit && s'.cache == s.cache && s'.providers == s.providers
      && var r' := s'.requests[id];
         && r'.candidates == r.candidates + NamesFrom(c, s, at, |r.looks|)
         && r'.pc == (if r'.candidates == [] then Unwinding(NoProviders) else Choosing)
         && r'.attempts == r.attempts && r'.owes == r.owes
    decreases |Providers(c)| - |s.requests[id].looks|
  {
    hide SelectsBy, Providers, EligibleAt, NamesFrom, Run, OthersWait, RunsAlone, ProviderOf;
    var from := |s.requests[id].looks|;
    actions := SelectsOne(c, s, id, at, limit);
    var s1 := Run(c, s, actions);
    if from < |Providers(c)| {
      var rest := Selects(c, s1, id, at, limit);
      Joined(c, s, actions, rest, id);
      actions := actions + rest;
      NamesNext(c, s, at, from);
      SamePicks(c, s, s1, at, from + 1);
    } else {
      NoNames(c, s, at);
    }
  }

  // One breaker is read, or the list is finished.
  lemma SelectsOne(c: Config, s: System, id: nat, at: nat -> real, limit: real) returns (actions: seq<Action>)
    requires id < |s.requests| && s.requests[id].pc.Selecting? && |s.requests[id].looks| <= |Providers(c)|
    requires SelectsBy(c, at, |s.requests[id].looks|, s.now, limit) && (limit == s.now || OthersWait(s, id, limit))
    ensures RunsAlone(actions, id)
    ensures
      var r, s1 := s.requests[id], Run(c, s, actions);
      var from := |r.looks|;
      && Underway(s, s1, id) && s1.now <= limit && s1.cache == s.cache && s1.providers == s.providers
      && var r1 := s1.requests[id];
         && r1.attempts == r.attempts && r1.owes == r.owes
         && if from < |Providers(c)| then
              && r1.pc.Selecting? && |r1.looks| == from + 1
              && r1.candidates == r.candidates + (if EligibleAt(c, s, at, from) then [Providers(c)[from]] else [])
              && SelectsBy(c, at, from + 1, s1.now, limit) && (limit == s1.now || OthersWait(s1, id, limit))
            else
              && r1.candidates == r.candidates
              && r1.pc == if r1.candidates == [] then Unwinding(NoProviders) else Choosing
  {
    hide MoveOn, Providers, IsEligible, Run, OthersWait, MayPass;
    var from := |s.requests[id].looks|;
    var t := if from < |Providers(c)| then at(from) else s.now;
    actions := MoveAt(s, id, Select, t);
    if t > s.now {
      TimeLeft(s, id, t, limit);
    }
    MovesAt(c, s, id, Select, t);
    FreeMoveAt(c, s, id, Select, t);
    Frame(c, s.(now := t), id, Select);
    Selection.SelectShape(c, s.(now := t), id);
    if limit > s.now {
      StillWait(s, Run(c, s, actions), id, limit);
    }
  }

  lemma NoNames(c: Config, s: System, at: nat -> real)
    ensures NamesFrom(c, s, at, |Providers(c)|) == []
  {
  }

  // ---- Getting to a candidate ---------------------------------------------------------------

  // The request waits for headers from n, whose breaker has been asked once.
  ghost predicate AtProvider(c: Config, s: System, s': System, id: nat, n: Provider) {
    && TouchesOnly(s, s', id) && id < |s'.requests|
    && s'.requests[id].pc == Sent && s'.requests[id].provider == n && s'.requests[id].kind == s.requests[id].kind
    && ProviderOf(s', n) == Ask(c, ProviderOf(s, n), s.now).0
  }

  lemma {:induction false} GetsTo(c: Config, s: System, id: nat, n: Provider) returns (actions: seq<Action>)
    requires id < |s.requests| && s.requests[id].pc.Choosing?
    requires |s.requests[id].attempts| <= |s.requests[id].candidates|
    requires n in s.requests[id].candidates[|s.requests[id].attempts|..]
    requires AllowRequest(c.breaker, BreakerOf(s, n), s.now).1
    ensures AtProvider(c, s, Run(c, s, actions), id, n)
    decreases |s.requests[id].candidates| - |s.requests[id].attempts|
  {
    hide Step, AllowRequest, Ask;
    var r := s.requests[id];
    var s1 := Step(c, s, Act(id, Try));
    RunOne(c, s, Act(id, Try));
    actions := [Act(id, Try)];
    if Next(r) == n {
      TryReaches(c, s, id);
    } else {
      var pass := Passes(c, s, id);
      var s2 := Run(c, s, pass);
      var rest := GetsTo(c, s2, id, n);
      RunAppend(c, s, pass, rest);
      actions := pass + rest;
    }
  }

  lemma TryReaches(c: Config, s: System, id: nat)
    requires id < |s.requests| && HasNext(s.requests[id])
    requires AllowRequest(c.breaker, BreakerOf(s, Next(s.requests[id])), s.now).1
    ensures AtProvider(c, s, Step(c, s, Act(id, Try)), id, Next(s.requests[id]))
  {
    hide AllowRequest;
  }

  // A candidate before n turns the request away, or the connection to it fails.
  lemma Passes(c: Config, s: System, id: nat) returns (actions: seq<Action>)
    requires id < |s.requests| && HasNext(s.requests[id])
    ensures
      var r, s' := s.requests[id], Run(c, s, actions);
      && TouchesOnly(s, s', id)
      && (forall n :: n != Next(r) ==> ProviderOf(s', n) == ProviderOf(s, n))
      && var r' := s'.requests[id];
         && r'.pc.Choosing? && r'.kind == r.kind && r'.candidates == r.candidates
         && |r'.attempts| == |r.attempts| + 1
  {
    hide MoveOn, AllowRequest, Run;
    var r := s.requests[id];
    var s1 := Step(c, s, Act(id, Try));
    Frame(c, s, id, Try);
    TryShape(c, s, id);
    Calls(c, s, id, Try);
    RunOne(c, s, Act(id, Try));
    actions := [Act(id, Try)];
    if s1.requests[id].pc.Sent? {
      Frame(c, s1, id, Head(ConnectError));
      HeadShape(c, s1, id, ConnectError);
      Calls(c, s1, id, Head(ConnectError));
      RunThen(c, s, actions, Act(id, Head(ConnectError)));
      actions := actions + [Act(id, Head(ConnectError))];
    }
  }

  // ---- All together -----------------------------------------------------------------------

  ghost predicate HasEntered(c: Config, s: System, s': System, n: Provider) {
    && s'.now == s.now && |s'.requests| == |s.requests| + 1
    && (forall id :: 0 <= id < |s.requests| ==> s'.requests[id] == s.requests[id])
    && s'.requests[|s.requests|].pc == Sent && s'.requests[|s.requests|].provider == n
    && s'.requests[|s.requests|].kind == ChatStream
    && ProviderOf(s', n) == Ask(c, ProviderOf(s, n), s.now).0
  }

  // The newcomer has its list, and n is on it.
  ghost predicate Listing(s: System, s': System, n: Provider) {
    && s'.providers == s.providers && s'.now == s.now && |s'.requests| == |s.requests| + 1
    && (forall id :: 0 <= id < |s.requests| ==> s'.requests[id] == s.requests[id])
    && var r := s'.requests[|s.requests|];
       r.pc.Choosing? && r.kind == ChatStream && r.attempts == [] && n in r.candidates
  }

  lemma Lists(c: Config, s: System, n: Provider) returns (actions: seq<Action>)
    requires Validated(c) && n in Providers(c) && IsEligible(c.breaker, BreakerOf(s, n), s.now)
    ensures Listing(s, Run(c, s, actions), n)
  {
    var arriving := Arrives(c, s);
    hide IsEligible, Providers, Run;
    var s1 := Run(c, s, arriving);
    var atOnce := (_: nat) => s1.now;
    var selecting := Selects(c, s1, |s.requests|, atOnce, s1.now);
    RunAppend(c, s, arriving, selecting);
    actions := arriving + selecting;
    EligibleIsListed(c, s1, atOnce, n);
    assert forall other :: 0 <= other < |s.requests| ==> s1.requests[other] == s1.requests[..|s.requests|][other];
  }

  // A newcomer is admitted at n at once, provided its breaker lets anybody through.
  lemma Enter(c: Config, s: System, n: Provider) returns (actions: seq<Action>)
    requires Validated(c) && n in Providers(c) && AllowRequest(c.breaker, BreakerOf(s, n), s.now).1
    ensures HasEntered(c, s, Run(c, s, actions), n)
  {
    EligibleIffAllowed(c.breaker, BreakerOf(s, n), s.now);
    var listing := Lists(c, s, n);
    hide *;
    var s1 := Run(c, s, listing);
    AfterListing(s, s1, n);
    var getting := GetsTo(c, s1, |s.requests|, n);
    RunAppend(c, s, listing, getting);
    actions := listing + getting;
    EnteredBy(c, s, s1, Run(c, s1, getting), n);
  }

  lemma AfterListing(s: System, s1: System, n: Provider)
    requires Listing(s, s1, n)
    ensures |s.requests| < |s1.requests| && s1.requests[|s.requests|].pc.Choosing?
    ensures |s1.requests[|s.requests|].attempts| <= |s1.requests[|s.requests|].candidates|
    ensures n in s1.requests[|s.requests|].candidates[|s1.requests[|s.requests|].attempts|..]
    ensures BreakerOf(s1, n) == BreakerOf(s, n) && s1.now == s.now
  {
  }

  lemma EnteredBy(c: Config, s: System, s1: System, s': System, n: Provider)
    requires Listing(s, s1, n) && AtProvider(c, s1, s', |s.requests|, n)
    ensures HasEntered(c, s, s', n)
  {
    hide Ask;
  }

  // ---- Letting time pass --------------------------------------------------------------------

  predicate NobodyWaits(s: System) {
    forall id :: 0 <= id < |s.requests| ==> !Waits(s.requests[id])
  }

  lemma Passing(c: Config, s: System, d: real)
    requires NobodyWaits(s) && d >= 0.0
    ensures Step(c, s, Tick(d)) == s.(now := s.now + d)
  {
  }

  // What ends the wait of a request without counting against anybody: the upstream rejects
  // it, its body comes in, its stream ends.
  function Ending(r: Request): Move {
    if r.pc.Sent? then Head(Status(400)) else if r.pc.ReadingBody? then Read(Some(""), None) else StreamDone(false)
  }

  predicate BodiesBegun(s: System) {
    forall id :: 0 <= id < |s.requests| && s.requests[id].pc.ReadingBody? ==> s.requests[id].attempts != []
  }

  // An open breaker stays open, with its failure.
  predicate StaysOpen(b: Breaker, b': Breaker) {
    b.mode == Open ==> b'.mode == Open && b'.lastFailure == b.lastFailure
  }

  lemma EndsOne(c: Config, s: System, id: nat, n: Provider)
    requires id < |s.requests| && Waits(s.requests[id]) && BodiesBegun(s)
    ensures
      var s' := MoveOn(c, s, id, Ending(s.requests[id]));
      && s'.now == s.now && s'.requests == s.requests[id := s'.requests[id]]
      && !Waits(s'.requests[id]) && StaysOpen(BreakerOf(s, n), BreakerOf(s', n))
  {
    hide MoveOn;
    var r := s.requests[id];
    var m := Ending(r);
    Frame(c, s, id, m);
    Calls(c, s, id, m);
    match m {
      case Head(h) => HeadShape(c, s, id, h);
      case Read(body, usage) => ReadShape(c, s, id, body, usage);
      case StreamDone(broken) => StreamDoneShape(c, s, id, broken);
    }
  }

  // At one instant, everything in flight from request id on ends.
  lemma {:induction false} EndsAll(c: Config, s: System, id: nat, n: Provider) returns (actions: seq<Action>)
    requires id <= |s.requests| && BodiesBegun(s) && forall i :: 0 <= i < id ==> !Waits(s.requests[i])
    ensures
      var s' := Run(c, s, actions);
      s'.now == s.now && NobodyWaits(s') && StaysOpen(BreakerOf(s, n), BreakerOf(s', n))
    decreases |s.requests| - id
  {
    hide MoveOn, Ending;
    actions := [];
    if id < |s.requests| {
      if Waits(s.requests[id]) {
        var a := Act(id, Ending(s.requests[id]));
        EndsOne(c, s, id, n);
        RunOne(c, s, a);
        var rest := EndsAll(c, Step(c, s, a), id + 1, n);
        RunAppend(c, s, [a], rest);
        actions := [a] + rest;
      } else {
        actions := EndsAll(c, s, id + 1, n);
      }
    }
  }
}
