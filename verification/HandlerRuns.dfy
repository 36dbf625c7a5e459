// The handler is modelled twice: as it is written, over objects, in HandlerBody.dfy, and as
// moves that can be interleaved with those of others, in Gateway.dfy. Here the two are
// shown to agree: for every result of the method there is an undisturbed run of one request
// that ends there, and likewise for the stream.

module HandlerRuns {
  import opened Basics
  import opened FailoverOrder
  import opened Gateway
  import opened GatewayAnswers
  import opened CircuitBreakers
  import opened ProviderBreaker
  import opened FailoverLoop
  import opened HandlerBody
  import opened SseEvents
  import opened SseFraming
  import opened StreamPipeline
  import Moves = GatewayMoves
  import opened GatewayWitness

  // ---- Contacting ---------------------------------------------------------------------------

  // What does not change during the loop.
  datatype Script = Script(
    names: seq<Provider>, breakers: seq<CircuitBreaker>, start: map<CircuitBreaker, Breaker>,
    picks: seq<nat>, replies: seq<Reply>, usageOf: Body -> Option<nat>, times: Times)

  // One object for each name.
  ghost predicate Sound(c: Config, x: Script) {
    && |x.names| == |x.breakers| == |x.replies| && IsSublist(x.picks, |x.names|)
    && (forall i, j :: 0 <= i < |x.names| && 0 <= j < |x.names| ==>
          (x.breakers[i] == x.breakers[j] <==> x.names[i] == x.names[j]))
    && (forall i :: 0 <= i < |x.breakers| ==> x.breakers[i] in x.start && x.breakers[i].config == c.breaker)
  }

  ghost function Objects(x: Script): seq<CircuitBreaker>
    requires |x.names| == |x.breakers| && IsSublist(x.picks, |x.names|)
  {
    Picked(x.breakers, x.picks)
  }

  ghost function Replies(x: Script): seq<Reply>
    requires |x.names| == |x.replies| && IsSublist(x.picks, |x.names|)
  {
    Picked(x.replies, x.picks)
  }

  // Every breaker is where its own part of the log leads.
  ghost predicate Tracks(c: Config, s: System, x: Script, log: seq<Call>)
    requires Sound(c, x)
  {
    forall i :: 0 <= i < |x.names| ==>
      ProviderOf(s, x.names[i]).breaker ==
      Replay(c.breaker, x.start[x.breakers[i]], Seen(x.breakers[i], Objects(x), log))
  }

  // One more call, at a position of the candidate list.
  lemma CallTracks(c: Config, s: System, s': System, x: Script, log: seq<Call>, k: nat, e: Event)
    requires Sound(c, x) && Tracks(c, s, x, log) && k < |x.picks|
    requires Moves.Called(c, s, s', Some(Moves.Call(x.names[x.picks[k]], e)))
    ensures Tracks(c, s', x, log + [Call(k, e)])
  {
    hide Replay, Seen, CircuitBreakers.After;
    forall i | 0 <= i < |x.names|
      ensures ProviderOf(s', x.names[i]).breaker ==
              Replay(c.breaker, x.start[x.breakers[i]], Seen(x.breakers[i], Objects(x), log + [Call(k, e)]))
    {
      SeenNext(x.breakers[i], Objects(x), log, Call(k, e), x.start[x.breakers[i]]);
    }
  }

  lemma SameTracks(c: Config, s: System, s': System, x: Script, log: seq<Call>)
    requires Sound(c, x) && Tracks(c, s, x, log)
    requires forall n :: ProviderOf(s', n) == ProviderOf(s, n)
    ensures Tracks(c, s', x, log)
  {
    hide Replay, Seen;
  }

  // The handler is about to try the next candidate.
  ghost predicate Midway(c: Config, s: System, id: nat, x: Script) {
    && Sound(c, x) && id < |s.requests|
    && var r := s.requests[id];
       && r.pc.Choosing? && r.candidates == Picked(x.names, x.picks) && |r.attempts| <= |x.picks|
       && FirstDecisive(r.kind, r.attempts) == None
       && Agrees(c, s, x, r)
       && OthersWait(s, id, x.times.leave)
  }

  // So far the attempts are those of the loop.
  ghost predicate Agrees(c: Config, s: System, x: Script, r: Request)
    requires Sound(c, x)
  {
    && |r.attempts| <= |x.picks|
    && (forall k :: 0 <= k < |r.attempts| ==> Matches(r.kind, r.attempts[k], Replies(x)[k]))
    && (forall k :: 0 <= k < |r.attempts| ==>
          AskedRightly(r.kind, Objects(x), x.start, r.attempts, x.times.calls, k))
    && Tracks(c, s, x, Calls(r.kind, r.attempts, x.times.calls))
  }

  // A turn adds an attempt of the right kind.
  lemma TurnAgrees(c: Config, s: System, s': System, id: nat, x: Script, a: Attempt)
    requires Midway(c, s, id, x) && id < |s'.requests| && |s.requests[id].attempts| < |x.picks|
    requires s'.requests[id].kind == s.requests[id].kind
    requires s'.requests[id].attempts == s.requests[id].attempts + [a]
    requires
      var r := s.requests[id];
      var k := |r.attempts|;
      var b := ProviderOf(s, Picked(x.names, x.picks)[k]).breaker;
      && (a.Denied? <==> !AllowRequest(c.breaker, b, x.times.calls(AskedAt(k))).1)
      && Matches(r.kind, a, Replies(x)[k])
      && Tracks(c, s', x, Calls(r.kind, r.attempts, x.times.calls) + CallsAt(r.kind, a, k, x.times.calls))
    ensures Agrees(c, s', x, s'.requests[id])
  {
    hide Replay, Seen, CallsAt, Calls, Matches, AllowRequest, FirstDecisive;
    var r, r' := s.requests[id], s'.requests[id];
    var k, clock := |r.attempts|, x.times.calls;
    var i := x.picks[k];
    CallsSnoc(r.kind, r.attempts, a, clock);
    AskedNow(r.kind, Objects(x), x.start, r.attempts, a, clock, ProviderOf(s, x.names[i]).breaker);
    forall j | 0 <= j < |r'.attempts|
      ensures AskedRightly(r.kind, Objects(x), x.start, r'.attempts, clock, j)
    {
      if j < k {
        AskedEarlier(r.kind, Objects(x), x.start, r.attempts, a, clock, j);
      }
    }
  }

  // The state after a turn: a decisive attempt ends the loop with the outcome the method
  // gives, any other leaves the handler choosing.
  ghost predicate Turned(c: Config, s: System, s': System, id: nat, x: Script)
    requires Midway(c, s, id, x)
  {
    && Underway(s, s', id)
    && var r, r' := s.requests[id], s'.requests[id];
       && r'.candidates == r.candidates && |r'.attempts| == |r.attempts| + 1
       && Agrees(c, s', x, r')
       && var a := r'.attempts[|r.attempts|];
          && r'.attempts == r.attempts + [a]
          && r'.pc == AfterTurn(r.kind, a, Replies(x)[|r.attempts|], x.usageOf)
          && s'.cache == match BodyIn(r'.pc)
                         case Some(body) => if KeyOf(r).Some? then s.cache[KeyOf(r).value := body] else s.cache
                         case None => s.cache
  }

  function AfterTurn(kind: Kind, a: Attempt, reply: Reply, usageOf: Body -> Option<nat>): Pc {
    match a
    case Denied => Choosing
    case BodyBroken(_) => if kind.Embeddings? then Unwinding(BodyLost) else Choosing
    case Answered(h) =>
      if CountsAsFailure(kind, h) then Choosing
      else if IsRejection(h) then Unwinding(Rejected(h))
      else
        if kind.ChatStream? || reply.body.None? then Streaming
        else Settling(usageOf(reply.body.value), Served(reply.body.value))
  }

  function BodyIn(pc: Pc): Option<Body> {
    if pc.Settling? && pc.out.Served? then Some(pc.out.body) else None
  }

  // The calls at a position come in order, in time to leave, and within the request timeout
  // of its provider.
  predicate CallsBy(c: Config, x: Script, k: nat, now: real)
    requires k < |x.picks| && IsSublist(x.picks, |x.names|)
  {
    && now <= x.times.calls(AskedAt(k)) <= x.times.calls(HeaderAt(k)) <= x.times.calls(BodyAt(k)) <= x.times.leave
    && InTime(c, x, k)
  }

  predicate InTime(c: Config, x: Script, k: nat)
    requires k < |x.picks| && IsSublist(x.picks, |x.names|)
  {
    x.times.calls(BodyAt(k)) <= x.times.calls(AskedAt(k)) + Timeout(c, x.names[x.picks[k]]) as real
  }

  // A denied turn.
  lemma DeniedTurn(c: Config, s: System, id: nat, x: Script) returns (actions: seq<Action>)
    requires Midway(c, s, id, x) && |s.requests[id].attempts| < |x.picks|
    requires CallsBy(c, x, |s.requests[id].attempts|, s.now)
    requires
      var r := s.requests[id];
      !AllowRequest(c.breaker, ProviderOf(s, Moves.Next(r)).breaker, x.times.calls(AskedAt(|r.attempts|))).1
    ensures RunsAlone(actions, id) && Turned(c, s, Run(c, s, actions), id, x)
    ensures Run(c, s, actions).now == x.times.calls(AskedAt(|s.requests[id].attempts|))
  {
    hide MoveOn, AllowRequest, Run, Calls, AskedRightly, Matches, FirstDecisive, Tracks, Seen, Replay;
    hide CountsAsFailure, IsRejection, IsAcceptance;
    hide KeyOf, Moves.PcStep, IsSublist;
    var r := s.requests[id];
    var k := |r.attempts|;
    var t := x.times.calls(AskedAt(k));
    actions := MoveAt(s, id, Try, t);
    TimeLeft(s, id, t, x.times.leave);
    MovesAt(c, s, id, Try, t);
    Moves.Calls(c, s.(now := t), id, Try);
    Moves.TryShape(c, s.(now := t), id);
    FreeMoveAt(c, s, id, Try, t);
    var s' := Run(c, s, actions);
    var log := Calls(r.kind, r.attempts, x.times.calls);
    SameTracks(c, s, s.(now := t), x, log);
    CallTracks(c, s.(now := t), s', x, log, k, Asked(t));
    assert Matches(r.kind, Denied, Replies(x)[k]) by { DeniedMatches(r.kind, Replies(x)[k]); }
    TurnAgrees(c, s, s', id, x, Denied);
  }

  lemma DeniedMatches(kind: Kind, reply: Reply)
    ensures Matches(kind, Denied, reply)
  {
  }

  // Asked and let through.
  lemma Sends(c: Config, s: System, id: nat, x: Script) returns (actions: seq<Action>)
    requires Midway(c, s, id, x) && |s.requests[id].attempts| < |x.picks|
    requires CallsBy(c, x, |s.requests[id].attempts|, s.now)
    requires
      var r := s.requests[id];
      AllowRequest(c.breaker, ProviderOf(s, Moves.Next(r)).breaker, x.times.calls(AskedAt(|r.attempts|))).1
    ensures RunsAlone(actions, id)
    ensures
      var r, s' := s.requests[id], Run(c, s, actions);
      var k := |r.attempts|;
      && Underway(s, s', id) && s'.now == x.times.calls(AskedAt(k)) && s'.cache == s.cache
      && Tracks(c, s', x, Calls(r.kind, r.attempts, x.times.calls) + [Call(k, Asked(x.times.calls(AskedAt(k))))])
      && var r' := s'.requests[id];
         && r'.pc == Sent && r'.provider == x.names[x.picks[k]]
         && r'.deadline == x.times.calls(AskedAt(k)) + Timeout(c, r'.provider) as real
         && r'.candidates == r.candidates && r'.attempts == r.attempts
  {
    hide MoveOn, AllowRequest, Run, Calls, AskedRightly, Matches, FirstDecisive, Tracks;
    hide CountsAsFailure, IsRejection, IsAcceptance;
    var r := s.requests[id];
    var k := |r.attempts|;
    var t := x.times.calls(AskedAt(k));
    actions := MoveAt(s, id, Try, t);
    TimeLeft(s, id, t, x.times.leave);
    MovesAt(c, s, id, Try, t);
    Moves.Calls(c, s.(now := t), id, Try);
    Moves.TryShape(c, s.(now := t), id);
    FreeMoveAt(c, s, id, Try, t);
    var log := Calls(r.kind, r.attempts, x.times.calls);
    SameTracks(c, s, s.(now := t), x, log);
    CallTracks(c, s.(now := t), Run(c, s, actions), x, log, k, Asked(t));
  }

  // The headers come in.
  lemma Heads(c: Config, s: System, id: nat, x: Script, k: nat, log: seq<Call>, h: Header, t: real)
    returns (actions: seq<Action>)
    requires Sound(c, x) && Tracks(c, s, x, log) && id < |s.requests| && s.requests[id].pc.Sent?
    requires k < |x.picks| && s.requests[id].provider == x.names[x.picks[k]]
    requires s.now <= t <= s.requests[id].deadline && OthersWait(s, id, t)
    ensures RunsAlone(actions, id)
    ensures
      var r, s' := s.requests[id], Run(c, s, actions);
      && Underway(s, s', id) && s'.now == t && s'.cache == s.cache
      && Tracks(c, s', x, log + [Call(k, if CountsAsFailure(r.kind, h) then Failed(t) else Succeeded(t))])
      && var r' := s'.requests[id];
         && (CountsAsFailure(r.kind, h) ==> r'.pc == Choosing)
         && (IsRejection(h) ==> r'.pc == Unwinding(Rejected(h)))
         && (IsAcceptance(r.kind, h) ==> r'.pc == if r.kind.ChatStream? then Streaming else ReadingBody)
         && r'.provider == r.provider && r'.deadline == r.deadline
         && r'.candidates == r.candidates && r'.attempts == r.attempts + [Answered(h)]
  {
    hide MoveOn, Run, Tracks, CountsAsFailure, IsRejection, IsAcceptance;
    TimeLeft(s, id, t, t);
    actions := MoveAt(s, id, Head(h), t);
    MovesAt(c, s, id, Head(h), t);
    Moves.Calls(c, s.(now := t), id, Head(h));
    Moves.HeadShape(c, s.(now := t), id, h);
    Moves.Frame(c, s.(now := t), id, Head(h));
    FreeMoveAt(c, s, id, Head(h), t);
    SameTracks(c, s, s.(now := t), x, log);
    var e := if CountsAsFailure(s.requests[id].kind, h) then Failed(t) else Succeeded(t);
    CallTracks(c, s.(now := t), Run(c, s, actions), x, log, k, e);
  }

  // The body is lost.
  lemma Loses(c: Config, s: System, id: nat, x: Script, k: nat, log: seq<Call>, before: seq<Attempt>, h: Header,
      t: real)
    returns (actions: seq<Action>)
    requires Sound(c, x) && Tracks(c, s, x, log) && id < |s.requests| && s.requests[id].pc.ReadingBody?
    requires s.requests[id].attempts == before + [Answered(h)]
    requires k < |x.picks| && s.requests[id].provider == x.names[x.picks[k]]
    requires s.now <= t <= s.requests[id].deadline && OthersWait(s, id, t)
    ensures RunsAlone(actions, id)
    ensures
      var r, s' := s.requests[id], Run(c, s, actions);
      && Underway(s, s', id) && s'.now == t && s'.cache == s.cache
      && Tracks(c, s', x, log + [Call(k, Failed(t))])
      && var r' := s'.requests[id];
         && r'.pc == (if r.kind.Embeddings? then Unwinding(BodyLost) else Choosing)
         && r'.candidates == r.candidates && r'.attempts == before + [BodyBroken(h)]
  {
    hide MoveOn, Run, Tracks;
    var m := Read(None, None);
    TimeLeft(s, id, t, t);
    actions := MoveAt(s, id, m, t);
    MovesAt(c, s, id, m, t);
    Moves.Calls(c, s.(now := t), id, m);
    Moves.ReadShape(c, s.(now := t), id, None, None);
    ReadIdle(c, s.(now := t), id, None, None);
    FreeMoveAt(c, s, id, m, t);
    SameTracks(c, s, s.(now := t), x, log);
    CallTracks(c, s.(now := t), Run(c, s, actions), x, log, k, Failed(t));
  }

  // The body is read.
  lemma Reads(c: Config, s: System, id: nat, x: Script, log: seq<Call>, text: Body, usage: Option<nat>, t: real)
    returns (actions: seq<Action>)
    requires Sound(c, x) && Tracks(c, s, x, log) && id < |s.requests| && s.requests[id].pc.ReadingBody?
    requires s.requests[id].attempts != [] && s.now <= t <= s.requests[id].deadline && OthersWait(s, id, t)
    ensures RunsAlone(actions, id)
    ensures
      var r, s' := s.requests[id], Run(c, s, actions);
      && Underway(s, s', id) && s'.now == t
      && s'.cache == (if KeyOf(r).Some? then s.cache[KeyOf(r).value := text] else s.cache)
      && Tracks(c, s', x, log)
      && var r' := s'.requests[id];
         && r'.pc == Settling(usage, Served(text))
         && r'.candidates == r.candidates && r'.attempts == r.attempts
  {
    hide MoveOn, Run, Tracks, KeyOf;
    var m := Read(Some(text), usage);
    TimeLeft(s, id, t, t);
    actions := MoveAt(s, id, m, t);
    MovesAt(c, s, id, m, t);
    Moves.Calls(c, s.(now := t), id, m);
    Moves.ReadShape(c, s.(now := t), id, Some(text), usage);
    BodyRead(c, s.(now := t), id, text, usage);
    FreeMoveAt(c, s, id, m, t);
    SameTracks(c, s, s.(now := t), x, log);
    SameTracks(c, s.(now := t), Run(c, s, actions), x, log);
  }

  // One turn, whatever happens.
  lemma TakesTurn(c: Config, s: System, id: nat, x: Script) returns (actions: seq<Action>)
    requires Midway(c, s, id, x) && |s.requests[id].attempts| < |x.picks|
    requires CallsBy(c, x, |s.requests[id].attempts|, s.now)
    ensures RunsAlone(actions, id) && Turned(c, s, Run(c, s, actions), id, x)
    ensures Run(c, s, actions).now <= x.times.calls(BodyAt(|s.requests[id].attempts|))
  {
    hide AllowRequest, Run, Tracks, Turned, CountsAsFailure, IsRejection, IsAcceptance, FirstDecisive, Calls, RunsAlone;
    var r := s.requests[id];
    if AllowRequest(c.breaker, ProviderOf(s, Moves.Next(r)).breaker, x.times.calls(AskedAt(|r.attempts|))).1 {
      actions := SentTurn(c, s, id, x);
    } else {
      actions := DeniedTurn(c, s, id, x);
    }
  }

  lemma SentTurn(c: Config, s: System, id: nat, x: Script) returns (actions: seq<Action>)
    requires Midway(c, s, id, x) && |s.requests[id].attempts| < |x.picks|
    requires CallsBy(c, x, |s.requests[id].attempts|, s.now)
    requires
      var r := s.requests[id];
      AllowRequest(c.breaker, ProviderOf(s, Moves.Next(r)).breaker, x.times.calls(AskedAt(|r.attempts|))).1
    ensures RunsAlone(actions, id) && Turned(c, s, Run(c, s, actions), id, x)
    ensures Run(c, s, actions).now <= x.times.calls(BodyAt(|s.requests[id].attempts|))
  {
    hide AllowRequest, Run, Tracks, FirstDecisive, Calls, RunsAlone, KeyOf, AskedRightly, Matches;
    hide CountsAsFailure, IsRejection, IsAcceptance;
    hide Seen, Replay;
    var r := s.requests[id];
    var k := |r.attempts|;
    var reply := Replies(x)[k];
    var h, clock := reply.header, x.times.calls;
    var sending := Sends(c, s, id, x);
    var s1 := Run(c, s, sending);
    var log := Calls(r.kind, r.attempts, clock);
    var log1 := log + [Call(k, Asked(clock(AskedAt(k))))];
    WaitLess(s, s1, id, x.times.leave, clock(HeaderAt(k)));
    var heading := Heads(c, s1, id, x, k, log1, h, clock(HeaderAt(k)));
    Joined(c, s, sending, heading, id);
    actions := sending + heading;
    var s2 := Run(c, s, actions);
    var t1 := clock(HeaderAt(k));
    WaitLess(s, s2, id, x.times.leave, clock(BodyAt(k)));
    var log2 := log1 + [Call(k, if CountsAsFailure(r.kind, h) then Failed(t1) else Succeeded(t1))];
    assert log2 == log + CallsAt(r.kind, Answered(h), k, clock);
    assert Matches(r.kind, Met(r.kind, reply), reply) by { MetMatches(r.kind, reply); }
    VerdictByStatus(r.kind, h);
    if IsAcceptance(r.kind, h) && !r.kind.ChatStream? {
      var reading;
      match reply.body {
        case None =>
          reading := Loses(c, s2, id, x, k, log2, r.attempts, h, clock(BodyAt(k)));
          assert log2 + [Call(k, Failed(clock(BodyAt(k))))] == log + CallsAt(r.kind, BodyBroken(h), k, clock);
        case Some(text) =>
          reading := Reads(c, s2, id, x, log2, text, x.usageOf(text), clock(BodyAt(k)));
          SameKey(r, s2.requests[id]);
      }
      Joined(c, s, actions, reading, id);
      actions := actions + reading;
    }
    TurnAgrees(c, s, Run(c, s, actions), id, x, Met(r.kind, reply));
  }

  lemma WaitLess(s: System, s': System, id: nat, limit: real, t: real)
    requires Underway(s, s', id) && OthersWait(s, id, limit) && t <= limit
    ensures OthersWait(s', id, t)
  {
  }

  lemma MetMatches(kind: Kind, reply: Reply)
    ensures Matches(kind, Met(kind, reply), reply)
  {
  }

  // ---- The whole loop ---------------------------------------------------------------------

  predicate LoopTimes(c: Config, x: Script, k: nat, now: real)
    requires IsSublist(x.picks, |x.names|)
  {
    && (forall j :: k <= j < |x.picks| ==> InTime(c, x, j))
    && now <= x.times.leave
    && (forall i :: 3 * k <= i < 3 * |x.picks| ==> now <= x.times.calls(i) <= x.times.leave)
    && (forall i, j :: 3 * k <= i < j < 3 * |x.picks| ==> x.times.calls(i) <= x.times.calls(j))
  }

  lemma NextTimes(c: Config, x: Script, k: nat, now: real, later: real)
    requires IsSublist(x.picks, |x.names|)
    requires LoopTimes(c, x, k, now) && k < |x.picks| && later <= x.times.calls(BodyAt(k))
    ensures CallsBy(c, x, k, now) && LoopTimes(c, x, k + 1, later)
  {
    assert AskedAt(k) == 3 * k && HeaderAt(k) == 3 * k + 1 && BodyAt(k) == 3 * k + 2;
    assert x.times.calls(3 * k + 2) <= x.times.leave;
    forall i | 3 * (k + 1) <= i < 3 * |x.picks|
      ensures later <= x.times.calls(i)
    {
      assert x.times.calls(3 * k + 2) <= x.times.calls(i);
    }
  }

  // The outcome a handler has come to; a stream that has begun is one.
  function OutcomeNow(pc: Pc): Option<Outcome> {
    if pc.Streaming? then Some(StreamOpened) else OutcomeOf(pc)
  }

  ghost predicate LoopDone(c: Config, s: System, s': System, id: nat, x: Script)
    requires Sound(c, x)
  {
    && Underway(s, s', id) && s'.now <= x.times.leave
    && var r, r' := s.requests[id], s'.requests[id];
       && r'.candidates == r.candidates && Agrees(c, s', x, r')
       && OutcomeNow(r'.pc).Some? && !r'.pc.Finished?
       && var out := OutcomeNow(r'.pc).value;
          && Follows(r.kind, r.candidates, r'.attempts, out) && EndsLoop(r'.attempts, Replies(x), out)
          && (out.Served? ==> r'.pc == Settling(x.usageOf(out.body), out))
          && (!out.Served? ==> !r'.pc.Settling?) && (out.StreamOpened? ==> r'.pc.Streaming?)
          && s'.cache == (if out.Served? && KeyOf(r).Some? then s.cache[KeyOf(r).value := out.body] else s.cache)
  }

  // Nobody is left to try.
  lemma LastTurn(c: Config, s: System, id: nat, x: Script) returns (actions: seq<Action>)
    requires Midway(c, s, id, x) && |s.requests[id].attempts| == |x.picks| > 0 && s.now <= x.times.leave
    ensures RunsAlone(actions, id) && LoopDone(c, s, Run(c, s, actions), id, x)
  {
    hide MoveOn, Run, Tracks, FirstDecisive, Calls, LastContacted, AskedRightly, Matches, KeyOf;
    var r := s.requests[id];
    actions := MoveAt(s, id, Try, s.now);
    MovesAt(c, s, id, Try, s.now);
    Moves.TryShape(c, s, id);
    Moves.Calls(c, s, id, Try);
    FreeMoveAt(c, s, id, Try, s.now);
    assert s.(now := s.now) == s;
    SameTracks(c, s, Run(c, s, actions), x, Calls(r.kind, r.attempts, x.times.calls));
  }

  // A turn that is decisive ends the loop, any other leads to the next.
  lemma AfterOneTurn(c: Config, s: System, s1: System, id: nat, x: Script)
    requires Midway(c, s, id, x) && |s.requests[id].attempts| < |x.picks| && Turned(c, s, s1, id, x)
    requires s1.now <= x.times.leave
    ensures s1.requests[id].pc.Choosing? ==> Midway(c, s1, id, x) && s1.cache == s.cache
    ensures !s1.requests[id].pc.Choosing? ==> LoopDone(c, s, s1, id, x)
  {
    hide Tracks, FirstDecisive, Calls, AskedRightly, CountsAsFailure, IsRejection, IsAcceptance, KeyOf, OthersWait;
    StillWait(s, s1, id, x.times.leave);
    var r := s.requests[id];
    var a := s1.requests[id].attempts[|r.attempts|];
    DecisiveSnoc(r.kind, r.attempts, a);
    VerdictByStatus(r.kind, Replies(x)[|r.attempts|].header);
    assert Matches(r.kind, a, Replies(x)[|r.attempts|]);
  }

  lemma {:induction false} Loops(c: Config, s: System, id: nat, x: Script) returns (actions: seq<Action>)
    requires Midway(c, s, id, x) && x.picks != []
    requires LoopTimes(c, x, |s.requests[id].attempts|, s.now)
    ensures RunsAlone(actions, id) && LoopDone(c, s, Run(c, s, actions), id, x)
    decreases |x.picks| - |s.requests[id].attempts|
  {
    hide Midway, LoopTimes, RunsAlone, Turned, LoopDone, Run;
    AtMostAll(c, s, id, x);
    var k := |s.requests[id].attempts|;
    if k == |x.picks| {
      assert s.now <= x.times.leave by { EndsBy(c, x, k, s.now); }
      actions := LastTurn(c, s, id, x);
    } else {
      NextTimes(c, x, k, s.now, x.times.calls(BodyAt(k)));
      actions := TakesTurn(c, s, id, x);
      var s1 := Run(c, s, actions);
      NextTimes(c, x, k, s.now, s1.now);
      EndsBy(c, x, k + 1, s1.now);
      AfterOneTurn(c, s, s1, id, x);
      OneMore(c, s, s1, id, x);
      if s1.requests[id].pc.Choosing? {
        var rest := Loops(c, s1, id, x);
        Joined(c, s, actions, rest, id);
        Onward(c, s, s1, Run(c, s1, rest), id, x);
        actions := actions + rest;
      }
    }
  }

  lemma AtMostAll(c: Config, s: System, id: nat, x: Script)
    requires Midway(c, s, id, x)
    ensures Sound(c, x) && id < |s.requests| && |s.requests[id].attempts| <= |x.picks|
  {
  }

  lemma EndsBy(c: Config, x: Script, k: nat, now: real)
    requires IsSublist(x.picks, |x.names|) && LoopTimes(c, x, k, now)
    ensures now <= x.times.leave
  {
  }

  lemma OneMore(c: Config, s: System, s1: System, id: nat, x: Script)
    requires Midway(c, s, id, x) && Turned(c, s, s1, id, x)
    ensures id < |s1.requests| && |s1.requests[id].attempts| == |s.requests[id].attempts| + 1
  {
  }

  lemma Onward(c: Config, s: System, s1: System, s2: System, id: nat, x: Script)
    requires Midway(c, s, id, x) && Turned(c, s, s1, id, x) && s1.cache == s.cache
    requires Sound(c, x) && LoopDone(c, s1, s2, id, x)
    ensures LoopDone(c, s, s2, id, x)
  {
    hide Follows, EndsLoop, Agrees, KeyOf;
    SameKey(s.requests[id], s1.requests[id]);
  }

  // ---- Leaving ----------------------------------------------------------------------------

  function TpmOf(c: Config, s: System, id: nat): Buckets.Bucket
    requires id < |s.requests|
  {
    AccountOf(c, s, s.requests[id].client).tpm
  }

  // The handler is done, and its reservation settled with the usage it knows of.
  predicate Gone(c: Config, s: System, s': System, id: nat, usage: Option<nat>, out: Outcome, t: real)
    requires id < |s.requests| && s.requests[id].hold.Held?
  {
    && |s'.requests| == |s.requests| && s'.providers == s.providers && s'.cache == s.cache
    && s'.requests[id].pc == Finished(out) && s'.requests[id].attempts == s.requests[id].attempts
    && TpmOf(c, s', id) == BucketAfter(Tpm(c), TpmOf(c, s, id), s.requests[id].hold.amount, usage, t)
  }

  lemma Unwinds(c: Config, s: System, id: nat, t: real) returns (actions: seq<Action>)
    requires id < |s.requests| && s.requests[id].pc.Unwinding? && s.requests[id].hold.Held? && s.now <= t
    requires s.requests[id].client in s.accounts && OthersWait(s, id, t)
    ensures RunsAlone(actions, id) && Gone(c, s, Run(c, s, actions), id, None, s.requests[id].pc.out, t)
  {
    hide Run, Buckets.Refund;
    TimeLeft(s, id, t, t);
    actions := MoveAt(s, id, Unwind, t);
    MovesAt(c, s, id, Unwind, t);
  }

  lemma Settles(c: Config, s: System, id: nat, t: real) returns (actions: seq<Action>)
    requires id < |s.requests| && s.requests[id].pc.Settling? && s.requests[id].hold.Held? && s.now <= t
    requires s.requests[id].client in s.accounts && OthersWait(s, id, t)
    ensures RunsAlone(actions, id)
    ensures Gone(c, s, Run(c, s, actions), id, s.requests[id].pc.usage, s.requests[id].pc.out, t)
  {
    hide Run, Buckets.Refund, Buckets.Reconcile;
    TimeLeft(s, id, t, t);
    actions := MoveAt(s, id, Settle, t);
    MovesAt(c, s, id, Settle, t);
    var s1 := Run(c, s, actions);
    var unwinding := MoveAt(s1, id, Unwind, t);
    MovesAt(c, s1, id, Unwind, t);
    Joined(c, s, actions, unwinding, id);
    actions := actions + unwinding;
  }

  // ---- The whole call ---------------------------------------------------------------------

  predicate InOrder(c: Config, times: Times, now: real) {
    var n := |Providers(c)|;
    && now <= times.reserve <= times.lookup <= times.leave
    && (forall i :: 0 <= i < n ==> times.lookup <= times.eligible(i) <= times.leave)
    && (forall i, j :: 0 <= i < j < n ==> times.eligible(i) <= times.eligible(j))
    && (forall i, j :: 0 <= i < n && 0 <= j < 3 * n ==> times.eligible(i) <= times.calls(j) <= times.leave)
    && (forall j :: 0 <= j < 3 * n ==> times.lookup <= times.calls(j))
    && (forall i, j :: 0 <= i < j < 3 * n ==> times.calls(i) <= times.calls(j))
  }

  // No call takes longer than the request timeout of its provider, and the others leave
  // time until the end.
  predicate NoTimeout(c: Config, s: System, id: nat, times: Times) {
    && OthersWait(s, id, times.leave)
    && var picks := PicksFrom(c, s, times.eligible, 0);
       forall k :: 0 <= k < |picks| && picks[k] < |Providers(c)| ==>
         times.calls(BodyAt(k)) <= times.calls(AskedAt(k)) + Timeout(c, Providers(c)[picks[k]]) as real
  }

  // The request has just arrived at its handler.
  predicate JustIn(s: System, id: nat) {
    && id < |s.requests|
    && var r := s.requests[id];
       && r.pc.Entered? && r.hold.NotReserved? && r.looks == [] && r.candidates == [] && r.attempts == []
       && r.client in s.accounts
  }

  // The objects are in the state of the system.
  ghost predicate Mirrors(c: Config, s: System, id: nat, breakers: seq<CircuitBreaker>, shared: Shared) {
    && id < |s.requests| && |breakers| == |Providers(c)|
    && (forall i, j :: 0 <= i < |breakers| && 0 <= j < |breakers| ==>
          (breakers[i] == breakers[j] <==> Providers(c)[i] == Providers(c)[j]))
    && (forall i :: 0 <= i < |breakers| ==> breakers[i].config == c.breaker)
    && SameState(c, s, id, breakers, shared)
  }

  ghost predicate SameState(c: Config, s: System, id: nat, breakers: seq<CircuitBreaker>, shared: Shared)
    requires id < |s.requests| && |breakers| == |Providers(c)|
  {
    && (forall i :: 0 <= i < |breakers| ==>
          breakers[i] in shared.breakers && shared.breakers[breakers[i]] == ProviderOf(s, Providers(c)[i]).breaker)
    && shared.bucket == TpmOf(c, s, id) && shared.entries == s.cache
  }

  function TaskOf(r: Request): Task {
    Task(r.kind, r.prompt, r.estimate)
  }

  // The run from s has come to the end of the call in s', with these results.
  ghost predicate EndsAs(c: Config, s: System, s': System, id: nat, breakers: seq<CircuitBreaker>, replies: seq<Reply>,
      usageOf: Body -> Option<nat>, times: Times, before: Shared, after: Shared, picks: seq<nat>)
    requires Mirrors(c, s, id, breakers, before) && |replies| == |breakers|
  {
    && |s'.requests| == |s.requests| && SameState(c, s', id, breakers, after)
    && var pc' := s'.requests[id].pc;
       && (pc'.Finished? || pc'.Streaming?)
       && Handled(TaskOf(s.requests[id]), Tpm(c), Providers(c), breakers, replies, usageOf, times, before, after, picks,
                  s'.requests[id].attempts, OutcomeNow(pc').value)
  }

  // Held or refused.
  lemma Reserves(c: Config, s: System, id: nat, t: real) returns (actions: seq<Action>)
    requires JustIn(s, id) && s.now <= t && OthersWait(s, id, t)
    ensures RunsAlone(actions, id)
    ensures
      var r, s' := s.requests[id], Run(c, s, actions);
      var (held, answer) := Buckets.TryConsume(Tpm(c), TpmOf(c, s, id), r.estimate, t);
      && TouchesOnly(s.(now := t), s', id) && s'.providers == s.providers && s'.cache == s.cache
      && TpmOf(c, s', id) == held
      && r.client in s'.accounts
      && s'.requests[id] == (if answer.Granted? then r.(pc := Reserved, hold := Held(r.estimate))
                             else r.(pc := Finished(RateLimited(answer.retryAfter))))
  {
    hide Run, Buckets.TryConsume;
    TimeLeft(s, id, t, t);
    actions := MoveAt(s, id, Reserve, t);
    MovesAt(c, s, id, Reserve, t);
  }

  lemma LooksUp(c: Config, s: System, id: nat, t: real) returns (actions: seq<Action>)
    requires id < |s.requests| && s.requests[id].pc.Reserved? && s.now <= t && OthersWait(s, id, t)
    ensures RunsAlone(actions, id)
    ensures
      var r, s' := s.requests[id], Run(c, s, actions);
      var key := CacheKey(r.kind, r.prompt);
      && TouchesOnly(s.(now := t), s', id) && s'.providers == s.providers && s'.cache == s.cache
      && s'.accounts == s.accounts
      && s'.requests[id] == r.(pc := if key.Some? && key.value in s.cache
                                     then Settling(Some(0), CacheHit(s.cache[key.value])) else Selecting)
  {
    hide Run, CacheKey;
    TimeLeft(s, id, t, t);
    actions := MoveAt(s, id, Lookup, t);
    MovesAt(c, s, id, Lookup, t);
  }

  // From the list to the outcome.
  lemma Contacts(c: Config, s: System, id: nat, x: Script) returns (actions: seq<Action>)
    requires Sound(c, x) && id < |s.requests| && Tracks(c, s, x, []) && LoopTimes(c, x, 0, s.now)
    requires s.requests[id].candidates == Picked(x.names, x.picks) && s.requests[id].attempts == []
    requires OthersWait(s, id, x.times.leave)
    requires s.requests[id].pc == if x.picks == [] then Unwinding(NoProviders) else Choosing
    ensures RunsAlone(actions, id) && LoopDone(c, s, Run(c, s, actions), id, x)
  {
    assert FirstDecisive(s.requests[id].kind, []) == None;
    assert Calls(s.requests[id].kind, [], x.times.calls) == [];
    hide Tracks, AskedRightly, Matches, FirstDecisive, Calls, LoopTimes, KeyOf;
    if x.picks == [] {
      actions := [];
      assert s.now <= x.times.leave by { EndsBy(c, x, 0, s.now); }
    } else {
      actions := Loops(c, s, id, x);
    }
  }

  // The handler has left, except that a stream goes on.
  predicate Left(c: Config, s: System, s': System, id: nat, t: real)
    requires id < |s.requests|
  {
    && |s'.requests| == |s.requests| && s'.providers == s.providers && s'.cache == s.cache
    && var r, r' := s.requests[id], s'.requests[id];
       && r'.attempts == r.attempts && OutcomeNow(r'.pc) == OutcomeNow(r.pc)
       && (r'.pc.Finished? || r'.pc.Streaming?)
       && r.hold.Held?
       && TpmOf(c, s', id) ==
          (if r.pc.Streaming? then TpmOf(c, s, id)
           else BucketAfter(Tpm(c), TpmOf(c, s, id), r.hold.amount, if r.pc.Settling? then r.pc.usage else None, t))
  }

  // From the outcome to the end.
  lemma Leaves(c: Config, s: System, id: nat, t: real) returns (actions: seq<Action>)
    requires id < |s.requests| && s.requests[id].hold.Held? && s.requests[id].client in s.accounts && s.now <= t
    requires OutcomeNow(s.requests[id].pc).Some? && !s.requests[id].pc.Finished? && OthersWait(s, id, t)
    ensures RunsAlone(actions, id) && Left(c, s, Run(c, s, actions), id, t)
  {
    hide BucketAfter, AccountOf;
    if s.requests[id].pc.Streaming? {
      actions := [];
    } else if s.requests[id].pc.Unwinding? {
      actions := Unwinds(c, s, id, t);
    } else {
      actions := Settles(c, s, id, t);
    }
  }

  lemma {:induction false} SublistShort(picks: seq<nat>, n: nat)
    requires IsSublist(picks, n)
    ensures |picks| <= n
  {
    if picks != [] {
      SublistShort(picks[..|picks| - 1], picks[|picks| - 1]);
    }
  }

  function LimitOf(c: Config, times: Times): real {
    if |Providers(c)| > 0 then times.calls(0) else times.leave
  }

  lemma TimesFit(c: Config, times: Times, now: real, x: Script, then': real)
    requires InOrder(c, times, now) && x.times == times && x.names == Providers(c)
    requires IsSublist(x.picks, |Providers(c)|) && forall k :: 0 <= k < |x.picks| ==> InTime(c, x, k)
    ensures SelectsBy(c, times.eligible, 0, times.lookup, LimitOf(c, times)) && LimitOf(c, times) <= times.leave
    ensures then' <= LimitOf(c, times) ==> LoopTimes(c, x, 0, then')
  {
    hide Providers;
    SublistShort(x.picks, |Providers(c)|);
    if |Providers(c)| > 0 {
      assert times.eligible(0) <= times.calls(0) <= times.leave;
      forall i | 0 <= i < 3 * |x.picks|
        ensures times.calls(0) <= times.calls(i) <= times.leave
      {
        assert times.eligible(0) <= times.calls(i) <= times.leave;
      }
    }
  }

  // The states the objects end in.
  ghost function Ended(x: Script, kind: Kind, attempts: seq<Attempt>): map<CircuitBreaker, Breaker>
    requires |x.names| == |x.breakers| && IsSublist(x.picks, |x.names|)
    requires forall b :: b in x.breakers ==> b in x.start
  {
    map b | b in x.breakers :: Replay(b.config, x.start[b], Seen(b, Objects(x), Calls(kind, attempts, x.times.calls)))
  }

  lemma ContactedBy(c: Config, s: System, s': System, id: nat, x: Script)
    requires Sound(c, x) && id < |s.requests| && s.requests[id].candidates == Picked(x.names, x.picks)
    requires LoopDone(c, s, s', id, x)
    requires forall i :: 0 <= i < |x.names| ==>
               (i in x.picks <==> IsEligible(c.breaker, x.start[x.breakers[i]], x.times.eligible(i)))
    ensures
      var r' := s'.requests[id];
      && (forall b :: b in x.breakers ==> b in x.start)
      && Contacted(s.requests[id].kind, x.names, x.breakers, x.replies, x.times, x.start,
                   Ended(x, s.requests[id].kind, r'.attempts), x.picks, r'.attempts, OutcomeNow(r'.pc).value)
  {
    hide Follows, EndsLoop, Matches, AskedRightly, Tracks, IsEligible, Replay, Seen, Calls;
    var kind, r' := s.requests[id].kind, s'.requests[id];
    var out := OutcomeNow(r'.pc).value;
    assert IsResult(kind, Picked(x.names, x.picks), Objects(x), x.start, Replies(x), x.times.calls, r'.attempts, out);
    assert forall i :: 0 <= i < |x.breakers| ==> x.breakers[i].config == c.breaker;
  }

  lemma EndedIs(c: Config, s': System, x: Script, kind: Kind, attempts: seq<Attempt>)
    requires Sound(c, x) && Tracks(c, s', x, Calls(kind, attempts, x.times.calls))
    requires forall b :: b in x.breakers ==> b in x.start
    ensures forall i :: 0 <= i < |x.breakers| ==>
              && x.breakers[i] in Ended(x, kind, attempts)
              && Ended(x, kind, attempts)[x.breakers[i]] == ProviderOf(s', x.names[i]).breaker
  {
    hide Replay, Seen, Calls;
  }

  // A request that has just missed the cache.
  predicate Missed(c: Config, s: System, id: nat) {
    && id < |s.requests|
    && var r := s.requests[id];
       && r.pc.Selecting? && r.looks == [] && r.candidates == [] && r.attempts == []
       && r.hold == Held(r.estimate) && r.client in s.accounts
  }

  ghost predicate Scripted(c: Config, s: System, x: Script) {
    && Sound(c, x) && InOrder(c, x.times, x.times.reserve) && s.now == x.times.lookup
    && x.names == Providers(c) && x.picks == PicksFrom(c, s, x.times.eligible, 0)
    && (forall i :: 0 <= i < |x.names| ==> x.start[x.breakers[i]] == ProviderOf(s, x.names[i]).breaker)
    && forall k :: 0 <= k < |x.picks| ==> InTime(c, x, k)
  }

  // What the rest of the call does.
  ghost predicate MissDone(c: Config, s: System, s': System, id: nat, x: Script)
    requires Missed(c, s, id) && Sound(c, x) && forall b :: b in x.breakers ==> b in x.start
  {
    && |s'.requests| == |s.requests|
    && var r, r' := s.requests[id], s'.requests[id];
       && (r'.pc.Finished? || r'.pc.Streaming?)
       && var out, end := OutcomeNow(r'.pc).value, Ended(x, r.kind, r'.attempts);
          && Contacted(r.kind, x.names, x.breakers, x.replies, x.times, x.start, end, x.picks, r'.attempts, out)
          && (forall i :: 0 <= i < |x.breakers| ==>
                x.breakers[i] in end && end[x.breakers[i]] == ProviderOf(s', x.names[i]).breaker)
          && s'.cache == (if out.Served? && KeyOf(r).Some? then s.cache[KeyOf(r).value := out.body] else s.cache)
          && TpmOf(c, s', id) ==
             (if out.StreamOpened? then TpmOf(c, s, id)
              else BucketAfter(Tpm(c), TpmOf(c, s, id), r.estimate,
                               if out.Served? then x.usageOf(out.body) else None, x.times.leave))
  }

  lemma SoundStart(c: Config, x: Script)
    requires Sound(c, x)
    ensures forall b :: b in x.breakers ==> b in x.start
  {
  }

  // From the lookup to the outcome.
  lemma ToOutcome(c: Config, s: System, id: nat, x: Script) returns (s1: System, actions: seq<Action>)
    requires Missed(c, s, id) && Scripted(c, s, x) && OthersWait(s, id, x.times.leave)
    ensures RunsAlone(actions, id)
    ensures Underway(s, s1, id) && s1.cache == s.cache && s1.requests[id].candidates == Picked(x.names, x.picks)
    ensures LoopDone(c, s1, Run(c, s, actions), id, x)
  {
    PicksAreEligible(c, s, x.times.eligible, 0);
    TimesFit(c, x.times, x.times.reserve, x, s.now);
    assert Tracks(c, s, x, []) by { NothingSeen(c, s, x); }
    hide Providers, Run, NamesFrom, PicksFrom, Tracks, LoopDone, LoopTimes, IsEligible, Calls, Seen, Replay;
    hide InOrder, SelectsBy, RunsAlone, AccountOf, LimitOf, IsSublist;
    assert OthersWait(s, id, LimitOf(c, x.times));
    actions := Selects(c, s, id, x.times.eligible, LimitOf(c, x.times));
    s1 := Run(c, s, actions);
    StillWait(s, s1, id, x.times.leave);
    Selected(c, s, s1, id, x);
    var contacting := Contacts(c, s1, id, x);
    Joined(c, s, actions, contacting, id);
    actions := actions + contacting;
  }

  // And to the end.
  lemma Misses(c: Config, s: System, id: nat, x: Script) returns (actions: seq<Action>)
    requires Missed(c, s, id) && Scripted(c, s, x) && OthersWait(s, id, x.times.leave)
    ensures RunsAlone(actions, id) && forall b :: b in x.breakers ==> b in x.start
    ensures MissDone(c, s, Run(c, s, actions), id, x)
  {
    SoundStart(c, x);
    var s1, going := ToOutcome(c, s, id, x);
    var s2 := Run(c, s, going);
    assert Reached(c, s, s2, id, x) by { Reaches(c, s, s1, s2, id, x); }
    hide Run, LoopDone, Scripted, Contacted, Ended, Left, MissDone, AccountOf, KeyOf, BucketAfter, RunsAlone;
    assert OthersWait(s2, id, x.times.leave) by { WaitOn(c, s, s1, s2, id, x); }
    var leaving := Leaves(c, s2, id, x.times.leave);
    Joined(c, s, going, leaving, id);
    actions := going + leaving;
    Done(c, s, s2, Run(c, s2, leaving), id, x);
  }

  // At the outcome: everything but settling is done.
  ghost predicate Reached(c: Config, s: System, s2: System, id: nat, x: Script)
    requires Missed(c, s, id) && Sound(c, x) && forall b :: b in x.breakers ==> b in x.start
  {
    && |s2.requests| == |s.requests| && s2.now <= x.times.leave
    && var r, r2 := s.requests[id], s2.requests[id];
       && r2.kind == r.kind && r2.hold == r.hold && r2.client in s2.accounts && TpmOf(c, s2, id) == TpmOf(c, s, id)
       && OutcomeNow(r2.pc).Some? && !r2.pc.Finished?
       && var out, end := OutcomeNow(r2.pc).value, Ended(x, r.kind, r2.attempts);
          && (r2.pc.Streaming? <==> out.StreamOpened?)
          && (if r2.pc.Settling? then r2.pc.usage else None) == (if out.Served? then x.usageOf(out.body) else None)
          && s2.cache == (if out.Served? && KeyOf(r).Some? then s.cache[KeyOf(r).value := out.body] else s.cache)
          && Contacted(r.kind, x.names, x.breakers, x.replies, x.times, x.start, end, x.picks, r2.attempts, out)
          && (forall i :: 0 <= i < |x.breakers| ==>
                x.breakers[i] in end && end[x.breakers[i]] == ProviderOf(s2, x.names[i]).breaker)
  }

  lemma WaitOn(c: Config, s: System, s1: System, s2: System, id: nat, x: Script)
    requires Sound(c, x) && OthersWait(s, id, x.times.leave) && Underway(s, s1, id) && LoopDone(c, s1, s2, id, x)
    ensures OthersWait(s2, id, x.times.leave)
  {
    hide Agrees, Follows, EndsLoop, KeyOf;
    StillWait(s, s1, id, x.times.leave);
    StillWait(s1, s2, id, x.times.leave);
  }

  lemma Reaches(c: Config, s: System, s1: System, s2: System, id: nat, x: Script)
    requires Missed(c, s, id) && Scripted(c, s, x) && forall b :: b in x.breakers ==> b in x.start
    requires Underway(s, s1, id) && s1.cache == s.cache && s1.requests[id].candidates == Picked(x.names, x.picks)
    requires LoopDone(c, s1, s2, id, x)
    ensures Reached(c, s, s2, id, x)
  {
    Settleable(c, s, s1, s2, id, x);
    MissedEligible(c, s, x);
    hide Scripted, Contacted, Ended, Tracks, LoopDone, AccountOf, KeyOf;
    ContactedBy(c, s1, s2, id, x);
    EndedIs(c, s2, x, s.requests[id].kind, s2.requests[id].attempts);
  }

  lemma Done(c: Config, s: System, s2: System, s3: System, id: nat, x: Script)
    requires Missed(c, s, id) && Sound(c, x) && forall b :: b in x.breakers ==> b in x.start
    requires Reached(c, s, s2, id, x) && Left(c, s2, s3, id, x.times.leave)
    ensures MissDone(c, s, s3, id, x)
  {
    hide Contacted, Ended, AccountOf, KeyOf, BucketAfter;
    assert forall n :: ProviderOf(s3, n) == ProviderOf(s2, n);
  }

  lemma MissedEligible(c: Config, s: System, x: Script)
    requires Scripted(c, s, x)
    ensures forall i :: 0 <= i < |x.names| ==>
              (i in x.picks <==> IsEligible(c.breaker, x.start[x.breakers[i]], x.times.eligible(i)))
  {
    hide IsEligible, Providers, PicksFrom, InOrder;
    PicksAreEligible(c, s, x.times.eligible, 0);
    assert forall i :: 0 <= i < |x.names| ==>
      (EligibleAt(c, s, x.times.eligible, i) <==> IsEligible(c.breaker, x.start[x.breakers[i]], x.times.eligible(i)));
  }

  // The list is the one of the script, and the loop can begin.
  lemma Selected(c: Config, s: System, s1: System, id: nat, x: Script)
    requires id < |s.requests| && s.requests[id].candidates == [] && s.requests[id].attempts == []
    requires Underway(s, s1, id) && s1.providers == s.providers && s1.now <= LimitOf(c, x.times)
    requires s1.requests[id].candidates == s.requests[id].candidates + NamesFrom(c, s, x.times.eligible, 0)
    requires s1.requests[id].attempts == s.requests[id].attempts
    requires Sound(c, x) && x.names == Providers(c) && x.picks == PicksFrom(c, s, x.times.eligible, 0)
    requires Tracks(c, s, x, []) && InOrder(c, x.times, x.times.reserve)
    requires forall k :: 0 <= k < |x.picks| ==> InTime(c, x, k)
    ensures id < |s1.requests| && s1.requests[id].candidates == Picked(x.names, x.picks)
    ensures s1.requests[id].attempts == [] && (s1.requests[id].candidates == [] <==> x.picks == [])
    ensures Tracks(c, s1, x, []) && LoopTimes(c, x, 0, s1.now)
  {
    hide PicksFrom, Tracks, InOrder, LoopTimes, LimitOf, Providers;
    SameTracks(c, s, s1, x, []);
    TimesFit(c, x.times, x.times.reserve, x, s1.now);
  }

  lemma Settleable(c: Config, s: System, s1: System, s2: System, id: nat, x: Script)
    requires Sound(c, x) && Underway(s, s1, id) && LoopDone(c, s1, s2, id, x) && s1.cache == s.cache
    requires s.requests[id].hold.Held? && s.requests[id].client in s.accounts
    ensures
      var r, r2 := s.requests[id], s2.requests[id];
      && |s2.requests| == |s.requests| && r2.kind == r.kind && r2.hold == r.hold && r2.client in s2.accounts
      && s2.now <= x.times.leave && TpmOf(c, s2, id) == TpmOf(c, s, id)
      && Tracks(c, s2, x, Calls(r.kind, r2.attempts, x.times.calls))
      && OutcomeNow(r2.pc).Some? && !r2.pc.Finished?
      && var out := OutcomeNow(r2.pc).value;
         && (r2.pc.Streaming? <==> out.StreamOpened?)
         && (if r2.pc.Settling? then r2.pc.usage else None) == (if out.Served? then x.usageOf(out.body) else None)
         && s2.cache == (if out.Served? && KeyOf(r).Some? then s.cache[KeyOf(r).value := out.body] else s.cache)
  {
    hide Tracks, Calls, Follows, EndsLoop, Matches, AskedRightly;
    SameKey(s.requests[id], s1.requests[id]);
  }

  lemma NothingSeen(c: Config, s: System, x: Script)
    requires Sound(c, x)
    requires forall i :: 0 <= i < |x.names| ==> x.start[x.breakers[i]] == ProviderOf(s, x.names[i]).breaker
    ensures Tracks(c, s, x, [])
  {
  }

  // ---- The call as a whole, and that it is determined -------------------------------------

  lemma EndsRefused(c: Config, s: System, s': System, id: nat, breakers: seq<CircuitBreaker>, replies: seq<Reply>,
      usageOf: Body -> Option<nat>, times: Times, before: Shared)
    requires Mirrors(c, s, id, breakers, before) && |replies| == |breakers| && JustIn(s, id)
    requires |s'.requests| == |s.requests| && s'.providers == s.providers && s'.cache == s.cache
    requires s'.requests[id].attempts == []
    requires
      var (held, answer) := Buckets.TryConsume(Tpm(c), TpmOf(c, s, id), s.requests[id].estimate, times.reserve);
      && answer.Refused? && TpmOf(c, s', id) == held
      && s'.requests[id].pc == Finished(RateLimited(answer.retryAfter))
    ensures EndsAs(c, s, s', id, breakers, replies, usageOf, times, before,
                   before.(bucket := TpmOf(c, s', id)), [])
  {
    hide Buckets.TryConsume, Providers, CacheKey, AccountOf;
    assert forall n :: ProviderOf(s', n) == ProviderOf(s, n);
  }

  lemma EndsCached(c: Config, s: System, s1: System, s': System, id: nat, breakers: seq<CircuitBreaker>,
      replies: seq<Reply>, usageOf: Body -> Option<nat>, times: Times, before: Shared)
    requires Mirrors(c, s, id, breakers, before) && |replies| == |breakers| && JustIn(s, id)
    requires |s1.requests| == |s.requests| && s1.providers == s.providers && s1.cache == s.cache
    requires
      var r := s.requests[id];
      var (held, answer) := Buckets.TryConsume(Tpm(c), TpmOf(c, s, id), r.estimate, times.reserve);
      var key := CacheKey(r.kind, r.prompt);
      && answer.Granted? && TpmOf(c, s1, id) == held && key.Some? && key.value in s.cache
      && s1.requests[id].hold == Held(r.estimate) && s1.requests[id].attempts == []
      && Gone(c, s1, s', id, Some(0), CacheHit(s.cache[key.value]), times.lookup)
    ensures EndsAs(c, s, s', id, breakers, replies, usageOf, times, before,
                   before.(bucket := TpmOf(c, s', id)), [])
  {
    hide Buckets.TryConsume, BucketAfter, Providers, CacheKey, AccountOf;
    assert forall n :: ProviderOf(s', n) == ProviderOf(s, n);
  }

  lemma EndsMissed(c: Config, s: System, s1: System, s': System, id: nat, x: Script, before: Shared)
    requires Mirrors(c, s, id, x.breakers, before) && JustIn(s, id)
    requires Missed(c, s1, id) && Sound(c, x) && forall b :: b in x.breakers ==> b in x.start
    requires x.names == Providers(c) && x.start == before.breakers
    requires |s1.requests| == |s.requests| && s1.providers == s.providers && s1.cache == s.cache
    requires
      var r, r1 := s.requests[id], s1.requests[id];
      var (held, answer) := Buckets.TryConsume(Tpm(c), TpmOf(c, s, id), r.estimate, x.times.reserve);
      var key := CacheKey(r.kind, r.prompt);
      && answer.Granted? && TpmOf(c, s1, id) == held && !(key.Some? && key.value in s.cache)
      && r1.kind == r.kind && r1.prompt == r.prompt && r1.estimate == r.estimate
    requires MissDone(c, s1, s', id, x)
    ensures EndsAs(c, s, s', id, x.breakers, x.replies, x.usageOf, x.times, before,
                   Shared(Ended(x, s.requests[id].kind, s'.requests[id].attempts), TpmOf(c, s', id), s'.cache), x.picks)
  {
    hide Buckets.TryConsume, BucketAfter, Providers, CacheKey, AccountOf, Contacted, Ended, Sound;
  }

  // Given the answers of the upstreams and the times, a request that has just come in has
  // an undisturbed run that ends as the method does.
  lemma WholeCall(c: Config, s: System, id: nat, breakers: seq<CircuitBreaker>, replies: seq<Reply>,
      usageOf: Body -> Option<nat>, times: Times, before: Shared)
    returns (actions: seq<Action>, after: Shared, picks: seq<nat>)
    requires JustIn(s, id) && InOrder(c, times, s.now) && Mirrors(c, s, id, breakers, before)
    requires NoTimeout(c, s, id, times)
    requires |replies| == |breakers|
    ensures RunsAlone(actions, id)
    ensures EndsAs(c, s, Run(c, s, actions), id, breakers, replies, usageOf, times, before, after, picks)
  {
    var r := s.requests[id];
    SoonerWait(c, s, s, id, times, s.now);
    actions := Reserves(c, s, id, times.reserve);
    hide Buckets.TryConsume, Providers, CacheKey, AccountOf, Run, EndsAs, MissDone, Gone, RunsAlone, Mirrors;
    hide SameState, InOrder, OthersWait;
    var s1 := Run(c, s, actions);
    after, picks := before.(bucket := TpmOf(c, s1, id)), [];
    if s1.requests[id].pc.Finished? {
      EndsRefused(c, s, s1, id, breakers, replies, usageOf, times, before);
    } else {
      OrderOf(c, times, s.now);
      SoonerWait(c, s, s1, id, times, s.now);
      var looking := LooksUp(c, s1, id, times.lookup);
      Joined(c, s, actions, looking, id);
      actions := actions + looking;
      var s2 := Run(c, s1, looking);
      var key := CacheKey(r.kind, r.prompt);
      SoonerWait(c, s, s2, id, times, s.now);
      if key.Some? && key.value in s.cache {
        var settling := Settles(c, s2, id, times.lookup);
        Joined(c, s, actions, settling, id);
        actions := actions + settling;
        var s3 := Run(c, s2, settling);
        EndsCached(c, s, s2, s3, id, breakers, replies, usageOf, times, before);
        after := before.(bucket := TpmOf(c, s3, id));
      } else {
        picks := PicksFrom(c, s2, times.eligible, 0);
        var x := Script(Providers(c), breakers, before.breakers, picks, replies, usageOf, times);
        ScriptFits(c, s, s2, id, x, before);
        var missing := Misses(c, s2, id, x);
        Joined(c, s, actions, missing, id);
        actions := actions + missing;
        var s3 := Run(c, s2, missing);
        EndsMissed(c, s, s2, s3, id, x, before);
        after := Shared(Ended(x, r.kind, s3.requests[id].attempts), TpmOf(c, s3, id), s3.cache);
      }
    }
  }

  lemma SoonerWait(c: Config, s: System, s': System, id: nat, times: Times, now: real)
    requires InOrder(c, times, now) && OthersWait(s, id, times.leave)
    requires |s'.requests| == |s.requests|
    requires forall i :: 0 <= i < |s.requests| && i != id ==> s'.requests[i] == s.requests[i]
    ensures OthersWait(s', id, times.reserve) && OthersWait(s', id, times.lookup) && OthersWait(s', id, times.leave)
  {
  }

  lemma OrderOf(c: Config, times: Times, now: real)
    requires InOrder(c, times, now)
    ensures now <= times.reserve <= times.lookup && InOrder(c, times, times.reserve)
  {
  }

  lemma ScriptFits(c: Config, s: System, s2: System, id: nat, x: Script, before: Shared)
    requires Mirrors(c, s, id, x.breakers, before) && s2.providers == s.providers && |x.replies| == |x.breakers|
    requires x.names == Providers(c) && x.start == before.breakers && x.picks == PicksFrom(c, s2, x.times.eligible, 0)
    requires InOrder(c, x.times, x.times.reserve) && s2.now == x.times.lookup && NoTimeout(c, s, id, x.times)
    ensures Scripted(c, s2, x)
  {
    hide Providers, IsEligible, InOrder;
    PicksAreEligible(c, s2, x.times.eligible, 0);
    SamePicks(c, s, s2, x.times.eligible, 0);
  }

  lemma {:induction false} SublistsAgree(a: seq<nat>, b: seq<nat>, n: nat)
    requires IsSublist(a, n) && IsSublist(b, n)
    requires forall i :: 0 <= i < n ==> (i in a <==> i in b)
    ensures a == b
  {
    assert (a != [] ==> a[0] in a) && (b != [] ==> b[0] in b);
    if a != [] && b != [] {
      var i, j := |a| - 1, |b| - 1;
      assert a[i] in a && b[j] in b;
      assert a[i] in b && b[j] in a;
      assert a[i] == b[j];
      forall k | 0 <= k < a[i]
        ensures k in a[..i] <==> k in b[..j]
      {
        assert k in a <==> k in b;
      }
      SublistsAgree(a[..i], b[..j], a[i]);
    }
  }

  // Two results of the same call from the same state are the same.
  lemma HandledOnce(task: Task, params: Buckets.Params, names: seq<Provider>, breakers: seq<CircuitBreaker>,
      replies: seq<Reply>, usageOf: Body -> Option<nat>, times: Times, before: Shared,
      a: Shared, picksA: seq<nat>, attemptsA: seq<Attempt>, outA: Outcome,
      b: Shared, picksB: seq<nat>, attemptsB: seq<Attempt>, outB: Outcome)
    requires |names| == |breakers| == |replies|
    requires Handled(task, params, names, breakers, replies, usageOf, times, before, a, picksA, attemptsA, outA)
    requires Handled(task, params, names, breakers, replies, usageOf, times, before, b, picksB, attemptsB, outB)
    requires forall o :: o in breakers ==> o in before.breakers
    ensures picksA == picksB && attemptsA == attemptsB && outA == outB
    ensures a.bucket == b.bucket && a.entries == b.entries
    ensures forall o :: o in breakers ==> o in a.breakers && o in b.breakers && a.breakers[o] == b.breakers[o]
  {
    hide Buckets.TryConsume, CacheKey, Contacted, BucketAfter;
    var (_, answer) := Buckets.TryConsume(params, before.bucket, task.estimate, times.reserve);
    var key := CacheKey(task.kind, task.prompt);
    if answer.Granted? && !(key.Some? && key.value in before.entries) {
      ContactedOnce(task.kind, names, breakers, replies, times, before.breakers,
                    a.breakers, picksA, attemptsA, outA, b.breakers, picksB, attemptsB, outB);
    }
  }

  lemma ContactedOnce(kind: Kind, names: seq<Provider>, breakers: seq<CircuitBreaker>, replies: seq<Reply>,
      times: Times, start: map<CircuitBreaker, Breaker>,
      a: map<CircuitBreaker, Breaker>, picksA: seq<nat>, attemptsA: seq<Attempt>, outA: Outcome,
      b: map<CircuitBreaker, Breaker>, picksB: seq<nat>, attemptsB: seq<Attempt>, outB: Outcome)
    requires |names| == |breakers| == |replies|
    requires Contacted(kind, names, breakers, replies, times, start, a, picksA, attemptsA, outA)
    requires Contacted(kind, names, breakers, replies, times, start, b, picksB, attemptsB, outB)
    ensures picksA == picksB && attemptsA == attemptsB && outA == outB
    ensures forall o :: o in breakers ==> o in a && o in b && a[o] == b[o]
  {
    hide IsResult, Replay, Seen, Calls, IsEligible, IsSublist;
    SublistsAgree(picksA, picksB, |names|);
    ResultIsDetermined(kind, Picked(names, picksA), Picked(breakers, picksA), start, Picked(replies, picksA),
                       times.calls, attemptsA, outA, attemptsB, outB);
  }

  // What the method does to the objects, some undisturbed run of the transition system does
  // to the state they mirror: same answer, same attempts, same breakers, bucket and cache.
  lemma RunEndsAsHandled(c: Config, s: System, id: nat, breakers: seq<CircuitBreaker>, replies: seq<Reply>,
      usageOf: Body -> Option<nat>, times: Times,
      before: Shared, after: Shared, picks: seq<nat>, attempts: seq<Attempt>, out: Outcome)
    returns (actions: seq<Action>)
    requires JustIn(s, id) && InOrder(c, times, s.now) && Mirrors(c, s, id, breakers, before)
    requires NoTimeout(c, s, id, times)
    requires |replies| == |breakers|
    requires Handled(TaskOf(s.requests[id]), Tpm(c), Providers(c), breakers, replies, usageOf, times,
                     before, after, picks, attempts, out)
    ensures RunsAlone(actions, id)
    ensures
      var s' := Run(c, s, actions);
      && |s'.requests| == |s.requests|
      && OutcomeNow(s'.requests[id].pc) == Some(out) && s'.requests[id].attempts == attempts
      && SameState(c, s', id, breakers, after)
  {
    var after', picks';
    actions, after', picks' := WholeCall(c, s, id, breakers, replies, usageOf, times, before);
    hide *;
    var s' := Run(c, s, actions);
    var attempts', out' := EndsWith(c, s, s', id, breakers, replies, usageOf, times, before, after', picks');
    MirrorsKnow(c, s, id, breakers, before);
    HandledOnce(TaskOf(s.requests[id]), Tpm(c), Providers(c), breakers, replies, usageOf, times, before,
                after, picks, attempts, out, after', picks', attempts', out');
    SameShared(c, s', id, breakers, after', after);
  }

  lemma MirrorsKnow(c: Config, s: System, id: nat, breakers: seq<CircuitBreaker>, shared: Shared)
    requires Mirrors(c, s, id, breakers, shared)
    ensures |breakers| == |Providers(c)| && forall o :: o in breakers ==> o in shared.breakers
  {
    hide Providers;
  }

  lemma EndsWith(c: Config, s: System, s': System, id: nat, breakers: seq<CircuitBreaker>, replies: seq<Reply>,
      usageOf: Body -> Option<nat>, times: Times, before: Shared, after: Shared, picks: seq<nat>)
    returns (attempts: seq<Attempt>, out: Outcome)
    requires Mirrors(c, s, id, breakers, before) && |replies| == |breakers|
    requires EndsAs(c, s, s', id, breakers, replies, usageOf, times, before, after, picks)
    ensures |s'.requests| == |s.requests| && id < |s.requests| && |breakers| == |Providers(c)|
    ensures SameState(c, s', id, breakers, after)
    ensures attempts == s'.requests[id].attempts && OutcomeNow(s'.requests[id].pc) == Some(out)
    ensures Handled(TaskOf(s.requests[id]), Tpm(c), Providers(c), breakers, replies, usageOf, times,
                    before, after, picks, attempts, out)
  {
    hide Handled, Providers, SameState;
    attempts, out := s'.requests[id].attempts, OutcomeNow(s'.requests[id].pc).value;
  }

  lemma SameShared(c: Config, s: System, id: nat, breakers: seq<CircuitBreaker>, a: Shared, b: Shared)
    requires id < |s.requests| && |breakers| == |Providers(c)| && SameState(c, s, id, breakers, a)
    requires a.bucket == b.bucket && a.entries == b.entries
    requires forall o :: o in breakers ==> o in a.breakers && o in b.breakers && b.breakers[o] == a.breakers[o]
    ensures SameState(c, s, id, breakers, b)
  {
    hide Providers;
  }

  // ---- The stream -------------------------------------------------------------------------

  // The reads of a stream in order, within the request timeout, and then its end.
  predicate StreamTimes(s: System, id: nat, count: nat, clock: nat -> real, droppedAt: real)
    requires id < |s.requests|
  {
    && (forall i :: 0 <= i <= count ==> s.now <= clock(i) <= s.requests[id].deadline && clock(i) <= droppedAt)
    && (forall i, j :: 0 <= i < j <= count ==> clock(i) <= clock(j))
    && OthersWait(s, id, droppedAt)
  }

  lemma Reports(c: Config, s: System, id: nat, total: nat, t: real) returns (actions: seq<Action>)
    requires id < |s.requests| && s.requests[id].pc.Streaming? && s.requests[id].hold.Held?
    requires s.requests[id].client in s.accounts && s.now <= t <= s.requests[id].deadline && OthersWait(s, id, t)
    ensures RunsAlone(actions, id)
    ensures
      var r, s' := s.requests[id], Run(c, s, actions);
      && TouchesOnly(s.(now := t), s', id) && s'.providers == s.providers && s'.cache == s.cache
      && TpmOf(c, s', id) == BucketAfter(Tpm(c), TpmOf(c, s, id), r.hold.amount, Some(total), t)
      && var r' := s'.requests[id];
         && r'.pc == Streaming && r'.provider == r.provider && r'.client == r.client && r'.client in s'.accounts
         && r'.hold.Settled? && r'.deadline == r.deadline
  {
    hide Run, Buckets.Reconcile;
    TimeLeft(s, id, t, t);
    actions := MoveAt(s, id, ReportUsage(total), t);
    MovesAt(c, s, id, ReportUsage(total), t);
  }

  lemma Ends(c: Config, s: System, id: nat, broken: bool, t: real) returns (actions: seq<Action>)
    requires id < |s.requests| && s.requests[id].pc.Streaming?
    requires s.now <= t <= s.requests[id].deadline && OthersWait(s, id, t)
    ensures RunsAlone(actions, id)
    ensures
      var r, s' := s.requests[id], Run(c, s, actions);
      var n := r.provider;
      && TouchesOnly(s.(now := t), s', id) && s'.accounts == s.accounts && s'.cache == s.cache
      && ProviderOf(s', n).breaker ==
         (if broken then RecordFailure(c.breaker, ProviderOf(s, n).breaker, t) else ProviderOf(s, n).breaker)
      && (forall other :: other != n ==> ProviderOf(s', other) == ProviderOf(s, other))
      && var r' := s'.requests[id];
         r'.pc == Unwinding(StreamOpened) && r'.client == r.client && r'.hold == r.hold
  {
    hide Run, MoveOn, RecordFailure;
    TimeLeft(s, id, t, t);
    actions := MoveAt(s, id, StreamDone(broken), t);
    MovesAt(c, s, id, StreamDone(broken), t);
    Moves.Frame(c, s.(now := t), id, StreamDone(broken));
    Moves.Calls(c, s.(now := t), id, StreamDone(broken));
    Moves.StreamDoneShape(c, s.(now := t), id, broken);
    assert forall n :: ProviderOf(s.(now := t), n) == ProviderOf(s, n);
  }

  lemma Closes(c: Config, s: System, id: nat, t: real) returns (actions: seq<Action>)
    requires id < |s.requests| && s.requests[id].pc.Unwinding? && !s.requests[id].hold.NotReserved? && s.now <= t
    requires s.requests[id].client in s.accounts && OthersWait(s, id, t)
    ensures RunsAlone(actions, id)
    ensures
      var r, s' := s.requests[id], Run(c, s, actions);
      && |s'.requests| == |s.requests| && s'.providers == s.providers && s'.cache == s.cache
      && s'.requests[id].pc == Finished(r.pc.out)
      && TpmOf(c, s', id) ==
         (if r.hold.Held? then BucketAfter(Tpm(c), TpmOf(c, s, id), r.hold.amount, None, t) else TpmOf(c, s, id))
  {
    hide Run, Buckets.Refund;
    TimeLeft(s, id, t, t);
    actions := MoveAt(s, id, Unwind, t);
    MovesAt(c, s, id, Unwind, t);
  }

  // What the method does to reservation and breaker, given what it reads, some undisturbed
  // run of the transition system does from the moment the stream has begun: it reports the usage
  // that a scan of the whole finds, at the same read, and a failure exactly on a break.
  lemma StreamEndsAsRead(c: Config, s: System, id: nat, parse: JsonParser, polls: seq<Poll>, charges: seq<Charge>,
      clock: nat -> real, droppedAt: real)
    returns (actions: seq<Action>)
    requires id < |s.requests| && s.requests[id].pc.Streaming? && s.requests[id].hold.Held?
    requires s.requests[id].client in s.accounts && StreamTimes(s, id, |ChunksRead(polls)|, clock, droppedAt)
    requires
      match BatchUsage(parse, Flatten(ChunksRead(polls)))
      case None => charges == []
      case Some(usage) => IsCharge(parse, ChunksRead(polls), charges, usage)
    ensures RunsAlone(actions, id) && (charges == [] <==> BatchUsage(parse, Flatten(ChunksRead(polls))).None?)
    ensures
      var r, s' := s.requests[id], Run(c, s, actions);
      var n := r.provider;
      && |s'.requests| == |s.requests| && s'.requests[id].pc == Finished(StreamOpened) && s'.cache == s.cache
      && TpmOf(c, s', id) == (match BatchUsage(parse, Flatten(ChunksRead(polls)))
                              case None => BucketAfter(Tpm(c), TpmOf(c, s, id), r.hold.amount, None, droppedAt)
                              case Some(usage) =>
                                BucketAfter(Tpm(c), TpmOf(c, s, id), r.hold.amount,
                                            Some(usage.prompt + usage.completion), clock(charges[0].at)))
      && ProviderOf(s', n).breaker ==
         (if Breaks(polls) then RecordFailure(c.breaker, ProviderOf(s, n).breaker, clock(|ChunksRead(polls)|))
          else ProviderOf(s, n).breaker)
      && forall other :: other != n ==> ProviderOf(s', other) == ProviderOf(s, other)
  {
    hide Run, BucketAfter, AccountOf, BatchUsage, BatchContent, ChunksRead, Flatten, RecordFailure, Breaks;
    hide IsCharge;
    var count := |ChunksRead(polls)|;
    actions := [];
    assert Run(c, s, []) == s by { RunNone(c, s); }
    var s1 := s;
    if charges != [] {
      var usage := charges[0].usage;
      ChargeIsRead(parse, polls, charges);
      LessWait(s, s, id, droppedAt, clock(charges[0].at));
      actions := Reports(c, s, id, usage.prompt + usage.completion, clock(charges[0].at));
      s1 := Run(c, s, actions);
    } else {
      NothingCharged(parse, polls);
    }
    assert forall n :: ProviderOf(s1, n) == ProviderOf(s, n);
    LessWait(s, s1, id, droppedAt, clock(count));
    var ending := Ends(c, s1, id, Breaks(polls), clock(count));
    Joined(c, s, actions, ending, id);
    var s2 := Run(c, s1, ending);
    SameTpmOf(c, s1, s2, id);
    LessWait(s1, s2, id, droppedAt, droppedAt);
    var closing := Closes(c, s2, id, droppedAt);
    Joined(c, s, actions + ending, closing, id);
    actions := actions + ending + closing;
  }

  lemma ChargeIsRead(parse: JsonParser, polls: seq<Poll>, charges: seq<Charge>)
    requires charges != []
    requires
      match BatchUsage(parse, Flatten(ChunksRead(polls)))
      case None => charges == []
      case Some(usage) => IsCharge(parse, ChunksRead(polls), charges, usage)
    ensures charges[0].at < |ChunksRead(polls)|
    ensures BatchUsage(parse, Flatten(ChunksRead(polls))) == Some(charges[0].usage)
  {
    hide BatchUsage, Flatten, ChunksRead;
  }

  lemma NothingCharged(parse: JsonParser, polls: seq<Poll>)
    requires
      match BatchUsage(parse, Flatten(ChunksRead(polls)))
      case None => true
      case Some(usage) => IsCharge(parse, ChunksRead(polls), [], usage)
    ensures BatchUsage(parse, Flatten(ChunksRead(polls))) == None
  {
    hide BatchUsage, Flatten, ChunksRead;
  }

  lemma SameTpmOf(c: Config, s: System, s': System, id: nat)
    requires id < |s.requests| == |s'.requests| && s'.accounts == s.accounts
    requires s'.requests[id].client == s.requests[id].client && s.requests[id].client in s.accounts
    ensures TpmOf(c, s', id) == TpmOf(c, s, id) && s'.requests[id].client in s'.accounts
  {
  }

  lemma LessWait(s: System, s': System, id: nat, limit: real, t: real)
    requires OthersWait(s, id, limit) && t <= limit && |s'.requests| == |s.requests|
    requires forall i :: 0 <= i < |s.requests| && i != id ==> s'.requests[i] == s.requests[i]
    ensures OthersWait(s', id, t) && OthersWait(s', id, limit)
  {
  }
}
