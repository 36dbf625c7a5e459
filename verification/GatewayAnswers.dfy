// What each request is answered: the failover loop against its specification, and the
// bodies that are served, in every run of the gateway.

module GatewayAnswers {
  import opened Basics
  import opened ExactCache
  import opened Gateway
  import opened GatewayMoves
  import Selection = GatewaySelection

  // ---- The specification of failover ------------------------------------------------------

  // Whether the loop ends with what happened at this position.
  predicate Decisive(kind: Kind, a: Attempt) {
    match a
    case Denied => false
    case Answered(h) => !CountsAsFailure(kind, h)
    case BodyBroken(_) => kind.Embeddings? || kind.ChatStream?
  }

  function FirstDecisive(kind: Kind, attempts: seq<Attempt>): Option<nat> {
    if attempts == [] then None
    else if Decisive(kind, attempts[0]) then Some(0)
    else
      var rest := FirstDecisive(kind, attempts[1..]);
      if rest.None? then None else Some(rest.value + 1)
  }

  // The outcome belongs to the first decisive position and nothing was tried after it;
  // if there is none, every candidate was tried.
  predicate Follows(kind: Kind, candidates: seq<Provider>, attempts: seq<Attempt>, out: Outcome) {
    && |attempts| <= |candidates|
    && match out
       case RateLimited(_) => candidates == []
       case CacheHit(_) => candidates == []
       case NoProviders => candidates == []
       case Cancelled => true
       case AllFailed(lastError) =>
         && FirstDecisive(kind, attempts) == None
         && candidates != [] && |attempts| == |candidates|
         && lastError == LastContacted(attempts)
       case Rejected(h) =>
         && EndsDecisively(kind, attempts)
         && attempts[|attempts| - 1] == Answered(h) && IsRejection(h)
       case Served(_) => EndsAccepted(kind, attempts) && !kind.ChatStream?
       case StreamOpened => EndsAccepted(kind, attempts) && kind.ChatStream?
       case BodyLost =>
         && EndsDecisively(kind, attempts)
         && attempts[|attempts| - 1].BodyBroken? && kind.Embeddings?
  }

  predicate EndsDecisively(kind: Kind, attempts: seq<Attempt>) {
    attempts != [] && FirstDecisive(kind, attempts) == Some(|attempts| - 1)
  }

  // A stream that is opened may break later.
  predicate EndsAccepted(kind: Kind, attempts: seq<Attempt>) {
    && EndsDecisively(kind, attempts)
    && match attempts[|attempts| - 1]
       case Denied => false
       case Answered(h) => IsAcceptance(kind, h)
       case BodyBroken(h) => kind.ChatStream? && IsAcceptance(kind, h)
  }

  lemma NothingTried(kind: Kind)
    ensures FirstDecisive(kind, []) == None
  {
  }

  lemma {:induction false} DecisiveSnoc(kind: Kind, attempts: seq<Attempt>, a: Attempt)
    requires FirstDecisive(kind, attempts) == None
    ensures FirstDecisive(kind, attempts + [a]) == if Decisive(kind, a) then Some(|attempts|) else None
  {
    if attempts != [] {
      DecisiveSnoc(kind, attempts[1..], a);
      assert (attempts + [a])[1..] == attempts[1..] + [a];
    }
  }

  lemma {:induction false} DecisivePrefix(kind: Kind, attempts: seq<Attempt>)
    requires EndsDecisively(kind, attempts)
    ensures FirstDecisive(kind, attempts[..|attempts| - 1]) == None
  {
    if |attempts| > 1 {
      DecisivePrefix(kind, attempts[1..]);
      assert attempts[1..][..|attempts| - 2] == attempts[..|attempts| - 1][1..];
    }
  }

  lemma {:induction false} DecisiveIsFound(kind: Kind, attempts: seq<Attempt>, k: nat)
    requires k < |attempts| && Decisive(kind, attempts[k])
    ensures FirstDecisive(kind, attempts).Some? && FirstDecisive(kind, attempts).value <= k
  {
    hide Decisive;
    if k > 0 {
      DecisiveIsFound(kind, attempts[1..], k - 1);
    }
  }

  // What a contacted position means for the answer, by the number of its status.
  lemma AnswerByStatus(kind: Kind, candidates: seq<Provider>, attempts: seq<Attempt>, out: Outcome, k: nat, code: nat)
    requires Follows(kind, candidates, attempts, out) && out != Cancelled
    requires k < |attempts| && attempts[k] == Answered(Status(code))
    ensures code / 100 == 4 && code != 408 && code != 429 ==>
              k == |attempts| - 1 && out == Rejected(Status(code))
    ensures (if kind.Embeddings? then code / 100 == 2 else code / 100 != 4 && code / 100 != 5) ==>
              && k == |attempts| - 1
              && if kind.ChatStream? then out == StreamOpened else out.Served?
  {
    if Decisive(kind, attempts[k]) {
      hide FirstDecisive;
      DecisiveIsFound(kind, attempts, k);
    }
  }

  lemma RejectedByStatus(kind: Kind, candidates: seq<Provider>, attempts: seq<Attempt>, h: Header)
    requires Follows(kind, candidates, attempts, Rejected(h))
    ensures h.Status? && h.code / 100 == 4 && h.code != 408 && h.code != 429
  {
    hide FirstDecisive;
  }

  // ---- The invariant ----------------------------------------------------------------------

  predicate TrailOk(r: Request) {
    && |r.attempts| <= |r.candidates|
    && match r.pc
       case Entered => r.candidates == []
       case Reserved => r.candidates == []
       case Selecting => r.attempts == []
       case Choosing => r.candidates != [] && FirstDecisive(r.kind, r.attempts) == None
       case Sent =>
         && FirstDecisive(r.kind, r.attempts) == None
         && |r.attempts| < |r.candidates| && r.provider == r.candidates[|r.attempts|]
       case ReadingBody => EndsAccepted(r.kind, r.attempts) && !r.kind.ChatStream?
       case Streaming =>
         EndsAccepted(r.kind, r.attempts) && r.kind.ChatStream? && r.attempts[|r.attempts| - 1].Answered?
       case Settling(_, out) => Follows(r.kind, r.candidates, r.attempts, out)
       case Unwinding(out) => Follows(r.kind, r.candidates, r.attempts, out)
       case Finished(out) => Follows(r.kind, r.candidates, r.attempts, out)
  }

  function OutcomeOf(pc: Pc): Option<Outcome> {
    match pc
    case Settling(_, out) => Some(out)
    case Unwinding(out) => Some(out)
    case Finished(out) => Some(out)
    case _ => None
  }

  // Request i read this body from an upstream, for this key.
  predicate ReadUnder(s: System, i: nat, key: string, body: Body) {
    i < |s.requests| && KeyOf(s.requests[i]) == Some(key) && (i, body) in s.answers
  }

  // A served body was read for this very request; one from the cache was read for some
  // request with the same key.
  ghost predicate BodyOk(s: System, id: nat)
    requires id < |s.requests|
  {
    match OutcomeOf(s.requests[id].pc)
    case Some(CacheHit(body)) =>
      KeyOf(s.requests[id]).Some? && exists i: nat :: ReadUnder(s, i, KeyOf(s.requests[id]).value, body)
    case Some(Served(body)) => (id, body) in s.answers
    case _ => true
  }

  // The requests that have read a body are those served with it, unless they were dropped.
  predicate AnswerOk(s: System, i: nat, body: Body) {
    && i < |s.requests|
    && (OutcomeOf(s.requests[i].pc) == Some(Served(body)) || OutcomeOf(s.requests[i].pc) == Some(Cancelled))
  }

  ghost predicate CacheOk(s: System) {
    forall key :: key in s.cache ==> exists i: nat :: ReadUnder(s, i, key, s.cache[key])
  }

  ghost predicate RequestOk(s: System, id: nat)
    requires id < |s.requests|
  {
    TrailOk(s.requests[id]) && BodyOk(s, id) && IsJsonText(s.requests[id].prompt.payload)
  }

  ghost predicate Inv(s: System) {
    && CacheOk(s)
    && (forall a :: a in s.answers ==> AnswerOk(s, a.0, a.1))
    && (forall id :: 0 <= id < |s.requests| ==> RequestOk(s, id))
  }

  lemma TrailAt(s: System, id: nat)
    requires Inv(s) && id < |s.requests|
    ensures RequestOk(s, id)
    ensures s.requests[id].pc.ReadingBody? ==> s.requests[id].attempts != []
  {
  }

  // ---- Failover, move by move -----------------------------------------------------------

  lemma TryTrail(c: Config, s: System, id: nat)
    requires id < |s.requests| && TrailOk(s.requests[id])
    ensures TrailOk(MoveOn(c, s, id, Try).requests[id])
  {
    hide MoveOn, LastContacted, FirstDecisive, ProviderOf;
    var r := s.requests[id];
    Frame(c, s, id, Try);
    TryShape(c, s, id);
    if r.pc.Choosing? {
      DecisiveSnoc(r.kind, r.attempts, Denied);
    }
  }

  lemma HeadTrail(c: Config, s: System, id: nat, h: Header)
    requires id < |s.requests| && TrailOk(s.requests[id])
    ensures TrailOk(MoveOn(c, s, id, Head(h)).requests[id])
  {
    hide MoveOn, CountsAsFailure, IsRejection, IsAcceptance, FirstDecisive;
    var r := s.requests[id];
    Frame(c, s, id, Head(h));
    HeadShape(c, s, id, h);
    if r.pc.Sent? {
      DecisiveSnoc(r.kind, r.attempts, Answered(h));
    }
  }

  lemma ReadTrail(c: Config, s: System, id: nat, body: Option<Body>, usage: Option<nat>)
    requires id < |s.requests| && TrailOk(s.requests[id])
    ensures TrailOk(MoveOn(c, s, id, Read(body, usage)).requests[id])
  {
    hide MoveOn, CountsAsFailure, IsRejection, IsAcceptance, FirstDecisive;
    var r := s.requests[id];
    Frame(c, s, id, Read(body, usage));
    ReadShape(c, s, id, body, usage);
    if r.pc.ReadingBody? && body.None? {
      var last := |r.attempts| - 1;
      DecisivePrefix(r.kind, r.attempts);
      DecisiveSnoc(r.kind, r.attempts[..last], BodyBroken(r.attempts[last].header));
    }
  }

  lemma StreamDoneTrail(c: Config, s: System, id: nat, broken: bool)
    requires id < |s.requests| && TrailOk(s.requests[id])
    ensures TrailOk(MoveOn(c, s, id, StreamDone(broken)).requests[id])
  {
    hide MoveOn, CountsAsFailure, IsRejection, IsAcceptance, FirstDecisive;
    var r := s.requests[id];
    StreamDoneShape(c, s, id, broken);
    if r.pc.Streaming? && broken {
      var last := |r.attempts| - 1;
      DecisivePrefix(r.kind, r.attempts);
      DecisiveSnoc(r.kind, r.attempts[..last], BodyBroken(r.attempts[last].header));
    }
  }

  lemma MoveTrail(c: Config, s: System, id: nat, m: Move)
    requires id < |s.requests| && TrailOk(s.requests[id])
    ensures TrailOk(MoveOn(c, s, id, m).requests[id])
  {
    hide MoveOn, CountsAsFailure, IsRejection, IsAcceptance, FirstDecisive;
    match m
    case Try => TryTrail(c, s, id);
    case Head(h) => HeadTrail(c, s, id, h);
    case Read(body, usage) => ReadTrail(c, s, id, body, usage);
    case StreamDone(broken) => StreamDoneTrail(c, s, id, broken);
    case Select =>
      if s.requests[id].pc.Selecting? {
        Frame(c, s, id, m);
        Selection.SelectShape(c, s, id);
        assert FirstDecisive(s.requests[id].kind, []) == None by { NothingTried(s.requests[id].kind); }
      } else {
        Selection.SelectIdle(c, s, id);
      }
    case _ => Frame(c, s, id, m);
  }

  // ---- Bodies, move by move ---------------------------------------------------------------

  // Whoever read a body under a key did so for good.
  lemma ReadStays(s: System, s': System, i: nat, key: string, body: Body)
    requires ReadUnder(s, i, key, body) && |s.requests| <= |s'.requests|
    requires s.answers <= s'.answers
    requires s'.requests[i].kind == s.requests[i].kind && s'.requests[i].prompt == s.requests[i].prompt
    ensures ReadUnder(s', i, key, body)
  {
  }

  ghost predicate KeepsIdentity(s: System, s': System) {
    && |s.requests| <= |s'.requests| && s.answers <= s'.answers
    && forall i :: 0 <= i < |s.requests| ==>
         s'.requests[i].kind == s.requests[i].kind && s'.requests[i].prompt == s.requests[i].prompt
  }

  lemma BodyStays(s: System, s': System, id: nat)
    requires id < |s.requests| && BodyOk(s, id) && KeepsIdentity(s, s')
    requires OutcomeOf(s'.requests[id].pc) == OutcomeOf(s.requests[id].pc)
    ensures BodyOk(s', id)
  {
    hide KeyOf;
    match OutcomeOf(s.requests[id].pc)
    case Some(CacheHit(body)) =>
      var key := KeyOf(s.requests[id]).value;
      var i: nat :| ReadUnder(s, i, key, body);
      ReadStays(s, s', i, key, body);
      SameKey(s.requests[id], s'.requests[id]);
    case _ =>
  }

  lemma SameKey(r: Request, r': Request)
    requires r'.kind == r.kind && r'.prompt == r.prompt
    ensures KeyOf(r') == KeyOf(r)
  {
  }

  lemma CacheStays(s: System, s': System)
    requires CacheOk(s) && KeepsIdentity(s, s')
    requires forall key :: key in s'.cache ==> key in s.cache && s'.cache[key] == s.cache[key]
    ensures CacheOk(s')
  {
    hide KeyOf, ReadUnder;
    forall key | key in s'.cache
      ensures exists i: nat :: ReadUnder(s', i, key, s'.cache[key])
    {
      var i: nat :| ReadUnder(s, i, key, s.cache[key]);
      ReadIsKnown(s, i, key, s.cache[key]);
      ReadStays(s, s', i, key, s.cache[key]);
    }
  }

  lemma ReadIsKnown(s: System, i: nat, key: string, body: Body)
    requires ReadUnder(s, i, key, body)
    ensures i < |s.requests|
  {
  }

  lemma LookupShape(c: Config, s: System, id: nat)
    requires id < |s.requests|
    ensures
      var r, r' := s.requests[id], MoveOn(c, s, id, Lookup).requests[id];
      r'.pc == if !r.pc.Reserved? then r.pc
               else if KeyOf(r).Some? && KeyOf(r).value in s.cache then
                 Settling(Some(0), CacheHit(s.cache[KeyOf(r).value]))
               else Selecting
  {
    hide KeyOf, TouchesOnly;
  }

  // A body that was read is recorded, and stored under the key of its own request.
  lemma BodyRead(c: Config, s: System, id: nat, text: Body, usage: Option<nat>)
    requires id < |s.requests| && s.requests[id].pc.ReadingBody? && s.requests[id].attempts != []
    ensures
      var s' := MoveOn(c, s, id, Read(Some(text), usage));
      var key := KeyOf(s.requests[id]);
      && s'.answers == s.answers + {(id, text)}
      && s'.cache == if key.Some? then s.cache[key.value := text] else s.cache
  {
    hide KeyOf, TouchesOnly;
  }

  lemma ReadIdle(c: Config, s: System, id: nat, body: Option<Body>, usage: Option<nat>)
    requires id < |s.requests|
    requires !s.requests[id].pc.ReadingBody? || s.requests[id].attempts == [] || body.None?
    ensures
      var s' := MoveOn(c, s, id, Read(body, usage));
      s'.answers == s.answers && s'.cache == s.cache
  {
    hide ReportFailure, KeyOf, TouchesOnly;
  }

  // A move that reads no body leaves the records alone.
  lemma UnreadKeepsInv(c: Config, s: System, id: nat, m: Move)
    requires Inv(s) && id < |s.requests|
    requires MoveOn(c, s, id, m).answers == s.answers && MoveOn(c, s, id, m).cache == s.cache
    requires m.Read? ==> !OutcomeOf(MoveOn(c, s, id, m).requests[id].pc).Some?
                         || OutcomeOf(MoveOn(c, s, id, m).requests[id].pc) == Some(BodyLost)
                         || MoveOn(c, s, id, m).requests[id].pc == s.requests[id].pc
    ensures Inv(MoveOn(c, s, id, m))
  {
    hide MoveOn, KeyOf, TrailOk, ReadUnder, IsJsonText;
    var r, s' := s.requests[id], MoveOn(c, s, id, m);
    Frame(c, s, id, m);
    TrailAt(s, id);
    MoveTrail(c, s, id, m);
    CacheStays(s, s');
    forall i | 0 <= i < |s'.requests|
      ensures RequestOk(s', i)
    {
      assert RequestOk(s, i);
      if i != id || OutcomeOf(s'.requests[i].pc) == OutcomeOf(r.pc) {
        BodyStays(s, s', i);
      } else if m.Lookup? {
        LookupBody(c, s, id);
      }
    }
    forall a | a in s'.answers
      ensures AnswerOk(s', a.0, a.1)
    {
      assert AnswerOk(s, a.0, a.1);
    }
  }

  lemma LookupBody(c: Config, s: System, id: nat)
    requires Inv(s) && id < |s.requests|
    ensures BodyOk(MoveOn(c, s, id, Lookup), id)
  {
    hide MoveOn, KeyOf, TrailOk, IsJsonText;
    var r, s' := s.requests[id], MoveOn(c, s, id, Lookup);
    Frame(c, s, id, Lookup);
    LookupShape(c, s, id);
    SameKey(r, s'.requests[id]);
    assert RequestOk(s, id);
    if r.pc.Reserved? && KeyOf(r).Some? && KeyOf(r).value in s.cache {
      var key := KeyOf(r).value;
      var i: nat :| ReadUnder(s, i, key, s.cache[key]);
      SameKey(s.requests[i], s'.requests[i]);
      assert ReadUnder(s', i, key, s.cache[key]);
    } else {
      BodyStays(s, s', id);
    }
  }

  lemma ReadKeepsInv(c: Config, s: System, id: nat, text: Body, usage: Option<nat>)
    requires Inv(s) && id < |s.requests| && s.requests[id].pc.ReadingBody? && s.requests[id].attempts != []
    ensures Inv(MoveOn(c, s, id, Read(Some(text), usage)))
  {
    hide MoveOn, KeyOf, TrailOk, IsJsonText, ReadUnder;
    var r, s' := s.requests[id], MoveOn(c, s, id, Read(Some(text), usage));
    Frame(c, s, id, Read(Some(text), usage));
    ReadShape(c, s, id, Some(text), usage);
    BodyRead(c, s, id, text, usage);
    TrailAt(s, id);
    MoveTrail(c, s, id, Read(Some(text), usage));
    forall key | key in s'.cache
      ensures exists i: nat :: ReadUnder(s', i, key, s'.cache[key])
    {
      if KeyOf(r).Some? && key == KeyOf(r).value {
        NowRead(s', id, r, key, text);
      } else {
        var i: nat :| ReadUnder(s, i, key, s.cache[key]);
        ReadIsKnown(s, i, key, s.cache[key]);
        ReadStays(s, s', i, key, s.cache[key]);
      }
    }
    forall i | 0 <= i < |s'.requests|
      ensures RequestOk(s', i)
    {
      assert RequestOk(s, i);
      if i != id {
        BodyStays(s, s', i);
      }
    }
    forall a | a in s'.answers
      ensures AnswerOk(s', a.0, a.1)
    {
      if a in s.answers {
        assert AnswerOk(s, a.0, a.1);
      }
    }
  }

  lemma NowRead(s': System, id: nat, r: Request, key: string, text: Body)
    requires id < |s'.requests| && KeyOf(r) == Some(key) && (id, text) in s'.answers
    requires s'.requests[id].kind == r.kind && s'.requests[id].prompt == r.prompt
    ensures ReadUnder(s', id, key, text)
  {
  }

  lemma MoveKeepsInv(c: Config, s: System, id: nat, m: Move)
    requires Inv(s) && id < |s.requests|
    ensures Inv(MoveOn(c, s, id, m))
  {
    hide MoveOn, Inv;
    TrailAt(s, id);
    if m.Read? {
      if m.body.Some? && s.requests[id].pc.ReadingBody? {
        ReadKeepsInv(c, s, id, m.body.value, m.usage);
      } else {
        ReadIdle(c, s, id, m.body, m.usage);
        ReadShape(c, s, id, m.body, m.usage);
        UnreadKeepsInv(c, s, id, m);
      }
    } else {
      Frame(c, s, id, m);
      UnreadKeepsInv(c, s, id, m);
    }
  }

  lemma StepKeepsInv(c: Config, s: System, a: Action)
    requires Inv(s)
    ensures Inv(Step(c, s, a))
  {
    hide MoveOn, ArriveStep, KeyOf, TrailOk, IsJsonText, ReadUnder;
    var s' := Step(c, s, a);
    match a
    case Act(id, m) =>
      if id < |s.requests| {
        hide Inv;
        MoveKeepsInv(c, s, id, m);
      }
    case _ =>
      StepGrows(c, s, a);
      if a.Arrive? {
        ArriveFrame(c, s, a);
      }
      CacheStays(s, s');
      forall i | 0 <= i < |s'.requests|
        ensures RequestOk(s', i)
      {
        if i < |s.requests| {
          assert RequestOk(s, i);
          BodyStays(s, s', i);
        } else {
          ArrivalOk(c, s, a);
        }
      }
      forall b | b in s'.answers
        ensures AnswerOk(s', b.0, b.1)
      {
        assert AnswerOk(s, b.0, b.1);
      }
  }

  lemma ArrivalOk(c: Config, s: System, a: Action)
    requires a.Arrive? && |Step(c, s, a).requests| > |s.requests|
    ensures |Step(c, s, a).requests| == |s.requests| + 1 && RequestOk(Step(c, s, a), |s.requests|)
  {
    hide AccountOf, Buckets.TryConsume;
  }

  lemma InitInv(now: real)
    ensures Inv(Init(now))
  {
  }

  lemma {:induction false} RunKeepsInv(c: Config, s: System, actions: seq<Action>)
    requires Inv(s)
    ensures Inv(Run(c, s, actions))
    decreases |actions|
  {
    hide Inv, Step;
    if actions != [] {
      StepKeepsInv(c, s, actions[0]);
      RunKeepsInv(c, Step(c, s, actions[0]), actions[1..]);
    }
  }

  // ---- Main results -----------------------------------------------------------------------

  // The candidates are exactly the providers that were eligible when read, in failover
  // order, and every answer is the one the first decisive position determines: positions
  // before it failed over or were denied, none after it was contacted, and no position
  // twice. While headers are awaited every earlier position has failed over, and the
  // provider contacted is the next candidate.
  lemma FailoverIsFirstDecisive(c: Config, start: real, actions: seq<Action>, id: nat)
    requires id < |Run(c, Init(start), actions).requests|
    ensures
      var s := Run(c, Init(start), actions);
      var r := s.requests[id];
      && Selection.LooksOk(c, s, r)
      && (r.pc.Finished? ==> Follows(r.kind, r.candidates, r.attempts, r.pc.out))
      && (r.pc.Sent? ==>
            && |r.attempts| < |r.candidates| && r.provider == r.candidates[|r.attempts|]
            && FirstDecisive(r.kind, r.attempts) == None)
  {
    hide Run, Selection.LooksOk, Selection.Breaking.Inv;
    InitInv(start);
    RunKeepsInv(c, Init(start), actions);
    TrailAt(Run(c, Init(start), actions), id);
    Selection.Reachable(c, start, actions);
  }

  // In every run, with the status numbers written out: an upstream's 4xx, other than 408 and
  // 429, is the answer and nothing else is a rejection; a status that is accepted, 200 among
  // them, is the last one and the request is served the very body that was read for it, or
  // its stream is opened.
  lemma StatusDecidesAnswer(c: Config, start: real, actions: seq<Action>, id: nat, k: nat, code: nat)
    requires id < |Run(c, Init(start), actions).requests|
    requires
      var r := Run(c, Init(start), actions).requests[id];
      && r.pc.Finished? && r.pc.out != Cancelled
      && k < |r.attempts| && r.attempts[k] == Answered(Status(code))
    ensures
      var s := Run(c, Init(start), actions);
      var r := s.requests[id];
      && (code / 100 == 4 && code != 408 && code != 429 ==> r.pc.out == Rejected(Status(code)))
      && (r.pc.out.Rejected? ==>
            var h := r.pc.out.header;
            h.Status? && h.code / 100 == 4 && h.code != 408 && h.code != 429)
      && ((if r.kind.Embeddings? then code / 100 == 2 else code / 100 != 4 && code / 100 != 5) ==>
            && k == |r.attempts| - 1
            && if r.kind.ChatStream? then r.pc.out == StreamOpened
               else r.pc.out.Served? && (id, r.pc.out.body) in s.answers)
  {
    hide Run, Follows;
    InitInv(start);
    RunKeepsInv(c, Init(start), actions);
    var s := Run(c, Init(start), actions);
    TrailAt(s, id);
    var r := s.requests[id];
    AnswerByStatus(r.kind, r.candidates, r.attempts, r.pc.out, k, code);
    if r.pc.out.Rejected? {
      RejectedByStatus(r.kind, r.candidates, r.attempts, r.pc.out.header);
    }
  }

  // Assuming no hash collisions, a body served from the cache was read from an upstream for
  // a request with the same model and payload that, like this one, was a plain chat at
  // temperature zero or below. That request was served with it or dropped afterwards.
  lemma HitsAreSound(c: Config, start: real, actions: seq<Action>, id: nat)
    requires id < |Run(c, Init(start), actions).requests|
    requires Run(c, Init(start), actions).requests[id].pc.Finished?
    requires Run(c, Init(start), actions).requests[id].pc.out.CacheHit?
    ensures
      var s := Run(c, Init(start), actions);
      IsCacheable(s.requests[id]) && exists i: nat :: Provides(s, i, id, s.requests[id].pc.out.body)
  {
    hide Run;
    InitInv(start);
    RunKeepsInv(c, Init(start), actions);
    var s := Run(c, Init(start), actions);
    var r := s.requests[id];
    TrailAt(s, id);
    var i: nat :| ReadUnder(s, i, KeyOf(r).value, r.pc.out.body);
    TrailAt(s, i);
    KeyInjective(s.requests[i].prompt.model, s.requests[i].prompt.payload, r.prompt.model, r.prompt.payload);
    assert AnswerOk(s, i, r.pc.out.body);
    assert Provides(s, i, id, r.pc.out.body);
  }

  predicate IsCacheable(r: Request) {
    r.kind.ChatUnary? && r.kind.temperature <= 0.0
  }

  // Request i read the body that request id is given, for the same model and payload.
  predicate Provides(s: System, i: nat, id: nat, body: Body)
    requires id < |s.requests|
  {
    && (i, body) in s.answers && AnswerOk(s, i, body)
    && IsCacheable(s.requests[i]) && s.requests[i].prompt == s.requests[id].prompt
  }

  function HashedText(p: Prompt): string {
    p.model + "\0" + p.payload
  }

  // Exactly the plain chats at temperature zero or below use the cache.
  lemma CacheableHasKey(r: Request)
    ensures IsCacheable(r) ==> KeyOf(r) == Some(HashedText(r.prompt))
    ensures !IsCacheable(r) ==> KeyOf(r) == None
  {
    if r.kind.ChatUnary? {
      KeyExactly(r.prompt.model, r.prompt.payload, r.kind.temperature);
    }
  }

  // Nothing is evicted from or stored under the key during the run.
  predicate Undisturbed(c: Config, s: System, key: string, actions: seq<Action>)
    decreases |actions|
  {
    actions == [] ||
    (&& !StoresOrEvicts(s, key, actions[0])
     && Undisturbed(c, Step(c, s, actions[0]), key, actions[1..]))
  }

  predicate StoresOrEvicts(s: System, key: string, a: Action) {
    match a
    case Evict(k) => k == key
    case Act(id, Read(Some(_), _)) =>
      id < |s.requests| && IsCacheable(s.requests[id]) && HashedText(s.requests[id].prompt) == key
    case _ => false
  }

  lemma StepKeepsEntry(c: Config, s: System, key: string, a: Action)
    requires key in s.cache && !StoresOrEvicts(s, key, a)
    ensures key in Step(c, s, a).cache && Step(c, s, a).cache[key] == s.cache[key]
  {
    hide MoveOn, ArriveStep, KeyOf, IsCacheable, HashedText;
    match a
    case Arrive(_, _, _, _) => ArriveFrame(c, s, a);
    case Act(id, m) =>
      if id < |s.requests| {
        Frame(c, s, id, m);
        if m.Read? {
          var r := s.requests[id];
          CacheableHasKey(r);
          if r.pc.ReadingBody? && r.attempts != [] && m.body.Some? {
            BodyRead(c, s, id, m.body.value, m.usage);
          } else {
            ReadIdle(c, s, id, m.body, m.usage);
          }
        }
      }
    case _ =>
  }

  lemma {:induction false} EntryStays(c: Config, s: System, key: string, actions: seq<Action>)
    requires key in s.cache && Undisturbed(c, s, key, actions)
    ensures key in Run(c, s, actions).cache && Run(c, s, actions).cache[key] == s.cache[key]
    decreases |actions|
  {
    hide Step;
    if actions != [] {
      StepKeepsEntry(c, s, key, actions[0]);
      EntryStays(c, Step(c, s, actions[0]), key, actions[1..]);
    }
  }

  // The cache is used: once a plain chat at temperature zero or below has read its body, a
  // later one with the same model and payload is answered with that body, without contacting
  // anybody, unless the entry was evicted or overwritten in between.
  lemma CacheServesLatest(c: Config, s: System, id: nat, text: Body, usage: Option<nat>, actions: seq<Action>,
                          later: nat)
    requires id < |s.requests| && s.requests[id].pc.ReadingBody? && s.requests[id].attempts != []
    requires IsCacheable(s.requests[id])
    requires
      var stored := MoveOn(c, s, id, Read(Some(text), usage));
      Undisturbed(c, stored, HashedText(s.requests[id].prompt), actions)
    requires
      var s' := Run(c, MoveOn(c, s, id, Read(Some(text), usage)), actions);
      && later < |s'.requests| && s'.requests[later].pc.Reserved?
      && IsCacheable(s'.requests[later]) && s'.requests[later].prompt == s.requests[id].prompt
    ensures
      var s' := Run(c, MoveOn(c, s, id, Read(Some(text), usage)), actions);
      MoveOn(c, s', later, Lookup).requests[later].pc == Settling(Some(0), CacheHit(text))
  {
    hide MoveOn, KeyOf, Undisturbed, Run, IsCacheable, HashedText;
    var stored := MoveOn(c, s, id, Read(Some(text), usage));
    CacheableHasKey(s.requests[id]);
    CacheableHasKey(Run(c, stored, actions).requests[later]);
    BodyRead(c, s, id, text, usage);
    EntryStays(c, stored, HashedText(s.requests[id].prompt), actions);
    LookupShape(c, Run(c, stored, actions), later);
  }

  // What is evicted is gone: then, and whenever the cache has nothing for it, a request goes
  // on to the upstreams.
  lemma MissGoesOn(c: Config, s: System, id: nat)
    requires id < |s.requests| && s.requests[id].pc.Reserved?
    ensures
      var s' := Step(c, s, Evict(HashedText(s.requests[id].prompt)));
      id < |s'.requests| && MoveOn(c, s', id, Lookup).requests[id].pc == Selecting
    ensures !IsCacheable(s.requests[id]) || HashedText(s.requests[id].prompt) !in s.cache ==>
              MoveOn(c, s, id, Lookup).requests[id].pc == Selecting
  {
    hide MoveOn, KeyOf, HashedText, IsCacheable;
    CacheableHasKey(s.requests[id]);
    LookupShape(c, s, id);
    LookupShape(c, Step(c, s, Evict(HashedText(s.requests[id].prompt))), id);
  }

  // ---- The last error -----------------------------------------------------------------------

  // When all candidates have failed, the error speaks of the last position that was
  // contacted, if any was.
  lemma LastErrorIsLastContact(kind: Kind, candidates: seq<Provider>, attempts: seq<Attempt>, lastError: Option<nat>)
    requires Follows(kind, candidates, attempts, AllFailed(lastError))
    ensures lastError.Some? ==>
              && lastError.value < |attempts| && !attempts[lastError.value].Denied?
              && forall k :: lastError.value < k < |attempts| ==> attempts[k].Denied?
    ensures lastError.None? ==> forall k :: 0 <= k < |attempts| ==> attempts[k].Denied?
  {
    hide FirstDecisive;
    LastContactedIs(attempts);
  }

  lemma {:induction false} LastContactedIs(attempts: seq<Attempt>)
    ensures LastContacted(attempts).Some? ==>
              && LastContacted(attempts).value < |attempts| && !attempts[LastContacted(attempts).value].Denied?
              && forall k :: LastContacted(attempts).value < k < |attempts| ==> attempts[k].Denied?
    ensures LastContacted(attempts).None? ==> forall k :: 0 <= k < |attempts| ==> attempts[k].Denied?
  {
    if attempts != [] && attempts[|attempts| - 1].Denied? {
      LastContactedIs(attempts[..|attempts| - 1]);
    }
  }
}
