// What each move changes and what it leaves alone, stated once for all later files.

module GatewayMoves {
  import opened Basics
  import opened Gateway
  import opened CircuitBreakers

  // ---- The life of a request --------------------------------------------------------

  // The points a move can take a handler to; every move may also leave it where it is.
  predicate PcStep(pc: Pc, m: Move, pc': Pc) {
    || pc' == pc
    || match m
       case Reserve => pc.Entered? && (pc'.Reserved? || (pc'.Finished? && pc'.out.RateLimited?))
       case Lookup => pc.Reserved? && (pc'.Selecting? || (pc'.Settling? && pc'.usage == Some(0) && pc'.out.CacheHit?))
       case Select => pc.Selecting? && (pc'.Choosing? || pc' == Unwinding(NoProviders))
       case Try => pc.Choosing? && (pc'.Sent? || (pc'.Unwinding? && pc'.out.AllFailed?))
       case Head(h) =>
         pc.Sent? && (pc'.Choosing? || pc' == Unwinding(Rejected(h)) || pc'.Streaming? || pc'.ReadingBody?)
       case Read(body, usage) =>
         && pc.ReadingBody?
         && (if body.None? then pc'.Choosing? || pc' == Unwinding(BodyLost)
             else pc' == Settling(usage, Served(body.value)))
       case Settle => pc.Settling? && pc' == Unwinding(pc.out)
       case ReportUsage(_) => false
       case StreamDone(_) => pc.Streaming? && pc' == Unwinding(StreamOpened)
       case Unwind => pc.Unwinding? && pc' == Finished(pc.out)
       case Cancel => CanCancel(pc) && pc' == Unwinding(Cancelled)
  }

  // The moves that leave the buckets and the reservation alone.
  predicate IsFree(m: Move) {
    m.Lookup? || m.Select? || m.Try? || m.Head? || m.Read? || m.StreamDone? || m.Cancel?
  }

  // The moves that may call a breaker.
  predicate MayCall(m: Move) {
    m.Try? || m.Head? || m.Read? || m.StreamDone?
  }

  predicate Framed(s: System, s': System, id: nat, m: Move)
    requires id < |s.requests| && |s'.requests| == |s.requests|
  {
    s'.now == s.now && s'.requests == s.requests[id := s'.requests[id]] && Keeps(s, s', id, m)
  }

  predicate Keeps(s: System, s': System, id: nat, m: Move)
    requires id < |s.requests| && |s'.requests| == |s.requests|
  {
    var r, r' := s.requests[id], s'.requests[id];
    && r'.client == r.client && r'.kind == r.kind && r'.prompt == r.prompt && r'.estimate == r.estimate
    && PcStep(r.pc, m, r'.pc)
    && (IsFree(m) ==> s'.accounts == s.accounts && r'.hold == r.hold && r'.usage == r.usage)
    && (!m.Read? ==> s'.cache == s.cache && s'.answers == s.answers)
    && (!m.Select? ==> r'.looks == r.looks && r'.candidates == r.candidates)
    && (!MayCall(m) ==> s'.providers == s.providers
                        && r'.owes == r.owes && r'.provider == r.provider && r'.attempts == r.attempts)
    && (!m.Try? ==> r'.provider == r.provider && r'.deadline == r.deadline)
  }

  lemma Frame(c: Config, s: System, id: nat, m: Move)
    requires id < |s.requests|
    ensures Framed(s, MoveOn(c, s, id, m), id, m)
  {
    hide Keeps, ReserveMove, LookupMove, SelectMove, TryMove, HeadMove, ReadMove, SettleMove, UsageMove;
    hide StreamDoneMove, UnwindMove, CancelMove;
    match m
    case Reserve => ReserveFrame(c, s, id);
    case Lookup => LookupFrame(c, s, id);
    case Select => SelectFrame(c, s, id);
    case Try => TryFrame(c, s, id);
    case Head(h) => HeadFrame(c, s, id, h);
    case Read(body, usage) => ReadFrame(c, s, id, body, usage);
    case Settle => SettleFrame(c, s, id);
    case ReportUsage(total) => UsageFrame(c, s, id, total);
    case StreamDone(broken) => StreamDoneFrame(c, s, id, broken);
    case Unwind => UnwindFrame(c, s, id);
    case Cancel => CancelFrame(s, id);
  }

  lemma ReserveFrame(c: Config, s: System, id: nat)
    requires id < |s.requests|
    ensures Keeps(s, ReserveMove(c, s, id, s.requests[id]), id, Reserve)
  {
    hide AccountOf, Buckets.TryConsume, TouchesOnly;
  }

  lemma LookupFrame(c: Config, s: System, id: nat)
    requires id < |s.requests|
    ensures Keeps(s, LookupMove(s, id, s.requests[id]), id, Lookup)
  {
    hide KeyOf, TouchesOnly;
  }

  lemma SelectFrame(c: Config, s: System, id: nat)
    requires id < |s.requests|
    ensures Keeps(s, SelectMove(c, s, id, s.requests[id]), id, Select)
  {
    hide Providers, ProviderOf, IsEligible, TouchesOnly;
  }

  lemma TryFrame(c: Config, s: System, id: nat)
    requires id < |s.requests|
    ensures Keeps(s, TryMove(c, s, id, s.requests[id]), id, Try)
  {
    hide Ask, LastContacted, ProviderOf, TouchesOnly;
  }

  lemma HeadFrame(c: Config, s: System, id: nat, h: Header)
    requires id < |s.requests|
    ensures Keeps(s, HeadMove(c, s, id, s.requests[id], h), id, Head(h))
  {
    hide ReportHead, OpenAt, CountsAsFailure, IsRejection, IsAcceptance, Classify, ProviderOf, TouchesOnly;
  }

  lemma ReadFrame(c: Config, s: System, id: nat, body: Option<Body>, usage: Option<nat>)
    requires id < |s.requests|
    ensures Keeps(s, ReadMove(c, s, id, s.requests[id], body, usage), id, Read(body, usage))
  {
    hide ReportFailure, KeyOf, ProviderOf, TouchesOnly;
  }

  lemma SettleFrame(c: Config, s: System, id: nat)
    requires id < |s.requests|
    ensures Keeps(s, SettleMove(c, s, id, s.requests[id]), id, Settle)
  {
    hide AccountOf, Buckets.Reconcile, TouchesOnly;
  }

  lemma UsageFrame(c: Config, s: System, id: nat, total: nat)
    requires id < |s.requests|
    ensures Keeps(s, UsageMove(c, s, id, s.requests[id], total), id, ReportUsage(total))
  {
    hide AccountOf, Buckets.Reconcile, TouchesOnly;
  }

  lemma StreamDoneFrame(c: Config, s: System, id: nat, broken: bool)
    requires id < |s.requests|
    ensures Keeps(s, StreamDoneMove(c, s, id, s.requests[id], broken), id, StreamDone(broken))
  {
    hide ReportFailure, ProviderOf, TouchesOnly;
  }

  lemma UnwindFrame(c: Config, s: System, id: nat)
    requires id < |s.requests|
    ensures Keeps(s, UnwindMove(c, s, id, s.requests[id]), id, Unwind)
  {
    hide AccountOf, Buckets.Refund, TouchesOnly;
  }

  lemma CancelFrame(s: System, id: nat)
    requires id < |s.requests|
    ensures Keeps(s, CancelMove(s, id, s.requests[id]), id, Cancel)
  {
    hide TouchesOnly;
  }

  // ---- Calls on breakers --------------------------------------------------------------

  datatype Call = Call(to: Provider, event: Event)

  predicate HasNext(r: Request) {
    r.pc.Choosing? && |r.attempts| < |r.candidates|
  }

  function Next(r: Request): Provider
    requires HasNext(r)
  {
    r.candidates[|r.attempts|]
  }

  // The call a move makes, if it makes one.
  function CallOf(s: System, r: Request, m: Move): Option<Call> {
    match m
    case Try => if HasNext(r) then Some(Call(Next(r), Asked(s.now))) else None
    case Head(h) =>
      if !r.pc.Sent? then None
      else Some(Call(r.provider, if CountsAsFailure(r.kind, h) then Failed(s.now) else Succeeded(s.now)))
    case Read(None, _) =>
      if r.pc.ReadingBody? && r.attempts != [] then Some(Call(r.provider, Failed(s.now))) else None
    case StreamDone(true) => if r.pc.Streaming? then Some(Call(r.provider, Failed(s.now))) else None
    case _ => None
  }

  // A call is one event for one breaker; nothing else happens to any breaker.
  ghost predicate Called(c: Config, s: System, s': System, call: Option<Call>) {
    match call
    case None => forall n :: ProviderOf(s', n) == ProviderOf(s, n)
    case Some(Call(to, e)) =>
      && ProviderOf(s', to).breaker == After(c.breaker, ProviderOf(s, to).breaker, e)
      && ProviderOf(s', to).history == ProviderOf(s, to).history + [e]
      && forall n :: n != to ==> ProviderOf(s', n) == ProviderOf(s, n)
  }

  // Only responses whose headers have come in count for these two.
  ghost predicate KeepsPeak(s: System, s': System) {
    forall n :: ProviderOf(s', n).peak == ProviderOf(s, n).peak
                && ProviderOf(s', n).earlyFailures == ProviderOf(s, n).earlyFailures
  }

  // Those that fail to come count as early failures.
  ghost predicate CountsEarly(s: System, s': System, r: Request, h: Header) {
    forall n ::
      ProviderOf(s', n).earlyFailures ==
      ProviderOf(s, n).earlyFailures + (if r.pc.Sent? && r.provider == n && CountsAsFailure(r.kind, h) then 1 else 0)
  }

  lemma HeadEarly(c: Config, s: System, id: nat, h: Header)
    requires id < |s.requests|
    ensures CountsEarly(s, MoveOn(c, s, id, Head(h)), s.requests[id], h)
  {
    hide RecordFailure, RecordSuccess, OpenAt, CountsAsFailure, IsRejection, IsAcceptance, Classify;
    hide PcAfterHead, TouchesOnly;
    VerdictByStatus(s.requests[id].kind, h);
  }

  lemma Calls(c: Config, s: System, id: nat, m: Move)
    requires id < |s.requests|
    ensures Called(c, s, MoveOn(c, s, id, m), CallOf(s, s.requests[id], m))
    ensures !m.Head? ==> KeepsPeak(s, MoveOn(c, s, id, m))
  {
    if MayCall(m) {
      hide Called, KeepsPeak, CallOf, TouchesOnly, TryMove, HeadMove, ReadMove, StreamDoneMove;
      match m
      case Try => TryCalls(c, s, id);
      case Head(h) => HeadCalls(c, s, id, h);
      case Read(body, usage) => ReadCalls(c, s, id, body, usage);
      case StreamDone(broken) => StreamDoneCalls(c, s, id, broken);
    } else {
      hide MoveOn;
      Frame(c, s, id, m);
    }
  }

  lemma TryCalls(c: Config, s: System, id: nat)
    requires id < |s.requests|
    ensures Called(c, s, TryMove(c, s, id, s.requests[id]), CallOf(s, s.requests[id], Try))
    ensures KeepsPeak(s, TryMove(c, s, id, s.requests[id]))
  {
    hide AllowRequest, LastContacted, TouchesOnly;
  }

  lemma HeadCalls(c: Config, s: System, id: nat, h: Header)
    requires id < |s.requests|
    ensures Called(c, s, HeadMove(c, s, id, s.requests[id], h), CallOf(s, s.requests[id], Head(h)))
  {
    hide RecordFailure, RecordSuccess, OpenAt, CountsAsFailure, IsRejection, IsAcceptance, Classify;
    hide PcAfterHead, TouchesOnly;
    VerdictByStatus(s.requests[id].kind, h);
  }

  lemma ReadCalls(c: Config, s: System, id: nat, body: Option<Body>, usage: Option<nat>)
    requires id < |s.requests|
    ensures Called(c, s, ReadMove(c, s, id, s.requests[id], body, usage), CallOf(s, s.requests[id], Read(body, usage)))
    ensures KeepsPeak(s, ReadMove(c, s, id, s.requests[id], body, usage))
  {
    hide RecordFailure, KeyOf, TouchesOnly;
  }

  lemma StreamDoneCalls(c: Config, s: System, id: nat, broken: bool)
    requires id < |s.requests|
    ensures Called(c, s, StreamDoneMove(c, s, id, s.requests[id], broken),
                   CallOf(s, s.requests[id], StreamDone(broken)))
    ensures KeepsPeak(s, StreamDoneMove(c, s, id, s.requests[id], broken))
  {
    hide RecordFailure, TouchesOnly;
  }

  // ---- What the calling moves do to the request -----------------------------------------

  lemma TryShape(c: Config, s: System, id: nat)
    requires id < |s.requests|
    ensures
      var r, s' := s.requests[id], MoveOn(c, s, id, Try);
      var r' := s'.requests[id];
      if HasNext(r) then
        var n := Next(r);
        var allowed := AllowRequest(c.breaker, ProviderOf(s, n).breaker, s.now).1;
        && r'.attempts == (if allowed then r.attempts else r.attempts + [Denied])
        && r'.pc == (if allowed then Sent else Choosing)
        && (if allowed then
              && r'.provider == n && r'.deadline == s.now + Timeout(c, n) as real
              && r'.owes.Some? && r'.owes.value.to == n
            else r'.provider == r.provider && r'.deadline == r.deadline && r'.owes == r.owes)
      else
        && r'.attempts == r.attempts && r'.provider == r.provider && r'.deadline == r.deadline
        && r'.owes == r.owes
        && r'.pc == (if r.pc.Choosing? then Unwinding(AllFailed(LastContacted(r.attempts))) else r.pc)
  {
    hide AllowRequest, LastContacted, TouchesOnly;
  }

  lemma HeadShape(c: Config, s: System, id: nat, h: Header)
    requires id < |s.requests|
    ensures
      var r, r' := s.requests[id], MoveOn(c, s, id, Head(h)).requests[id];
      if !r.pc.Sent? then r' == r
      else
        && r'.attempts == r.attempts + [Answered(h)] && r'.owes.None?
        && (CountsAsFailure(r.kind, h) ==> r'.pc == Choosing)
        && (IsRejection(h) ==> r'.pc == Unwinding(Rejected(h)))
        && (IsAcceptance(r.kind, h) ==> r'.pc == if r.kind.ChatStream? then Streaming else ReadingBody)
        && (CountsAsFailure(r.kind, h) || IsRejection(h) || IsAcceptance(r.kind, h))
  {
    VerdictByStatus(s.requests[id].kind, h);
    hide ReportHead, OpenAt, CountsAsFailure, IsRejection, IsAcceptance, Classify, TouchesOnly, ProviderOf;
  }

  lemma ReadShape(c: Config, s: System, id: nat, body: Option<Body>, usage: Option<nat>)
    requires id < |s.requests|
    ensures
      var r, r' := s.requests[id], MoveOn(c, s, id, Read(body, usage)).requests[id];
      if !r.pc.ReadingBody? || r.attempts == [] then r' == r
      else
        var before, last := r.attempts[..|r.attempts| - 1], r.attempts[|r.attempts| - 1];
        && r'.owes == r.owes
        && match body
           case Some(text) => r'.attempts == r.attempts && r'.pc == Settling(usage, Served(text))
           case None =>
             && (last.Answered? ==> r'.attempts == before + [BodyBroken(last.header)])
             && |r'.attempts| == |r.attempts|
             && r'.pc == if r.kind.Embeddings? then Unwinding(BodyLost) else Choosing
  {
    hide ReportFailure, KeyOf, TouchesOnly, ProviderOf;
  }

  lemma StreamDoneShape(c: Config, s: System, id: nat, broken: bool)
    requires id < |s.requests|
    ensures
      var r, r' := s.requests[id], MoveOn(c, s, id, StreamDone(broken)).requests[id];
      r' == if !r.pc.Streaming? then r
            else r.(pc := Unwinding(StreamOpened), attempts := if broken then LoseLast(r.attempts) else r.attempts)
  {
    hide ReportFailure, TouchesOnly, ProviderOf;
  }

  // ---- Other steps ------------------------------------------------------------------------

  // An arrival adds at most one request, at the end, and touches no breaker.
  lemma ArriveFrame(c: Config, s: System, a: Action)
    requires a.Arrive?
    ensures
      var s' := Step(c, s, a);
      && s'.now == s.now && s'.providers == s.providers && s'.cache == s.cache && s'.answers == s.answers
      && (s' == s || (|s'.requests| == |s.requests| + 1 && s'.requests[..|s.requests|] == s.requests
                      && var r := s'.requests[|s.requests|];
                         && r.client == a.client && r.kind == a.kind && r.prompt == a.prompt
                         && r.estimate == a.estimate >= 0.0
                         && r.looks == [] && r.candidates == [] && r.attempts == [] && r.owes.None?
                         && r.hold.NotReserved? && r.usage.None?
                         && (r.pc.Entered? || (r.pc.Finished? && r.pc.out.RateLimited?))))
  {
    hide AccountOf, Buckets.TryConsume;
  }

  // Requests are only ever added, clocks only advance.
  lemma StepGrows(c: Config, s: System, a: Action)
    ensures Step(c, s, a).now >= s.now && |Step(c, s, a).requests| >= |s.requests|
    ensures forall id :: 0 <= id < |s.requests| && !(a.Act? && a.id == id) ==>
                           Step(c, s, a).requests[id] == s.requests[id]
  {
    hide MoveOn, ArriveStep;
    if a.Arrive? {
      ArriveFrame(c, s, a);
    } else if a.Act? && a.id < |s.requests| {
      Frame(c, s, a.id, a.move);
    }
  }
}
