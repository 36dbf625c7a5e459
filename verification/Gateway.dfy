// The gateway as a transition system: any number of requests run the handlers of
// src/handlers/chat.rs and src/handlers/embeddings.rs side by side over shared
// breakers, rate-limit buckets and the exact cache.
//
// A move is one critical section of one shared object, or one result of the network.
// What the network answers, how requests interleave, when the clock advances, which
// handlers are dropped by a departing client and what the cache evicts are all left
// open: they are the actions of a run. An action that is not possible in a state
// leaves the state alone, so a run is any sequence of actions.

module Gateway {
  import opened Basics
  import opened ExactCache
  import opened FailoverOrder
  import Buckets = TokenBuckets
  import Breakers = CircuitBreakers

  type Provider = string
  type Client = string
  type Body = string

  datatype ProviderConfig = ProviderConfig(name: Provider, priority: nat, requestTimeoutSeconds: nat)

  datatype Config = Config(configured: seq<ProviderConfig>, breaker: Breakers.Settings, rpm: nat, tpm: nat)

  // What `validate` has established before the first request.
  predicate Validated(c: Config) {
    && c.configured != [] && c.rpm > 0 && c.tpm > 0
    && forall i :: 0 <= i < |c.configured| ==> c.configured[i].requestTimeoutSeconds > 0
  }

  // How long a request to n may take, headers and body or stream together: the longest
  // time configured under that name.
  function Timeout(c: Config, n: Provider): nat {
    LongestTimeout(c.configured, n)
  }

  function LongestTimeout(configured: seq<ProviderConfig>, n: Provider): nat {
    if configured == [] then 0
    else
      var longest := LongestTimeout(configured[1..], n);
      if configured[0].name == n && configured[0].requestTimeoutSeconds > longest
      then configured[0].requestTimeoutSeconds
      else longest
  }

  function Priorities(c: Config): (r: seq<nat>)
    ensures |r| == |c.configured| && forall i :: 0 <= i < |r| ==> r[i] == c.configured[i].priority
  {
    seq(|c.configured|, i requires 0 <= i < |c.configured| => c.configured[i].priority)
  }

  // The names in failover order, sorted once at start-up.
  function Providers(c: Config): (names: seq<Provider>)
    ensures |names| == |c.configured|
    ensures forall k :: 0 <= k < |names| ==> names[k] == c.configured[Sorted(Priorities(c))[k]].name
  {
    var order := Sorted(Priorities(c));
    seq(|order|, k requires 0 <= k < |order| => c.configured[order[k]].name)
  }

  // No longer than needed, and long enough for every provider of that name.
  lemma {:induction false} TimeoutIsLongest(configured: seq<ProviderConfig>, n: Provider)
    ensures forall i :: 0 <= i < |configured| && configured[i].name == n ==>
                          configured[i].requestTimeoutSeconds <= LongestTimeout(configured, n)
    ensures
      || LongestTimeout(configured, n) == 0
      || exists i :: 0 <= i < |configured| && configured[i] ==
                       ProviderConfig(n, configured[i].priority, LongestTimeout(configured, n))
  {
    if configured != [] {
      TimeoutIsLongest(configured[1..], n);
      assert forall i :: 0 < i < |configured| ==> configured[i] == configured[1..][i - 1];
      if LongestTimeout(configured[1..], n) == LongestTimeout(configured, n) != 0 {
        var i :| 0 <= i < |configured[1..]| && configured[1..][i] ==
                   ProviderConfig(n, configured[1..][i].priority, LongestTimeout(configured[1..], n));
        assert configured[i + 1] == ProviderConfig(n, configured[i + 1].priority, LongestTimeout(configured, n));
      }
    }
  }

  // ---- Requests -------------------------------------------------------------------

  datatype Prompt = Prompt(model: string, payload: string)

  datatype Kind = ChatUnary(temperature: real) | ChatStream | Embeddings

  datatype Header = ConnectError | Status(code: nat)

  datatype Verdict = Retry | Reject | Accept

  // What became of one position of the candidate list.
  datatype Attempt = Denied | Answered(header: Header) | BodyBroken(header: Header)

  datatype Outcome =
    | RateLimited(retryAfter: nat)
    | CacheHit(body: Body)
    | NoProviders
    | Rejected(header: Header)
    | Served(body: Body)
    | StreamOpened
    | BodyLost
    | AllFailed(lastError: Option<nat>)
    | Cancelled

  datatype Pc =
    | Entered                                     // past the RPM middleware
    | Reserved                                    // holds a TPM reservation
    | Selecting
    | Choosing                                    // about to try the next candidate
    | Sent                                        // waiting for response headers
    | ReadingBody
    | Settling(usage: Option<nat>, out: Outcome)  // about to reconcile
    | Streaming
    | Unwinding(out: Outcome)                     // locals are about to be dropped
    | Finished(out: Outcome)

  // The TPM reservation of a request, with what it was finally charged.
  datatype Hold = NotReserved | Held(amount: real) | Settled(amount: real, charge: real)

  // A report owed to a breaker by an admitted attempt; `probe` is the half-open
  // episode that admitted it, if one did.
  datatype Debt = Debt(to: Provider, probe: Option<nat>)

  // A breaker read while the candidates are collected: when, how many calls it had seen by
  // then, and what it said.
  datatype Look = Look(at: real, calls: nat, eligible: bool)

  datatype Request = Request(
    client: Client, kind: Kind, prompt: Prompt, estimate: real,
    looks: seq<Look>, candidates: seq<Provider>, attempts: seq<Attempt>, provider: Provider,
    deadline: real, pc: Pc, owes: Option<Debt>, hold: Hold, usage: Option<nat>)

  function IsRetryableStatus(code: nat): bool {
    500 <= code < 600 || code == 429 || code == 408
  }

  function IsNonRetryableClientError(code: nat): bool {
    400 <= code < 500 && code != 429 && code != 408
  }

  function Classify(kind: Kind, h: Header): Verdict {
    if h.ConnectError? || IsRetryableStatus(h.code) then Retry
    else if IsNonRetryableClientError(h.code) then Reject
    else if kind.Embeddings? && !(200 <= h.code < 300) then Retry
    else Accept
  }

  // The three verdicts by the status number alone. 5xx, 429, 408 and connection errors count
  // against the provider, and for embeddings so does anything else but 2xx and 4xx.
  predicate CountsAsFailure(kind: Kind, h: Header) {
    match h
    case ConnectError => true
    case Status(code) =>
      || code / 100 == 5 || code == 429 || code == 408
      || (kind.Embeddings? && code / 100 != 2 && code / 100 != 4)
  }

  // Every other 4xx speaks against the request, 401 and 403 included.
  predicate IsRejection(h: Header) {
    h.Status? && h.code / 100 == 4 && h.code != 429 && h.code != 408
  }

  // Embeddings takes 2xx for an answer, chat whatever is neither 4xx nor 5xx.
  predicate IsAcceptance(kind: Kind, h: Header) {
    h.Status? && if kind.Embeddings? then h.code / 100 == 2 else h.code / 100 != 4 && h.code / 100 != 5
  }

  lemma VerdictByStatus(kind: Kind, h: Header)
    ensures Classify(kind, h) == Retry <==> CountsAsFailure(kind, h)
    ensures Classify(kind, h) == Reject <==> IsRejection(h)
    ensures Classify(kind, h) == Accept <==> IsAcceptance(kind, h)
  {
    if h.Status? {
      assert h.code / 100 == 5 <==> 500 <= h.code < 600;
      assert h.code / 100 == 4 <==> 400 <= h.code < 500;
      assert h.code / 100 == 2 <==> 200 <= h.code < 300;
    }
  }

  // Neither streams nor embeddings use the cache.
  function CacheKey(kind: Kind, prompt: Prompt): Option<string> {
    if kind.ChatUnary? then ComputeKey(prompt.model, prompt.payload, kind.temperature) else None
  }

  function KeyOf(r: Request): Option<string> {
    CacheKey(r.kind, r.prompt)
  }

  // The position `last_error` speaks of: the last one that was contacted.
  function LastContacted(attempts: seq<Attempt>): Option<nat> {
    if attempts == [] then None
    else if !attempts[|attempts| - 1].Denied? then Some(|attempts| - 1)
    else LastContacted(attempts[..|attempts| - 1])
  }

  // ---- Shared state ----------------------------------------------------------------

  // Besides the breaker, what has happened to it: the history of calls, the number of
  // half-open episodes and when the latest began, the failures reported before any
  // header, and the largest number of responses (streams or bodies) open at once.
  datatype ProviderState = ProviderState(
    breaker: Breakers.Breaker, history: seq<Breakers.Event>, episode: nat, openedAt: real,
    earlyFailures: nat, peak: nat)

  const FRESH_PROVIDER := ProviderState(Breakers.FRESH, [], 0, 0.0, 0, 0)

  datatype Account = Account(born: real, rpm: Buckets.Bucket, tpm: Buckets.Bucket)

  // `answers` records every body an upstream gave, with the number of the request it
  // answered.
  datatype System = System(
    now: real, providers: map<Provider, ProviderState>, accounts: map<Client, Account>,
    cache: map<string, Body>, answers: set<(nat, Body)>, requests: seq<Request>)

  function Init(now: real): System {
    System(now, map[], map[], map[], {}, [])
  }

  // One breaker per name, made on first use and never replaced.
  function ProviderOf(s: System, n: Provider): ProviderState {
    if n in s.providers then s.providers[n] else FRESH_PROVIDER
  }

  function Rpm(c: Config): Buckets.Params {
    Buckets.PerMinute(c.rpm)
  }

  function Tpm(c: Config): Buckets.Params {
    Buckets.PerMinute(c.tpm)
  }

  function AccountOf(c: Config, s: System, client: Client): Account {
    if client in s.accounts then s.accounts[client]
    else Account(s.now, Buckets.FullAt(Rpm(c), s.now), Buckets.FullAt(Tpm(c), s.now))
  }

  function Put(s: System, id: nat, r: Request): System
    requires id < |s.requests|
  {
    s.(requests := s.requests[id := r])
  }

  function PutProvider(s: System, n: Provider, p: ProviderState): System {
    s.(providers := s.providers[n := p])
  }

  function PutTpm(c: Config, s: System, client: Client, tpm: Buckets.Bucket): System {
    s.(accounts := s.accounts[client := AccountOf(c, s, client).(tpm := tpm)])
  }

  // Responses from n whose headers are in and whose body or stream is still open.
  predicate IsOpenAt(r: Request, n: Provider) {
    (r.pc.ReadingBody? || r.pc.Streaming?) && r.provider == n
  }

  function OpenAt(n: Provider, requests: seq<Request>): nat {
    if requests == [] then 0
    else (if IsOpenAt(requests[0], n) then 1 else 0) + OpenAt(n, requests[1..])
  }

  function Ask(c: Config, p: ProviderState, now: real): (ProviderState, bool) {
    var (b, allowed) := Breakers.AllowRequest(c.breaker, p.breaker, now);
    var begins := p.breaker.mode == Breakers.Open && allowed;
    (p.(breaker := b,
        history := p.history + [Breakers.Asked(now)],
        episode := if begins then p.episode + 1 else p.episode,
        openedAt := if begins then now else p.openedAt),
     allowed)
  }

  function ReportSuccess(p: ProviderState, now: real): ProviderState {
    p.(breaker := Breakers.RecordSuccess(p.breaker), history := p.history + [Breakers.Succeeded(now)])
  }

  function ReportFailure(c: Config, p: ProviderState, now: real, early: bool): ProviderState {
    p.(breaker := Breakers.RecordFailure(c.breaker, p.breaker, now),
       history := p.history + [Breakers.Failed(now)],
       earlyFailures := if early then p.earlyFailures + 1 else p.earlyFailures)
  }

  // ---- Moves of one handler -----------------------------------------------------------

  datatype Move =
    | Reserve
    | Lookup
    | Select
    | Try
    | Head(header: Header)
    | Read(body: Option<Body>, usage: Option<nat>)
    | Settle
    | ReportUsage(total: nat)
    | StreamDone(broken: bool)
    | Unwind
    | Cancel

  // A move changes no request but its own, and takes no time.
  predicate TouchesOnly(s: System, s': System, id: nat) {
    && s'.now == s.now && |s'.requests| == |s.requests|
    && forall i :: 0 <= i < |s.requests| && i != id ==> s'.requests[i] == s.requests[i]
  }

  function ReserveMove(c: Config, s: System, id: nat, r: Request): (s': System)
    requires id < |s.requests|
    ensures TouchesOnly(s, s', id)
  {
    if !r.pc.Entered? then s
    else
      var (tpm, answer) := Buckets.TryConsume(Tpm(c), AccountOf(c, s, r.client).tpm, r.estimate, s.now);
      PutTpm(c, Put(s, id, match answer
                           case Granted => r.(pc := Reserved, hold := Held(r.estimate))
                           case Refused(t) => r.(pc := Finished(RateLimited(t)))),
             r.client, tpm)
  }

  function LookupMove(s: System, id: nat, r: Request): (s': System)
    requires id < |s.requests|
    ensures TouchesOnly(s, s', id)
  {
    if !r.pc.Reserved? then s
    else if KeyOf(r).Some? && KeyOf(r).value in s.cache then
      Put(s, id, r.(pc := Settling(Some(0), CacheHit(s.cache[KeyOf(r).value]))))
    else Put(s, id, r.(pc := Selecting))
  }

  // `select_ordered` reads one breaker after another while other requests run.
  function SelectMove(c: Config, s: System, id: nat, r: Request): (s': System)
    requires id < |s.requests|
    ensures TouchesOnly(s, s', id)
  {
    if !r.pc.Selecting? then s
    else if |r.looks| < |Providers(c)| then
      var n := Providers(c)[|r.looks|];
      var p := ProviderOf(s, n);
      var eligible := Breakers.IsEligible(c.breaker, p.breaker, s.now);
      Put(s, id, r.(looks := r.looks + [Look(s.now, |p.history|, eligible)],
                    candidates := if eligible then r.candidates + [n] else r.candidates))
    else Put(s, id, r.(pc := if r.candidates == [] then Unwinding(NoProviders) else Choosing))
  }

  function TryMove(c: Config, s: System, id: nat, r: Request): (s': System)
    requires id < |s.requests|
    ensures TouchesOnly(s, s', id)
  {
    if !r.pc.Choosing? then s
    else if |r.attempts| >= |r.candidates| then
      Put(s, id, r.(pc := Unwinding(AllFailed(LastContacted(r.attempts)))))
    else
      var n := r.candidates[|r.attempts|];
      var (p, allowed) := Ask(c, ProviderOf(s, n), s.now);
      var r' :=
        if allowed then
          r.(pc := Sent, provider := n, deadline := s.now + Timeout(c, n) as real,
             owes := Some(Debt(n, if p.breaker.mode == Breakers.HalfOpen then Some(p.episode) else None)))
        else r.(attempts := r.attempts + [Denied]);
      PutProvider(Put(s, id, r'), n, p)
  }

  function PcAfterHead(kind: Kind, h: Header): Pc {
    match Classify(kind, h)
    case Retry => Choosing
    case Reject => Unwinding(Rejected(h))
    case Accept => if kind.ChatStream? then Streaming else ReadingBody
  }

  // `open` responses are open at the provider afterwards.
  function ReportHead(c: Config, p: ProviderState, kind: Kind, h: Header, now: real, open: nat): ProviderState {
    match Classify(kind, h)
    case Retry => ReportFailure(c, p, now, true)
    case Reject => ReportSuccess(p, now)
    case Accept => ReportSuccess(p, now).(peak := if open > p.peak then open else p.peak)
  }

  function HeadMove(c: Config, s: System, id: nat, r: Request, h: Header): (s': System)
    requires id < |s.requests|
    ensures TouchesOnly(s, s', id)
  {
    if !r.pc.Sent? then s
    else
      var r' := r.(attempts := r.attempts + [Answered(h)], owes := None, pc := PcAfterHead(r.kind, h));
      var answered := Put(s, id, r');
      var open := OpenAt(r.provider, answered.requests);
      PutProvider(answered, r.provider, ReportHead(c, ProviderOf(s, r.provider), r.kind, h, s.now, open))
  }

  // The last position, once its body or stream has been lost.
  function LoseLast(attempts: seq<Attempt>): (lost: seq<Attempt>)
    ensures |lost| == |attempts|
  {
    if attempts == [] then []
    else
      var last := attempts[|attempts| - 1];
      attempts[..|attempts| - 1] + [if last.Answered? then BodyBroken(last.header) else last]
  }

  // A body that cannot be read makes chat try the next provider but ends embeddings.
  function ReadMove(c: Config, s: System, id: nat, r: Request, body: Option<Body>, usage: Option<nat>): (s': System)
    requires id < |s.requests|
    ensures TouchesOnly(s, s', id)
  {
    if !r.pc.ReadingBody? || r.attempts == [] then s
    else
      match body
      case None =>
        var r' := r.(attempts := LoseLast(r.attempts),
                     pc := if r.kind.Embeddings? then Unwinding(BodyLost) else Choosing);
        PutProvider(Put(s, id, r'), r.provider, ReportFailure(c, ProviderOf(s, r.provider), s.now, false))
      case Some(text) =>
        Put(s, id, r.(pc := Settling(usage, Served(text)))).(
          cache := if KeyOf(r).Some? then s.cache[KeyOf(r).value := text] else s.cache,
          answers := s.answers + {(id, text)})
  }

  function Reconciled(c: Config, s: System, id: nat, r: Request, total: nat, pc: Pc): (s': System)
    requires id < |s.requests| && r.hold.Held?
    ensures TouchesOnly(s, s', id)
  {
    var (tpm, charge) :=
      Buckets.Reconcile(Tpm(c), AccountOf(c, s, r.client).tpm, r.hold.amount, total as real, s.now);
    PutTpm(c, Put(s, id, r.(pc := pc, hold := Settled(r.hold.amount, charge), usage := Some(total))), r.client, tpm)
  }

  function SettleMove(c: Config, s: System, id: nat, r: Request): (s': System)
    requires id < |s.requests|
    ensures TouchesOnly(s, s', id)
  {
    if !r.pc.Settling? || !r.hold.Held? then s
    else if r.pc.usage.None? then Put(s, id, r.(pc := Unwinding(r.pc.out)))
    else Reconciled(c, s, id, r, r.pc.usage.value, Unwinding(r.pc.out))
  }

  // The usage callback of a stream owns the reservation and runs at most once.
  function UsageMove(c: Config, s: System, id: nat, r: Request, total: nat): (s': System)
    requires id < |s.requests|
    ensures TouchesOnly(s, s', id)
  {
    if !r.pc.Streaming? || !r.hold.Held? then s
    else Reconciled(c, s, id, r, total, Streaming)
  }

  // A stream ends normally, breaks, stalls, or is dropped by the client; only a break or
  // a stall is reported.
  function StreamDoneMove(c: Config, s: System, id: nat, r: Request, broken: bool): (s': System)
    requires id < |s.requests|
    ensures TouchesOnly(s, s', id)
  {
    if !r.pc.Streaming? then s
    else
      var r' := r.(pc := Unwinding(StreamOpened));
      if !broken then Put(s, id, r')
      else PutProvider(Put(s, id, r'.(attempts := LoseLast(r.attempts))), r.provider,
                       ReportFailure(c, ProviderOf(s, r.provider), s.now, false))
  }

  // `Drop` of the reservation handle, or of the callback that owns it.
  function UnwindMove(c: Config, s: System, id: nat, r: Request): (s': System)
    requires id < |s.requests|
    ensures TouchesOnly(s, s', id)
  {
    if !r.pc.Unwinding? then s
    else if r.hold.Held? then
      var tpm := Buckets.Refund(Tpm(c), AccountOf(c, s, r.client).tpm, r.hold.amount, s.now);
      PutTpm(c, Put(s, id, r.(pc := Finished(r.pc.out), hold := Settled(r.hold.amount, 0.0))), r.client, tpm)
    else Put(s, id, r.(pc := Finished(r.pc.out)))
  }

  // A departing client makes the server drop the handler's future. The points allowed
  // here include every await.
  predicate CanCancel(pc: Pc) {
    !pc.Streaming? && !pc.Unwinding? && !pc.Finished?
  }

  function CancelMove(s: System, id: nat, r: Request): (s': System)
    requires id < |s.requests|
    ensures TouchesOnly(s, s', id)
  {
    if CanCancel(r.pc) then Put(s, id, r.(pc := Unwinding(Cancelled))) else s
  }

  // Every await is such a point: the two on the cache, the one for headers, and the one for
  // the body.
  lemma EveryAwaitCanBeDropped(s: System, id: nat)
    requires id < |s.requests|
    requires
      var pc := s.requests[id].pc;
      pc.Reserved? || pc.Sent? || pc.ReadingBody? || pc.Settling?
    ensures CancelMove(s, id, s.requests[id]).requests[id] == s.requests[id].(pc := Unwinding(Cancelled))
  {
  }

  function MoveOn(c: Config, s: System, id: nat, m: Move): (s': System)
    requires id < |s.requests|
    ensures TouchesOnly(s, s', id)
  {
    var r := s.requests[id];
    match m
    case Reserve => ReserveMove(c, s, id, r)
    case Lookup => LookupMove(s, id, r)
    case Select => SelectMove(c, s, id, r)
    case Try => TryMove(c, s, id, r)
    case Head(h) => HeadMove(c, s, id, r, h)
    case Read(body, usage) => ReadMove(c, s, id, r, body, usage)
    case Settle => SettleMove(c, s, id, r)
    case ReportUsage(total) => UsageMove(c, s, id, r, total)
    case StreamDone(broken) => StreamDoneMove(c, s, id, r, broken)
    case Unwind => UnwindMove(c, s, id, r)
    case Cancel => CancelMove(s, id, r)
  }

  // ---- Runs ---------------------------------------------------------------------------

  datatype Action =
    | Tick(seconds: real)
    | Evict(key: string)
    | Arrive(client: Client, kind: Kind, prompt: Prompt, estimate: real)
    | Act(id: nat, move: Move)

  // The RPM middleware. Cost estimates are never negative, and the payload is the JSON
  // text the handler serializes.
  function ArriveStep(c: Config, s: System, client: Client, kind: Kind, prompt: Prompt, estimate: real): System {
    if estimate < 0.0 || !IsJsonText(prompt.payload) then s
    else
      var account := AccountOf(c, s, client);
      var (rpm, answer) := Buckets.TryConsume(Rpm(c), account.rpm, 1.0, s.now);
      var pc := match answer case Granted => Entered case Refused(t) => Finished(RateLimited(t));
      s.(accounts := s.accounts[client := account.(rpm := rpm)],
         requests := s.requests
           + [Request(client, kind, prompt, estimate, [], [], [], "", 0.0, pc, None, NotReserved, None)])
  }

  predicate Waits(r: Request) {
    r.pc.Sent? || r.pc.ReadingBody? || r.pc.Streaming?
  }

  // The HTTP client gives up on a request when its time is over: headers fail to come, a
  // body cannot be read, a stream breaks. So the clock never passes the deadline of a
  // request that is still waiting.
  predicate MayPass(s: System, t: real) {
    forall id :: 0 <= id < |s.requests| && Waits(s.requests[id]) ==> t <= s.requests[id].deadline
  }

  function Step(c: Config, s: System, a: Action): System {
    match a
    case Tick(d) => if d > 0.0 && MayPass(s, s.now + d) then s.(now := s.now + d) else s
    case Evict(key) => s.(cache := s.cache - {key})
    case Arrive(client, kind, prompt, estimate) => ArriveStep(c, s, client, kind, prompt, estimate)
    case Act(id, m) => if id < |s.requests| then MoveOn(c, s, id, m) else s
  }

  function Run(c: Config, s: System, actions: seq<Action>): System
    decreases |actions|
  {
    if actions == [] then s else Run(c, Step(c, s, actions[0]), actions[1..])
  }

  lemma {:induction false} RunAppend(c: Config, s: System, a: seq<Action>, b: seq<Action>)
    ensures Run(c, s, a + b) == Run(c, Run(c, s, a), b)
    decreases |a|
  {
    hide Step;
    if a == [] {
      assert a + b == b;
    } else {
      assert (a + b)[1..] == a[1..] + b && (a + b)[0] == a[0];
      RunAppend(c, Step(c, s, a[0]), a[1..], b);
    }
  }
}
