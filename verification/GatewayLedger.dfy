// The TPM ledger of every client, and how each request settles its reservation, in
// every run of the gateway.

module GatewayLedger {
  import opened Basics
  import opened ExactCache
  import opened Gateway
  import opened GatewayMoves
  import opened TokenBuckets

  // ---- Money ------------------------------------------------------------------------

  // What a request has taken out of the bucket of `client` and not given back.
  function Booked(client: Client, r: Request): real {
    if r.client != client then 0.0
    else match r.hold
      case NotReserved => 0.0
      case Held(amount) => amount
      case Settled(_, charge) => charge
  }

  function TotalBooked(client: Client, requests: seq<Request>): real {
    if requests == [] then 0.0 else Booked(client, requests[0]) + TotalBooked(client, requests[1..])
  }

  // Outstanding reservations, and final charges.
  function Outstanding(client: Client, requests: seq<Request>): real {
    if requests == [] then 0.0
    else (if requests[0].client == client && requests[0].hold.Held? then requests[0].hold.amount else 0.0)
         + Outstanding(client, requests[1..])
  }

  function Charged(client: Client, requests: seq<Request>): real {
    if requests == [] then 0.0
    else (if requests[0].client == client && requests[0].hold.Settled? then requests[0].hold.charge else 0.0)
         + Charged(client, requests[1..])
  }

  lemma {:induction false} BookedSplits(client: Client, requests: seq<Request>)
    ensures TotalBooked(client, requests) == Outstanding(client, requests) + Charged(client, requests)
  {
    if requests != [] {
      BookedSplits(client, requests[1..]);
    }
  }

  lemma {:induction false} BookedPut(client: Client, requests: seq<Request>, id: nat, r: Request)
    requires id < |requests|
    ensures TotalBooked(client, requests[id := r]) ==
            TotalBooked(client, requests) - Booked(client, requests[id]) + Booked(client, r)
  {
    hide Booked;
    if id > 0 {
      BookedPut(client, requests[1..], id - 1, r);
      assert requests[id := r][1..] == requests[1..][id - 1 := r];
    } else {
      assert requests[id := r][1..] == requests[1..];
    }
  }

  lemma {:induction false} BookedPush(client: Client, requests: seq<Request>, r: Request)
    ensures TotalBooked(client, requests + [r]) == TotalBooked(client, requests) + Booked(client, r)
  {
    hide Booked;
    if requests != [] {
      BookedPush(client, requests[1..], r);
      assert (requests + [r])[1..] == requests[1..] + [r];
    } else {
      assert requests + [r] == [r];
    }
  }

  // Everything that ever flowed in, less what is still there and what is booked.
  function Missing(c: Config, s: System, client: Client): real {
    var a := AccountOf(c, s, client);
    c.tpm as real + Inflow(Tpm(c), a.tpm.lastRefill - a.born) - a.tpm.tokens - TotalBooked(client, s.requests)
  }

  // ---- What a step loses --------------------------------------------------------------

  // What a move of r hands back to its TPM bucket, if the move operates on it.
  function HandsBack(r: Request, m: Move): Option<real> {
    match m
    case Reserve => if r.pc.Entered? then Some(0.0) else None
    case Settle =>
      if r.pc.Settling? && r.hold.Held? && r.pc.usage.Some? then Unused(r.hold.amount, r.pc.usage.value) else None
    case ReportUsage(total) => if r.pc.Streaming? && r.hold.Held? then Unused(r.hold.amount, total) else None
    case Unwind => if r.pc.Unwinding? && r.hold.Held? then Some(r.hold.amount) else None
    case _ => None
  }

  // A total equal to the reservation does not touch the bucket.
  function Unused(reserved: real, total: nat): Option<real> {
    if total as real == reserved then None else Some(Max(0.0, reserved - total as real))
  }

  // The tokens of the client that a step loses: those that do not fit into the bucket when
  // it is filled up to now and given what comes back.
  function Loss(c: Config, s: System, a: Action, client: Client): real {
    if a.Act? && a.id < |s.requests| && s.requests[a.id].client == client then
      match HandsBack(s.requests[a.id], a.move)
      case None => 0.0
      case Some(back) => OverflowOf(c.tpm, AccountOf(c, s, client).tpm, back, s.now)
    else 0.0
  }

  function TotalLoss(c: Config, s: System, actions: seq<Action>, client: Client): real
    decreases |actions|
  {
    if actions == [] then 0.0
    else Loss(c, s, actions[0], client) + TotalLoss(c, Step(c, s, actions[0]), actions[1..], client)
  }

  lemma {:induction false} LossNonNegative(c: Config, s: System, actions: seq<Action>, client: Client)
    ensures TotalLoss(c, s, actions, client) >= 0.0
    decreases |actions|
  {
    hide Step, HandsBack, AccountOf;
    if actions != [] {
      LossNonNegative(c, Step(c, s, actions[0]), actions[1..], client);
    }
  }

  // ---- The invariant ------------------------------------------------------------------

  predicate AccountOk(c: Config, a: Account, now: real) {
    && WellFormed(Rpm(c), a.rpm) && a.born <= a.rpm.lastRefill <= now
    && WellFormed(Tpm(c), a.tpm) && a.born <= a.tpm.lastRefill <= now
  }

  predicate IsHolding(pc: Pc) {
    pc.Reserved? || pc.Selecting? || pc.Choosing? || pc.Sent? || pc.ReadingBody? || pc.Settling?
  }

  // The outcomes for which no usage was ever reported.
  predicate IsUnbilled(out: Outcome) {
    out.NoProviders? || out.Rejected? || out.BodyLost? || out.AllFailed? || out.Cancelled?
  }

  predicate OutcomeOk(r: Request, out: Outcome) {
    && (IsUnbilled(out) ==> r.usage.None?)
    && (out.CacheHit? ==> r.usage == Some(0))
    && (out.RateLimited? ==> r.hold.NotReserved?)
    && (!out.RateLimited? && !out.Cancelled? ==> !r.hold.NotReserved?)
  }

  predicate HoldOk(r: Request) {
    && r.estimate >= 0.0
    && (IsHolding(r.pc) ==> r.hold.Held? && r.usage.None?)
    && (r.pc.Streaming? ==> !r.hold.NotReserved?)
    && (r.pc.Entered? ==> r.hold.NotReserved?)
    && (r.pc.Finished? ==> !r.hold.Held? && OutcomeOk(r, r.pc.out))
    && (r.pc.Unwinding? ==> OutcomeOk(r, r.pc.out))
    && (r.pc.Settling? ==> r.pc.out.Served? || (r.pc.out.CacheHit? && r.pc.usage == Some(0)))
    && (r.hold.NotReserved? ==> r.usage.None?)
    && (r.hold.Held? ==> r.hold.amount == r.estimate && r.usage.None?)
    && (r.hold.Settled? ==> r.hold.amount == r.estimate && ChargeOk(r.estimate, r.usage, r.hold.charge))
  }

  // Nothing without a usage report; the reported total if the reservation covers it;
  // otherwise the total or the reservation. SettlementIsExact says which.
  predicate ChargeOk(reserved: real, usage: Option<nat>, charge: real) {
    match usage
    case None => charge == 0.0
    case Some(total) =>
      if total as real <= reserved then charge == total as real
      else charge == total as real || charge == reserved
  }

  ghost predicate Inv(c: Config, s: System) {
    && (forall client: Client :: AccountOk(c, AccountOf(c, s, client), s.now))
    && (forall id :: 0 <= id < |s.requests| ==> HoldOk(s.requests[id]) && s.requests[id].client in s.accounts)
  }

  lemma InvAt(c: Config, s: System, client: Client, id: nat)
    requires Inv(c, s) && id < |s.requests|
    ensures AccountOk(c, AccountOf(c, s, client), s.now)
    ensures HoldOk(s.requests[id]) && s.requests[id].client in s.accounts
  {
  }

  lemma InitInv(c: Config, now: real)
    ensures Inv(c, Init(now))
    ensures forall client :: Missing(c, Init(now), client) == 0.0
  {
    PerMinuteFills(c.rpm);
    PerMinuteFills(c.tpm);
    InflowMonotone(Tpm(c), 0.0, 0.0);
  }

  // What every step keeps, and the exact amount it loses.
  ghost predicate Accounts(c: Config, s: System, s': System, a: Action) {
    Inv(c, s') && forall client :: Missing(c, s', client) == Missing(c, s, client) + Loss(c, s, a, client)
  }

  // A move that leaves the accounts alone and keeps what is booked.
  lemma FreeMove(c: Config, s: System, s': System, id: nat)
    requires Inv(c, s) && id < |s.requests|
    requires |s'.requests| == |s.requests| && s'.requests == s.requests[id := s'.requests[id]]
    requires s'.accounts == s.accounts && s'.now == s.now
    requires s'.requests[id].client == s.requests[id].client
    requires s'.requests[id].hold == s.requests[id].hold && HoldOk(s'.requests[id])
    ensures Inv(c, s')
    ensures forall client :: Missing(c, s', client) == Missing(c, s, client)
  {
    hide HoldOk, AccountOk, Inflow;
    var r := s'.requests[id];
    forall client: Client
      ensures Missing(c, s', client) == Missing(c, s, client)
      ensures AccountOk(c, AccountOf(c, s', client), s'.now)
    {
      InvAt(c, s, client, id);
      BookedPut(client, s.requests, id, r);
    }
  }

  // A move that operates on the TPM bucket of its client.
  lemma BucketMove(c: Config, s: System, id: nat, r: Request, tpm: Bucket, back: real, taken: real)
    requires Inv(c, s) && id < |s.requests| && HoldOk(r) && r.client == s.requests[id].client
    requires Conserves(Tpm(c), AccountOf(c, s, r.client).tpm, tpm, back, taken, s.now)
    requires Booked(r.client, r) == Booked(r.client, s.requests[id]) + taken - back
    ensures
      var s' := PutTpm(c, Put(s, id, r), r.client, tpm);
      && Inv(c, s')
      && (forall client :: client != r.client ==> Missing(c, s', client) == Missing(c, s, client))
      && Missing(c, s', r.client) ==
         Missing(c, s, r.client) + OverflowOf(c.tpm, AccountOf(c, s, r.client).tpm, back, s.now)
  {
    InvAt(c, s, r.client, id);
    WrittenOut(c.tpm, AccountOf(c, s, r.client).tpm, back, s.now);
    hide Inflow, HoldOk, WellFormed, PerMinute, OverflowOf;
    var s' := PutTpm(c, Put(s, id, r), r.client, tpm);
    var a := AccountOf(c, s, r.client);
    PerMinuteFills(c.tpm);
    InvAt(c, s, r.client, id);
    InflowSplits(Tpm(c), a.tpm.lastRefill - a.born, s.now - a.tpm.lastRefill);
    assert (a.tpm.lastRefill - a.born) + (s.now - a.tpm.lastRefill) == s.now - a.born;
    BookedPut(r.client, s.requests, id, r);
    forall client: Client
      ensures AccountOk(c, AccountOf(c, s', client), s'.now)
      ensures client != r.client ==> Missing(c, s', client) == Missing(c, s, client)
    {
      InvAt(c, s, client, id);
      BookedPut(client, s.requests, id, r);
    }
  }

  lemma ReserveAccounts(c: Config, s: System, id: nat)
    requires Inv(c, s) && id < |s.requests|
    ensures Accounts(c, s, ReserveMove(c, s, id, s.requests[id]), Act(id, Reserve))
  {
    hide Inv, Inflow, Conserves, TryConsume, OverflowOf, Missing;
    var r := s.requests[id];
    InvAt(c, s, r.client, id);
    if r.pc.Entered? {
      var b := AccountOf(c, s, r.client).tpm;
      var s' := ReserveMove(c, s, id, r);
      PerMinuteFills(c.tpm);
      ConsumeConserves(Tpm(c), b, r.estimate, s.now);
      var (tpm, answer) := TryConsume(Tpm(c), b, r.estimate, s.now);
      BucketMove(c, s, id, s'.requests[id], tpm, 0.0, if answer.Granted? then r.estimate else 0.0);
    }
  }

  lemma ReconciledAccounts(c: Config, s: System, id: nat, total: nat, pc: Pc)
    requires Inv(c, s) && id < |s.requests| && s.requests[id].hold.Held?
    requires pc == Streaming || (s.requests[id].pc.Settling? && s.requests[id].pc.usage == Some(total)
                                 && pc == Unwinding(s.requests[id].pc.out))
    ensures
      var r, s' := s.requests[id], Reconciled(c, s, id, s.requests[id], total, pc);
      && Inv(c, s')
      && (forall client :: client != r.client ==> Missing(c, s', client) == Missing(c, s, client))
      && Missing(c, s', r.client) == Missing(c, s, r.client) +
           match Unused(r.hold.amount, total)
           case None => 0.0
           case Some(back) => OverflowOf(c.tpm, AccountOf(c, s, r.client).tpm, back, s.now)
  {
    hide Inv, Inflow, Conserves, Reconcile, Level, OverflowOf, Missing;
    var r := s.requests[id];
    InvAt(c, s, r.client, id);
    var b := AccountOf(c, s, r.client).tpm;
    var s' := Reconciled(c, s, id, r, total, pc);
    var (tpm, charge) := Reconcile(Tpm(c), b, r.hold.amount, total as real, s.now);
    PerMinuteFills(c.tpm);
    ReconcileConserves(Tpm(c), b, r.hold.amount, total as real, s.now);
    if total as real == r.hold.amount {
      SameBucket(c, s, id, s'.requests[id]);
    } else {
      BucketMove(c, s, id, s'.requests[id], tpm, Max(0.0, r.hold.amount - total as real),
                 Max(0.0, charge - r.hold.amount));
    }
  }

  // Putting an account back as it was changes nothing.
  lemma SameBucket(c: Config, s: System, id: nat, r: Request)
    requires Inv(c, s) && id < |s.requests| && HoldOk(r) && r.client == s.requests[id].client
    requires Booked(r.client, r) == Booked(r.client, s.requests[id])
    ensures
      var s' := PutTpm(c, Put(s, id, r), r.client, AccountOf(c, s, r.client).tpm);
      Inv(c, s') && forall client :: Missing(c, s', client) == Missing(c, s, client)
  {
    hide HoldOk, AccountOk, Inflow;
    var s' := PutTpm(c, Put(s, id, r), r.client, AccountOf(c, s, r.client).tpm);
    forall client: Client
      ensures Missing(c, s', client) == Missing(c, s, client)
      ensures AccountOk(c, AccountOf(c, s', client), s'.now)
    {
      InvAt(c, s, client, id);
      BookedPut(client, s.requests, id, r);
    }
  }

  lemma SettleAccounts(c: Config, s: System, id: nat)
    requires Inv(c, s) && id < |s.requests|
    ensures Accounts(c, s, SettleMove(c, s, id, s.requests[id]), Act(id, Settle))
  {
    hide Inv, Reconciled, Missing, OverflowOf, Unused;
    var r := s.requests[id];
    InvAt(c, s, r.client, id);
    if r.pc.Settling? {
      if r.pc.usage.None? {
        FreeMove(c, s, SettleMove(c, s, id, r), id);
      } else {
        ReconciledAccounts(c, s, id, r.pc.usage.value, Unwinding(r.pc.out));
      }
    }
  }

  lemma UsageAccounts(c: Config, s: System, id: nat, total: nat)
    requires Inv(c, s) && id < |s.requests|
    ensures Accounts(c, s, UsageMove(c, s, id, s.requests[id], total), Act(id, ReportUsage(total)))
  {
    hide Inv, Reconciled, Missing, OverflowOf, Unused;
    var r := s.requests[id];
    if r.pc.Streaming? && r.hold.Held? {
      ReconciledAccounts(c, s, id, total, Streaming);
    }
  }

  lemma UnwindAccounts(c: Config, s: System, id: nat)
    requires Inv(c, s) && id < |s.requests|
    ensures Accounts(c, s, UnwindMove(c, s, id, s.requests[id]), Act(id, Unwind))
  {
    hide Inv, Inflow, Conserves, Refund, OverflowOf, Missing;
    var r := s.requests[id];
    InvAt(c, s, r.client, id);
    var s' := UnwindMove(c, s, id, r);
    if r.pc.Unwinding? {
      if r.hold.Held? {
        var b := AccountOf(c, s, r.client).tpm;
        PerMinuteFills(c.tpm);
        RefundConserves(Tpm(c), b, r.hold.amount, s.now);
        BucketMove(c, s, id, s'.requests[id], Refund(Tpm(c), b, r.hold.amount, s.now), r.hold.amount, 0.0);
      } else {
        FreeMove(c, s, s', id);
      }
    }
  }

  // The moves that leave the bucket alone.
  lemma FreeHold(c: Config, s: System, id: nat, m: Move)
    requires id < |s.requests| && IsFree(m) && HoldOk(s.requests[id])
    ensures HoldOk(MoveOn(c, s, id, m).requests[id])
  {
    hide MoveOn, ChargeOk;
    Frame(c, s, id, m);
  }

  lemma MoveAccounts(c: Config, s: System, id: nat, m: Move)
    requires Inv(c, s) && id < |s.requests|
    ensures Accounts(c, s, MoveOn(c, s, id, m), Act(id, m))
  {
    hide Inv, ReserveMove, SettleMove, UsageMove, UnwindMove, Missing;
    if IsFree(m) {
      hide MoveOn;
      InvAt(c, s, s.requests[id].client, id);
      Frame(c, s, id, m);
      FreeHold(c, s, id, m);
      FreeMove(c, s, MoveOn(c, s, id, m), id);
    } else {
      hide Accounts, TouchesOnly;
      match m
      case Reserve => ReserveAccounts(c, s, id);
      case Settle => SettleAccounts(c, s, id);
      case ReportUsage(total) => UsageAccounts(c, s, id, total);
      case Unwind => UnwindAccounts(c, s, id);
    }
  }

  // ---- Every step ---------------------------------------------------------------------

  lemma ArriveAccounts(c: Config, s: System, client: Client, kind: Kind, prompt: Prompt, estimate: real)
    requires Inv(c, s)
    ensures
      var s' := ArriveStep(c, s, client, kind, prompt, estimate);
      Inv(c, s') && forall other :: Missing(c, s', other) == Missing(c, s, other)
  {
    hide Inflow, TryConsume;
    var s' := ArriveStep(c, s, client, kind, prompt, estimate);
    if estimate >= 0.0 && IsJsonText(prompt.payload) {
      var r := s'.requests[|s.requests|];
      PerMinuteFills(c.rpm);
      ConsumeConserves(Rpm(c), AccountOf(c, s, client).rpm, 1.0, s.now);
      forall other: Client
        ensures Missing(c, s', other) == Missing(c, s, other)
        ensures AccountOk(c, AccountOf(c, s', other), s'.now)
      {
        assert AccountOk(c, AccountOf(c, s, other), s.now);
        BookedPush(other, s.requests, r);
      }
    }
  }

  lemma TickKeepsInv(c: Config, s: System, d: real)
    requires Inv(c, s) && d > 0.0
    ensures
      var s' := s.(now := s.now + d);
      Inv(c, s') && forall client :: Missing(c, s', client) == Missing(c, s, client)
  {
    hide Inflow;
    var s' := s.(now := s.now + d);
    PerMinuteFills(c.rpm);
    PerMinuteFills(c.tpm);
    forall client: Client
      ensures Missing(c, s', client) == Missing(c, s, client)
      ensures AccountOk(c, AccountOf(c, s', client), s'.now)
    {
      assert AccountOk(c, AccountOf(c, s, client), s.now);
    }
  }

  lemma StepAccounts(c: Config, s: System, a: Action)
    requires Inv(c, s)
    ensures Accounts(c, s, Step(c, s, a), a)
  {
    hide Missing, MoveOn, ArriveStep;
    match a
    case Tick(d) =>
      if d > 0.0 && MayPass(s, s.now + d) {
        TickKeepsInv(c, s, d);
      }
    case Evict(key) =>
      var s' := Step(c, s, a);
      forall client: Client
        ensures Missing(c, s', client) == Missing(c, s, client)
        ensures AccountOk(c, AccountOf(c, s', client), s'.now)
      {
        SameLedger(c, s, s', client);
        assert AccountOk(c, AccountOf(c, s, client), s.now);
      }
    case Arrive(client, kind, prompt, estimate) => ArriveAccounts(c, s, client, kind, prompt, estimate);
    case Act(id, m) =>
      if id < |s.requests| {
        MoveAccounts(c, s, id, m);
      }
  }

  lemma SameLedger(c: Config, s: System, s': System, client: Client)
    requires s'.accounts == s.accounts && s'.requests == s.requests && s'.now == s.now
    ensures Missing(c, s', client) == Missing(c, s, client)
  {
  }

  lemma {:induction false} RunAccounts(c: Config, s: System, actions: seq<Action>)
    requires Inv(c, s)
    ensures Inv(c, Run(c, s, actions))
    ensures forall client ::
              Missing(c, Run(c, s, actions), client) == Missing(c, s, client) + TotalLoss(c, s, actions, client)
    decreases |actions|
  {
    hide Inv, Step, Missing, Loss;
    if actions != [] {
      StepAccounts(c, s, actions[0]);
      RunAccounts(c, Step(c, s, actions[0]), actions[1..]);
    }
  }

  // ---- Main results ---------------------------------------------------------------------

  // In every run, for every client: the bucket is within its bounds, and the initial
  // capacity plus what has flowed in equals what is left, what open requests hold, what
  // settled requests were charged, and exactly the tokens that did not fit, added up over
  // the steps. So no interleaving makes, duplicates or destroys tokens.
  lemma LedgerBalances(c: Config, start: real, actions: seq<Action>, client: Client)
    ensures
      var s := Run(c, Init(start), actions);
      var a := AccountOf(c, s, client);
      && 0.0 <= a.tpm.tokens <= c.tpm as real
      && c.tpm as real + MinuteFlow(c.tpm, a.tpm.lastRefill - a.born)
         == a.tpm.tokens + Outstanding(client, s.requests) + Charged(client, s.requests)
            + TotalLoss(c, Init(start), actions, client)
      && TotalLoss(c, Init(start), actions, client) >= 0.0
  {
    hide Inflow, Run, TotalLoss, OverflowOf;
    var s := Run(c, Init(start), actions);
    var a := AccountOf(c, s, client);
    InitInv(c, start);
    RunAccounts(c, Init(start), actions);
    LossNonNegative(c, Init(start), actions, client);
    BookedSplits(client, s.requests);
    PerMinuteFills(c.tpm);
    assert AccountOk(c, a, s.now);
    FlowedIn(c, a);
    hide PerMinute, AccountOf;
    assert Missing(c, s, client) == TotalLoss(c, Init(start), actions, client);
  }

  lemma FlowedIn(c: Config, a: Account)
    ensures Inflow(Tpm(c), a.tpm.lastRefill - a.born) == MinuteFlow(c.tpm, a.tpm.lastRefill - a.born)
  {
    PerMinuteInflow(c.tpm, a.tpm.lastRefill - a.born);
    hide PerMinute, Inflow, MinuteFlow;
  }

  // When a request is finished nothing is held any more. Unless it was refused or dropped
  // before it reserved, it was settled; what it was charged is nothing for a cache hit, a
  // failure, a dropped handler or a response that reported no usage.
  lemma FinishedIsSettled(c: Config, start: real, actions: seq<Action>, id: nat)
    requires id < |Run(c, Init(start), actions).requests|
    requires Run(c, Init(start), actions).requests[id].pc.Finished?
    ensures
      var r := Run(c, Init(start), actions).requests[id];
      && (r.hold.Settled? || (r.hold.NotReserved? && (r.pc.out.RateLimited? || r.pc.out.Cancelled?)))
      && (r.pc.out.RateLimited? ==> r.hold.NotReserved?)
      && (r.hold.Settled? ==> ChargeOk(r.estimate, r.usage, r.hold.charge))
      && (r.hold.Settled? && (IsUnbilled(r.pc.out) || r.pc.out.CacheHit?) ==> r.hold.charge == 0.0)
  {
    hide Run;
    InitInv(c, start);
    RunAccounts(c, Init(start), actions);
    InvAt(c, Run(c, Init(start), actions), "", id);
  }

  // A hold goes from none to held to settled and never back.
  predicate HoldAdvances(r: Request, r': Request) {
    || (r'.hold == r.hold && r'.usage == r.usage)
    || (r.hold.NotReserved? && r'.hold == Held(r.estimate))
    || (r.hold.Held? && r'.hold.Settled? && r'.hold.amount == r.hold.amount)
  }

  lemma MoveAdvances(c: Config, s: System, id: nat, m: Move)
    requires Inv(c, s) && id < |s.requests|
    ensures HoldAdvances(s.requests[id], MoveOn(c, s, id, m).requests[id])
  {
    InvAt(c, s, "", id);
    if IsFree(m) {
      hide MoveOn;
      Frame(c, s, id, m);
    } else {
      hide AccountOf, TryConsume, Reconcile, Refund, TouchesOnly, Inv;
    }
  }

  // Settled once and for all: whatever happens later, a settled request keeps its charge.
  lemma {:induction false} SettledForever(c: Config, s: System, actions: seq<Action>, id: nat)
    requires Inv(c, s) && id < |s.requests| && s.requests[id].hold.Settled?
    ensures id < |Run(c, s, actions).requests|
    ensures Run(c, s, actions).requests[id].hold == s.requests[id].hold
    ensures Run(c, s, actions).requests[id].usage == s.requests[id].usage
    decreases |actions|
  {
    hide Inv, Step, HoldAdvances;
    if actions != [] {
      StepAccounts(c, s, actions[0]);
      StepAdvances(c, s, actions[0], id);
      assert HoldAdvances(s.requests[id], Step(c, s, actions[0]).requests[id]);
      SettledStays(s.requests[id], Step(c, s, actions[0]).requests[id]);
      SettledForever(c, Step(c, s, actions[0]), actions[1..], id);
    }
  }

  lemma SettledStays(r: Request, r': Request)
    requires HoldAdvances(r, r') && r.hold.Settled?
    ensures r'.hold == r.hold && r'.usage == r.usage
  {
  }

  lemma StepAdvances(c: Config, s: System, a: Action, id: nat)
    requires Inv(c, s) && id < |s.requests|
    ensures id < |Step(c, s, a).requests|
    ensures HoldAdvances(s.requests[id], Step(c, s, a).requests[id])
  {
    hide Inv, MoveOn, ArriveStep;
    StepGrows(c, s, a);
    if a.Act? && a.id == id {
      MoveAdvances(c, s, id, a.move);
    }
  }

  // ---- Exactly once, and exactly how much -------------------------------------------------

  // What settling charges: the total if the reservation covers it or the bucket can pay the
  // rest at that moment, and the reservation otherwise; nothing if there is no total.
  function DueNow(c: Config, s: System, r: Request, usage: Option<nat>): real
    requires r.hold.Held?
  {
    match usage
    case None => 0.0
    case Some(total) =>
      var actual, reserved := total as real, r.hold.amount;
      if actual <= reserved || LevelOf(c.tpm, AccountOf(c, s, r.client).tpm, s.now) >= actual - reserved then actual
      else reserved
  }

  // In every run a request is let past the TPM bucket exactly if what is in it covers the
  // estimate, and told to wait by the bucket's own hint if not.
  lemma ReservesExactly(c: Config, start: real, actions: seq<Action>, id: nat)
    requires id < |Run(c, Init(start), actions).requests| && Run(c, Init(start), actions).requests[id].pc.Entered?
    ensures
      var s := Run(c, Init(start), actions);
      var r, r' := s.requests[id], Step(c, s, Act(id, Reserve)).requests[id];
      var b := AccountOf(c, s, r.client).tpm;
      if LevelOf(c.tpm, b, s.now) >= r.estimate then r'.pc == Reserved && r'.hold == Held(r.estimate)
      else
        && r'.hold.NotReserved? && r'.pc.Finished? && r'.pc.out.RateLimited?
        && HintFor(c.tpm, r.estimate - LevelOf(c.tpm, b, s.now), r'.pc.out.retryAfter)
  {
    var s := Run(c, Init(start), actions);
    var r := s.requests[id];
    var b := AccountOf(c, s, r.client).tpm;
    InitInv(c, start);
    RunAccounts(c, Init(start), actions);
    InvAt(c, s, r.client, id);
    AnswerIsExact(c.tpm, b, r.estimate, s.now);
    hide Run, Level, TryConsume, PerMinute, LevelOf, AccountOf, Inv, TouchesOnly, HintFor;
  }

  // The k-th action settles the request.
  predicate SettlesAt(c: Config, s: System, actions: seq<Action>, id: nat, k: nat) {
    && k < |actions| && actions[k].Act? && actions[k].id == id
    && var before, after := Run(c, s, actions[..k]), Run(c, s, actions[..k + 1]);
       && id < |before.requests| && id < |after.requests|
       && before.requests[id].hold.Held? && after.requests[id].hold.Settled?
       && after.requests[id].hold.charge == DueNow(c, before, before.requests[id], after.requests[id].usage)
  }

  lemma DueIs(c: Config, b: Bucket, reserved: real, total: nat, now: real)
    requires WellFormed(Tpm(c), b) && b.lastRefill <= now && reserved >= 0.0
    ensures Reconcile(Tpm(c), b, reserved, total as real, now).1 ==
            if total as real <= reserved || LevelOf(c.tpm, b, now) >= total as real - reserved then total as real
            else reserved
  {
    PerMinuteFills(c.tpm);
    ReconcileConserves(Tpm(c), b, reserved, total as real, now);
    WrittenOut(c.tpm, b, 0.0, now);
    hide Inflow, Level, LevelOf, PerMinute, Reconcile, Conserves, WellFormed;
  }

  ghost predicate Settles(c: Config, s: System, r: Request, r': Request) {
    r.hold.Held? && r'.hold.Settled? ==> r'.hold.charge == DueNow(c, s, r, r'.usage)
  }

  lemma ReconciledSettles(c: Config, s: System, id: nat, total: nat, pc: Pc)
    requires Inv(c, s) && id < |s.requests| && s.requests[id].hold.Held?
    ensures Settles(c, s, s.requests[id], Reconciled(c, s, id, s.requests[id], total, pc).requests[id])
  {
    var r := s.requests[id];
    InvAt(c, s, r.client, id);
    DueIs(c, AccountOf(c, s, r.client).tpm, r.hold.amount, total, s.now);
    hide Inv, LevelOf, Reconcile, AccountOf, TouchesOnly;
  }

  lemma MoveSettles(c: Config, s: System, id: nat, m: Move)
    requires Inv(c, s) && id < |s.requests| && !s.requests[id].hold.Settled?
    requires MoveOn(c, s, id, m).requests[id].hold.Settled?
    ensures
      var r, r' := s.requests[id], MoveOn(c, s, id, m).requests[id];
      r.hold.Held? && r'.hold.charge == DueNow(c, s, r, r'.usage)
  {
    var r := s.requests[id];
    InvAt(c, s, r.client, id);
    MoveAdvances(c, s, id, m);
    if IsFree(m) {
      hide MoveOn;
      Frame(c, s, id, m);
    } else {
      assert Settles(c, s, r, MoveOn(c, s, id, m).requests[id]) by { BucketSettles(c, s, id, m); }
      hide MoveOn, DueNow;
    }
  }

  lemma BucketSettles(c: Config, s: System, id: nat, m: Move)
    requires Inv(c, s) && id < |s.requests| && !IsFree(m)
    ensures Settles(c, s, s.requests[id], MoveOn(c, s, id, m).requests[id])
  {
    var r := s.requests[id];
    InvAt(c, s, r.client, id);
    hide Inv, LevelOf, Reconciled, TouchesOnly, AccountOf, TryConsume, Refund;
    match m
    case Settle =>
      if r.pc.Settling? && r.hold.Held? && r.pc.usage.Some? {
        hide Settles;
        ReconciledSettles(c, s, id, r.pc.usage.value, Unwinding(r.pc.out));
      }
    case ReportUsage(total) =>
      if r.pc.Streaming? && r.hold.Held? {
        hide Settles;
        ReconciledSettles(c, s, id, total, Streaming);
      }
    case _ =>
  }

  lemma StepSettles(c: Config, s: System, a: Action, id: nat)
    requires Inv(c, s) && id < |Step(c, s, a).requests| && Step(c, s, a).requests[id].hold.Settled?
    requires id < |s.requests| ==> !s.requests[id].hold.Settled?
    ensures SettlesAt(c, s, [a], id, 0)
  {
    hide MoveOn, ArriveStep, Inv, DueNow;
    StepGrows(c, s, a);
    if a.Arrive? {
      ArriveFrame(c, s, a);
    }
    assert a.Act? && a.id == id;
    MoveSettles(c, s, id, a.move);
    assert [a][..0] == [] && [a][..1] == [a] && [a][1..] == [];
    assert Run(c, s, [a]) == Step(c, s, a);
  }

  lemma {:induction false} FindSettlement(c: Config, s: System, actions: seq<Action>, id: nat) returns (k: nat)
    requires Inv(c, s) && id < |Run(c, s, actions).requests| && Run(c, s, actions).requests[id].hold.Settled?
    requires id < |s.requests| ==> !s.requests[id].hold.Settled?
    ensures SettlesAt(c, s, actions, id, k)
    ensures Run(c, s, actions[..k + 1]).requests[id].hold == Run(c, s, actions).requests[id].hold
    ensures Run(c, s, actions[..k + 1]).requests[id].usage == Run(c, s, actions).requests[id].usage
    decreases |actions|
  {
    hide Inv, Step, DueNow;
    var a, s1 := actions[0], Step(c, s, actions[0]);
    StepAccounts(c, s, a);
    if id < |s1.requests| && s1.requests[id].hold.Settled? {
      k := 0;
      StepSettles(c, s, a, id);
      SettledForever(c, s1, actions[1..], id);
      assert actions[..1] == [a] == [a][..1] && actions[..0] == [] == [a][..0] && [a][1..] == [];
    } else {
      var j := FindSettlement(c, s1, actions[1..], id);
      k := j + 1;
      assert actions[..k][1..] == actions[1..][..j] && actions[..k + 1][1..] == actions[1..][..j + 1];
    }
  }

  // In every run a settled request was settled by one step of the run, and only one, and
  // what it was charged is what was due at the state of the bucket then.
  lemma SettlementIsExact(c: Config, start: real, actions: seq<Action>, id: nat) returns (k: nat)
    requires id < |Run(c, Init(start), actions).requests|
    requires Run(c, Init(start), actions).requests[id].hold.Settled?
    ensures SettlesAt(c, Init(start), actions, id, k)
    ensures forall j: nat :: SettlesAt(c, Init(start), actions, id, j) ==> j == k
    ensures
      var before, r := Run(c, Init(start), actions[..k]), Run(c, Init(start), actions).requests[id];
      r.hold.charge == DueNow(c, before, before.requests[id], r.usage)
  {
    hide Run, DueNow;
    InitInv(c, start);
    k := FindSettlement(c, Init(start), actions, id);
    forall j: nat | SettlesAt(c, Init(start), actions, id, j)
      ensures j == k
    {
      if j < k {
        SettlesOnce(c, Init(start), actions, id, j, k);
      } else if k < j {
        SettlesOnce(c, Init(start), actions, id, k, j);
      }
    }
  }

  lemma SettlesOnce(c: Config, s: System, actions: seq<Action>, id: nat, j: nat, k: nat)
    requires Inv(c, s) && j < k < |actions| && SettlesAt(c, s, actions, id, j)
    ensures !SettlesAt(c, s, actions, id, k)
  {
    hide Run, DueNow, Inv;
    RunAccounts(c, s, actions[..j + 1]);
    assert actions[..k] == actions[..j + 1] + actions[j + 1..k];
    RunAppend(c, s, actions[..j + 1], actions[j + 1..k]);
    SettledForever(c, Run(c, s, actions[..j + 1]), actions[j + 1..k], id);
  }
}
