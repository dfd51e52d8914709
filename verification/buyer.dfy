/**
  The payer's side of one peering: the channels it pays on, its own count of the budget it holds
  with the provider, and one step of history so a refusal can be undone. `Buyer` is the state as a
  value, with every operation as a function of it.
 */
module Buyers {
  import opened Numbers
  import opened Wrappers
  import opened Wire
  import opened Limits
  import opened Grants

  const FUNDING_TIMEOUT_MS: u64 := 30_000

  datatype ChannelBuyer = ChannelBuyer(id: ChannelId, capacity: u64, cumulative: u64, expiresAt: Option<Millis>) {
    predicate Expiring(now: Millis, marginMs: u64) {
      expiresAt.Some? && SatAdd(now, marginMs) >= expiresAt.value
    }

    function Headroom(): u64 {
      SatSub(capacity, cumulative)
    }

    predicate Exhausted() {
      cumulative >= capacity
    }
  }

  datatype Trigger = First | Renewal | RateRose | Rebuy | StopReserving

  /** A purchase decided but not yet sent: one update, or two when it overflows the channel in use. */
  datatype Purchase = Purchase(first: Ratchet, second: Option<Ratchet>, windowMs: u64, reservedRate: u64, grant: u64,
                               trigger: Trigger)
  {
    function Legs(): seq<Ratchet> {
      if second.Some? then [first, second.value] else [first]
    }
  }

  /** The funding requests open for one peer; `since` is when the latest was asked, while waited on. */
  datatype FundingRequests = FundingRequests(first: u64, latest: u64, since: Option<Millis>)

  datatype RolloverReason = Capacity | Expiry

  datatype Prior = Prior(active: Option<ChannelBuyer>, next: Option<ChannelBuyer>, deadline: Millis, reserved: u64,
                         started: bool, resumed: u64, grant: u64)

  datatype Cap = Cap(rate: u64, until: Millis)

  datatype Buyer = Buyer(active: Option<ChannelBuyer>, next: Option<ChannelBuyer>, pending: Option<ChannelBuyer>,
                         funding: Option<FundingRequests>, remaining: u64, deadline: Millis, reserved: u64,
                         second: Option<Second>, lastTopup: Option<Millis>, started: bool, resumed: u64,
                         cappedAt: Option<Cap>, lastGrant: u64, prior: Option<Prior>)
  {
    function RemainingAt(now: Millis): u64 {
      if now >= deadline then 0 else remaining
    }

    function ResumeRate(now: Millis): u64 {
      if started || RemainingAt(now) == 0 then 0 else resumed
    }

    function CapAt(now: Millis): Option<u64> {
      if cappedAt.Some? && now < cappedAt.value.until then Some(cappedAt.value.rate) else None
    }

    predicate IsActive(id: ChannelId) {
      active.Some? && active.value.id == id
    }

    function StartOver(): Buyer {
      NewBuyer().(resumed := resumed)
    }

    function Take(drawn: u64): Buyer {
      var left := SatSub(remaining, drawn);
      this.(remaining := left, reserved := if left == 0 then 0 else reserved)
    }

    function Restart(): Buyer {
      var b := if second.Some? then this.(second := None).Take(second.value.Close(second.value.at, reserved)) else this;
      NewBuyer().(resumed := if b.started then b.reserved else b.resumed, active := b.active, next := b.next,
                  pending := b.pending, funding := b.funding, lastGrant := b.lastGrant, remaining := b.remaining,
                  deadline := b.deadline)
    }

    function Draw(moved: u64, now: Millis): Buyer {
      if now >= deadline then this.(remaining := 0, reserved := 0, second := None)
      else
        var open := if second.Some? then second.value else Starting(now);
        var (open', drawn) := open.Read(moved, now, reserved);
        this.(second := Some(open')).Take(drawn)
    }

    function NoteBalance(left: u64, expiresInMs: u64, now: Millis): Buyer {
      if left == 0 || expiresInMs == 0 || started || RemainingAt(now) != 0 then this
      else this.(remaining := left, deadline := Max(deadline, SatAdd(now, expiresInMs)))
    }

    function ForgetPending(): Buyer {
      this.(pending := None)
    }

    // -- funding ------------------------------------------------------------

    function FundingRequested(request: u64, now: Millis): Buyer {
      this.(funding := Some(FundingRequests(if funding.Some? then funding.value.first else request, request, Some(now))))
    }

    function FundingFailed(request: u64): Buyer {
      if funding.Some? && funding.value.latest == request then this.(funding := Some(funding.value.(since := None))) else this
    }

    predicate FundingInFlight(now: Millis) {
      funding.Some? && funding.value.since.Some? && SatSub(now, funding.value.since.value) < FUNDING_TIMEOUT_MS
    }

    predicate Answers(request: u64) {
      pending.None? && funding.Some? && funding.value.first <= request <= funding.value.latest
    }

    function FundedWith(id: ChannelId, capacity: u64, expiresAt: Option<Millis>): Buyer {
      this.(funding := None, pending := Some(ChannelBuyer(id, capacity, 0, expiresAt)))
    }

    function Confirmed(id: ChannelId): Buyer {
      if pending.None? then this
      else
        var channel := pending.value.(id := id);
        if active.None? || active.value.Exhausted() then this.(pending := None, active := Some(channel))
        else this.(pending := None, next := Some(channel))
    }

    predicate NeedsRollover(thresholdPct: nat) {
      next.None? && pending.None? && active.Some? && active.value.capacity != 0 &&
      (active.value.Headroom() <= Saturate(lastGrant * 2) || active.value.cumulative * 100 >= active.value.capacity * thresholdPct)
    }

    function RolloverDue(thresholdPct: nat, now: Millis, marginMs: u64): Option<RolloverReason> {
      if FundingInFlight(now) then None
      else if NeedsRollover(thresholdPct) then Some(Capacity)
      else if next.Some? || pending.Some? then None
      else if active.Some? && active.value.Expiring(now, marginMs) then Some(Expiry)
      else None
    }

    // -- channels -----------------------------------------------------------

    function RetireExpiring(now: Millis, marginMs: u64, settleLeadMs: u64): Buyer {
      if active.None? || !active.value.Expiring(now, marginMs) then this
      else if next.Some? then this.(active := next, next := None, prior := None)
      else if active.value.Expiring(now, settleLeadMs) then this.(active := None, prior := None)
      else this
    }

    function RetireExhausted(): (Buyer, Option<ChannelId>) {
      if active.Some? && active.value.Exhausted() && next.Some?
      then (this.(active := next, next := None), Some(active.value.id))
      else (this, None)
    }

    // -- purchases ----------------------------------------------------------

    function Snapshot(grant: u64): Prior {
      Prior(active, next, deadline, reserved, started, resumed, grant)
    }

    function Sign(p: Purchase): Buyer {
      this.(active := if active.Some? then Some(active.value.(cumulative := p.first.cumulative)) else None,
            next := if p.second.Some? && next.Some? then Some(next.value.(cumulative := p.second.value.cumulative)) else next)
    }

    /** A changed reserved rate splits the second being drawn, as it does at the provider. */
    function SplitSecond(rate: u64, now: Millis): Buyer {
      if rate != reserved && second.Some? then this.(second := None).Take(second.value.Close(now, reserved)) else this
    }

    function Count(p: Purchase, now: Millis): Buyer {
      var b := SplitSecond(p.reservedRate, now);
      b.(remaining := SatAdd(b.RemainingAt(now), p.grant),
         deadline := Max(b.deadline, SatAdd(now, p.windowMs)),
         reserved := p.reservedRate,
         started := true,
         resumed := 0,
         lastTopup := Some(now),
         lastGrant := p.grant,
         second := Some(if b.second.Some? then b.second.value else Starting(now)))
    }

    function Record(p: Purchase, now: Millis): (Buyer, Option<ChannelId>) {
      this.(prior := Some(Snapshot(p.grant))).Sign(p).Count(p, now).RetireExhausted()
    }

    function Rewind(): Buyer {
      if prior.None? then this
      else
        var p := prior.value;
        this.(prior := None, active := p.active, next := p.next, remaining := SatSub(remaining, p.grant),
              deadline := p.deadline, reserved := p.reserved, started := p.started, resumed := p.resumed)
    }

    function RecordReject(refused: seq<Ratchet>, reason: ReasonCode, maxReservedRate: u64, now: Millis, holdMs: u64): Buyer {
      var b := if reason == RateExceedsCapacity then this.(cappedAt := Some(Cap(maxReservedRate, SatAdd(now, holdMs)))) else this;
      if Holds(active, refused) || Holds(next, refused) then b.Rewind() else b
    }
  }

  /** Whether a refusal names the total held on a channel. */
  predicate Holds(c: Option<ChannelBuyer>, refused: seq<Ratchet>) {
    c.Some? && Ratchet(c.value.id, c.value.cumulative) in refused
  }

  function NewBuyer(): Buyer {
    Buyer(None, None, None, None, 0, 0, 0, None, None, false, 0, None, 0, None)
  }

  // ------------------------------------------------------------------------
  // The buy-or-hold decision
  // ------------------------------------------------------------------------

  datatype BuyerPolicy = BuyerPolicy(demand: u64, reserve: bool, headroomPct: u32, minRate: u64, maxRate: u64,
                                     maxFromPayerWeight: Option<u16>, windowMs: u64, budget: u64, renewLeadMs: u64,
                                     capHoldMs: u64)
  {
    function LeadWithin(windowMs: u64): u64 {
      Min(renewLeadMs, windowMs / 2)
    }

    predicate Buying() {
      if reserve then maxRate > 0 else budget > 0
    }

    predicate AcceptsWeight(weight: u16) {
      maxFromPayerWeight.Some? ==> weight <= maxFromPayerWeight.value
    }
  }

  datatype Terms = Terms(minWindowMs: u64, maxWindowMs: u64, minReservedRate: u64, minTopupGapMs: u64, fromPayerWeight: u16) {
    function ClampWindow(want: u64): u64 {
      Min(Max(want, minWindowMs), Max(maxWindowMs, minWindowMs))
    }
  }

  datatype Demand = Demand(observedRate: u64, terms: Terms)

  /** Fit a rate to the operator's bounds, the provider's smallest, and any ceiling it named. */
  function FitRate(buyer: Buyer, policy: BuyerPolicy, terms: Terms, rate: u64, now: Millis): Option<u64> {
    var asked := Min(Max(if policy.reserve then Max(rate, policy.minRate) else 0, terms.minReservedRate), policy.maxRate);
    var cap := buyer.CapAt(now);
    var fitted := if cap.Some? then Min(asked, cap.value) else asked;
    if (policy.reserve && fitted == 0) || fitted < terms.minReservedRate then None else Some(fitted)
  }

  function ReservedRate(buyer: Buyer, policy: BuyerPolicy, terms: Terms, wanted: u64, now: Millis): Option<u64> {
    FitRate(buyer, policy, terms, if policy.reserve then Saturate(wanted * policy.headroomPct / 100) else 0, now)
  }

  function ToReserve(buyer: Buyer, policy: BuyerPolicy, demand: Demand, resume: u64, now: Millis): Option<u64> {
    var wanted := Max(demand.observedRate, policy.demand);
    if wanted > 0 then ReservedRate(buyer, policy, demand.terms, wanted, now)
    else FitRate(buyer, policy, demand.terms, resume, now)
  }

  function Why(buyer: Buyer, policy: BuyerPolicy, demand: Demand, resume: u64, reserve: u64, windowMs: u64, now: Millis): Option<Trigger> {
    var wanted := Max(Max(demand.observedRate, policy.demand), resume);
    var lead := policy.LeadWithin(windowMs);
    var draining := Max(buyer.reserved, demand.observedRate);
    var runningOut := buyer.RemainingAt(now) <= UnitsIn(draining, lead) || SatAdd(now, lead) >= buyer.deadline;
    if reserve > buyer.reserved && wanted > buyer.reserved then
      Some(if !buyer.started then First else if buyer.CapAt(now).Some? then Rebuy else RateRose)
    else if !policy.reserve && buyer.reserved > reserve then Some(StopReserving)
    else if runningOut then Some(if buyer.started then Renewal else First)
    else None
  }

  /** `wanted` units split over the channel in use and the one behind it. */
  function Split(active: ChannelBuyer, next: Option<ChannelBuyer>, wanted: u64): (Ratchet, Option<Ratchet>, u64) {
    var full := Ratchet(active.id, active.capacity);
    if wanted <= active.Headroom() then
      (Ratchet(active.id, active.cumulative + wanted), None, wanted)
    else if next.Some? then
      var overflow := Min(wanted - active.Headroom(), next.value.Headroom());
      (full, Some(Ratchet(next.value.id, next.value.cumulative + overflow)), active.Headroom() + overflow)
    else
      (full, None, active.Headroom())
  }

  function Poll(buyer: Buyer, policy: BuyerPolicy, demand: Demand, now: Millis): Option<Purchase> {
    var terms := demand.terms;
    var resume := if policy.reserve then buyer.ResumeRate(now) else 0;
    if buyer.active.None? || (Max(demand.observedRate, policy.demand) == 0 && resume == 0) then None
    else if buyer.lastTopup.Some? && SatSub(now, buyer.lastTopup.value) < terms.minTopupGapMs then None
    else
      var rate := ToReserve(buyer, policy, demand, resume, now);
      if rate.None? then None
      else
        var windowMs := terms.ClampWindow(policy.windowMs);
        var size := if policy.reserve then UnitsIn(rate.value, windowMs) else policy.budget;
        var trigger := Why(buyer, policy, demand, resume, rate.value, windowMs, now);
        if trigger.None? then None
        else
          var wanted := Max(SatSub(size, buyer.RemainingAt(now)), 1);
          var (first, second, grant) := Split(buyer.active.value, buyer.next, wanted);
          if grant == 0 then None
          else Some(Purchase(first, second, windowMs, rate.value, grant, trigger.value))
  }
}
