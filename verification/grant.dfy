/**
  What a payer has bought and what has been drawn from it: a ratchet per channel, and one budget,
  deadline and reserved rate per payer. `Grant` is the state as a value, with every operation as a
  function of it.
 */
module Grants {
  import opened Numbers
  import opened Wrappers
  import opened Wire
  import opened Limits

  const MAX_VERIFICATION_FAILURES: u64 := 3

  datatype IncomingChannel = IncomingChannel(id: ChannelId, capacity: u64, signed: u64, failures: u64, expiresAt: Option<Millis>) {
    predicate Exhausted() {
      signed >= capacity
    }

    predicate Expiring(now: Millis, leadMs: u64) {
      expiresAt.Some? && SatAdd(now, leadMs) >= expiresAt.value
    }
  }

  datatype Budget = Budget(remaining: u64, deadline: Millis) {
    function At(now: Millis): Budget {
      if remaining == 0 || now >= deadline then NO_BUDGET else this
    }

    function ExpiresInMs(now: Millis): u64 {
      var live := At(now);
      if live.remaining == 0 then 0 else SatSub(live.deadline, now)
    }
  }

  const NO_BUDGET := Budget(0, 0)

  datatype BurstPolicy = BurstPolicy(rate: u64, unreservedRate: u64) {
    function UnreservedSpeed(): u64 {
      if unreservedRate == 0 then U64_MAX else unreservedRate
    }
  }

  /** The new cumulative total a purchase signs on one channel. */
  datatype Ratchet = Ratchet(id: ChannelId, cumulative: u64)

  // ------------------------------------------------------------------------
  // Channels, in the order they were opened
  // ------------------------------------------------------------------------

  function Find(cs: seq<IncomingChannel>, id: ChannelId): (c: Option<IncomingChannel>)
    ensures c.None? <==> forall d :: d in cs ==> d.id != id
    ensures c.Some? ==> c.value in cs && c.value.id == id
  {
    if cs == [] then None else if cs[0].id == id then Some(cs[0]) else Find(cs[1..], id)
  }

  /** The channel under an id replaced; the first one, as the program's `find` takes. */
  function Put(cs: seq<IncomingChannel>, c: IncomingChannel): seq<IncomingChannel> {
    if cs == [] then []
    else if cs[0].id == c.id then [c] + cs[1..]
    else [cs[0]] + Put(cs[1..], c)
  }

  function Remove(cs: seq<IncomingChannel>, id: ChannelId): seq<IncomingChannel> {
    if cs == [] then []
    else if cs[0].id == id then cs[1..]
    else [cs[0]] + Remove(cs[1..], id)
  }

  function TurnRatchets(cs: seq<IncomingChannel>, ratchets: seq<Ratchet>): seq<IncomingChannel>
    decreases |ratchets|
  {
    if ratchets == [] then cs
    else
      var found := Find(cs, ratchets[0].id);
      TurnRatchets(if found.None? then cs else Put(cs, found.value.(signed := ratchets[0].cumulative, failures := 0)), ratchets[1..])
  }

  function ClearFailures(cs: seq<IncomingChannel>): seq<IncomingChannel> {
    seq(|cs|, i requires 0 <= i < |cs| => cs[i].(failures := 0))
  }

  function ExhaustedIds(cs: seq<IncomingChannel>): seq<ChannelId> {
    if cs == [] then []
    else (if cs[0].Exhausted() then [cs[0].id] else []) + ExhaustedIds(cs[1..])
  }

  function ExpiringIds(cs: seq<IncomingChannel>, now: Millis, leadMs: u64): seq<ChannelId> {
    if cs == [] then []
    else (if cs[0].Expiring(now, leadMs) then [cs[0].id] else []) + ExpiringIds(cs[1..], now, leadMs)
  }

  function Ids(cs: seq<IncomingChannel>): seq<ChannelId> {
    if cs == [] then [] else [cs[0].id] + Ids(cs[1..])
  }

  // ------------------------------------------------------------------------
  // The provider's view of one payer
  // ------------------------------------------------------------------------

  datatype Grant = Grant(channels: seq<IncomingChannel>, authorized: u64, consumed: u64, deadline: Millis,
                         reservedRate: u64, lastTopup: Option<Millis>, second: Option<Second>)
  {
    /** Never more drawn than authorized, and the open second runs forward. */
    ghost predicate Valid() {
      consumed <= authorized && (second.Some? ==> second.value.Valid())
    }

    function Remaining(): u64 {
      SatSub(authorized, consumed)
    }

    predicate IsLive(now: Millis) {
      now < deadline && Remaining() > 0
    }

    function BudgetAt(now: Millis): Budget {
      Budget(Remaining(), deadline).At(now)
    }

    /** Take `owed` from the budget, never past zero; the reservation ends if that empties it. */
    function Take(owed: u64): Grant {
      var consumed' := SatAdd(consumed, Min(owed, Remaining()));
      this.(consumed := consumed', reservedRate := if SatSub(authorized, consumed') == 0 then 0 else reservedRate)
    }

    function Draw(moved: u64, now: Millis): Grant {
      match second
      case Some(open) =>
        var (open', owed) := open.Read(moved, now, reservedRate);
        this.(second := Some(open')).Take(owed)
      case None =>
        this.(second := Some(Starting(now).Read(moved, now, reservedRate).0)).Take(moved)
    }

    function Pause(): Grant {
      match second
      case Some(open) => this.(second := None).Take(open.Close(open.at, reservedRate))
      case None => this
    }

    function ExpireIfDue(now: Millis): Grant {
      if now < deadline then this
      else this.(reservedRate := 0, consumed := Max(consumed, authorized))
    }

    /** A changed reserved rate splits the second being drawn. */
    function SplitSecond(rate: u64, now: Millis): Grant {
      if rate != reservedRate && second.Some?
      then this.(second := None).Take(second.value.Close(now, reservedRate))
      else this
    }

    function Apply(ratchets: seq<Ratchet>, grant: u64, windowMs: u64, rate: u64, now: Millis): Grant {
      var g := this.(channels := TurnRatchets(channels, ratchets)).ExpireIfDue(now).SplitSecond(rate, now);
      g.(authorized := SatAdd(g.authorized, grant),
         deadline := Max(g.deadline, SatAdd(now, windowMs)),
         reservedRate := rate,
         second := Some(if g.second.Some? then g.second.value else Starting(now)))
    }

    function Restore(budget: Budget, now: Millis): Grant {
      var b := budget.At(now);
      this.(authorized := b.remaining, consumed := 0, deadline := b.deadline, reservedRate := 0, second := None)
    }

    function Restart(now: Millis): Grant {
      var paused := Pause();
      NewGrant().(channels := ClearFailures(paused.channels)).Restore(paused.BudgetAt(now), now)
    }

    function EndReservation(): Grant {
      Pause().(reservedRate := 0)
    }

    function OpenChannel(id: ChannelId, capacity: u64, expiresAt: Option<Millis>): Grant {
      var found := Find(channels, id);
      if found.Some? then this.(channels := Put(channels, found.value.(capacity := capacity, expiresAt := expiresAt)))
      else this.(channels := channels + [IncomingChannel(id, capacity, 0, 0, expiresAt)])
    }

    function CloseChannel(id: ChannelId): Grant {
      this.(channels := Remove(channels, id))
    }

    function RecordFailure(id: ChannelId): (Grant, Option<u64>) {
      var found := Find(channels, id);
      if found.None? then (this, None)
      else
        var failures := Min(found.value.failures + 1, 0xFFFF_FFFF);
        (this.(channels := Put(channels, found.value.(failures := failures))), Some(failures))
    }

    function TopupChecked(now: Millis): Grant {
      this.(lastTopup := Some(now))
    }

    predicate TooSoon(now: Millis, gapMs: u64) {
      lastTopup.Some? && SatSub(now, lastTopup.value) < gapMs
    }

    function ShapingRate(now: Millis, burst: BurstPolicy, minimumFlow: u64, tickMs: u64): u64 {
      if !IsLive(now) then minimumFlow
      else
        var speed := if reservedRate > 0 then Max(reservedRate, burst.rate) else burst.UnreservedSpeed();
        Max(Min(speed, PerTickCeiling(Remaining(), tickMs)), minimumFlow)
    }
  }

  function NewGrant(): Grant {
    Grant([], 0, 0, 0, 0, None, None)
  }

  // ------------------------------------------------------------------------
  // Whether to honor a purchase
  // ------------------------------------------------------------------------

  datatype GrantPolicy = GrantPolicy(minWindowMs: u64, maxWindowMs: u64, minReservedRate: u64, minTopupGapMs: u64,
                                     maxRate: Option<u64>)
  {
    predicate WindowAcceptable(windowMs: u64) {
      minWindowMs <= windowMs <= maxWindowMs
    }
  }

  datatype Admission = Admission(policy: GrantPolicy, reservedElsewhere: u64) {
    function RateAvailable(): u64 {
      match policy.maxRate
      case Some(max) => SatSub(max, reservedElsewhere)
      case None => U64_MAX
    }
  }

  datatype Verdict =
    | Accept(ratchets: seq<Ratchet>, grant: u64)
    | Refuse(reason: ReasonCode, maxReservedRate: u64)

  function Named(ratchets: seq<Ratchet>, id: ChannelId): bool {
    exists r :: r in ratchets && r.id == id
  }

  /** The updates in turn, with what the ones before them came to; the first bad one is the reason. */
  function Gather(cs: seq<IncomingChannel>, updates: seq<ChannelUpdate>, ratchets: seq<Ratchet>, grant: u64): Result<(seq<Ratchet>, u64), ReasonCode> {
    if updates == [] then Ok((ratchets, grant))
    else
      var u := updates[0];
      var found := Find(cs, u.channelId);
      if found.None? then Err(FundingInvalid)
      else if u.cumulative <= found.value.signed then Err(GrantInvalid)
      else if u.cumulative > found.value.capacity then Err(GrantExceedsChannel)
      else if Named(ratchets, u.channelId) then Err(GrantInvalid)
      else
        Gather(cs, updates[1..], ratchets + [Ratchet(u.channelId, u.cumulative)],
               SatAdd(grant, u.cumulative - found.value.signed))
  }

  function Evaluate(state: Grant, admission: Admission, updates: seq<ChannelUpdate>, windowMs: u64, rate: u64): Verdict {
    var available := admission.RateAvailable();
    if updates == [] then Refuse(GrantInvalid, available)
    else
      match Gather(state.channels, updates, [], 0)
      case Err(reason) => Refuse(reason, available)
      case Ok((ratchets, grant)) =>
        if !admission.policy.WindowAcceptable(windowMs) || rate < admission.policy.minReservedRate then
          Refuse(OutOfRange, available)
        else if rate > state.reservedRate && rate > available then
          Refuse(RateExceedsCapacity, available)
        else
          Accept(ratchets, grant)
  }
}
