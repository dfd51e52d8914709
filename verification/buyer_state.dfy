/** `BuyerState`, the payer's mutable record of one peering, refining the functions on `Buyer`. */
module BuyerStates {
  import opened Numbers
  import opened Wrappers
  import opened Wire
  import opened Limits
  import opened Grants
  import opened Buyers

  class BuyerState {
    var active: Option<ChannelBuyer>
    var next: Option<ChannelBuyer>
    var pending: Option<ChannelBuyer>
    var funding: Option<FundingRequests>
    var remaining: u64
    var deadline: Millis
    var reserved: u64
    var second: Option<Second>
    var lastTopup: Option<Millis>
    var started: bool
    var resumed: u64
    var cappedAt: Option<Cap>
    var lastGrant: u64
    var prior: Option<Prior>

    ghost function Value(): Buyer
      reads this
    {
      Buyer(active, next, pending, funding, remaining, deadline, reserved, second, lastTopup, started, resumed,
            cappedAt, lastGrant, prior)
    }

    constructor ()
      ensures Value() == NewBuyer()
    {
      active, next, pending, funding, remaining, deadline, reserved := None, None, None, None, 0, 0, 0;
      second, lastTopup, started, resumed, cappedAt, lastGrant, prior := None, None, false, 0, None, 0, None;
    }

    method Take(drawn: u64)
      modifies this`remaining, this`reserved
      ensures Value() == old(Value()).Take(drawn)
    {
      remaining := SatSub(remaining, drawn);
      if remaining == 0 {
        reserved := 0;
      }
    }

    method Draw(moved: u64, now: Millis)
      modifies this`remaining, this`reserved, this`second
      ensures Value() == old(Value()).Draw(moved, now)
    {
      if now >= deadline {
        remaining, reserved, second := 0, 0, None;
        return;
      }
      if second.None? {
        second := Some(Starting(now));
      }
      var (open, drawn) := second.value.Read(moved, now, reserved);
      second := Some(open);
      hide Second.Read;
      Take(drawn);
    }

    method Restart()
      modifies this
      ensures Value() == old(Value()).Restart()
    {
      hide Second.Close, Buyer.Take;
      if second.Some? {
        var open := second.value;
        second := None;
        Take(open.Close(open.at, reserved));
      }
      if started {
        resumed := reserved;
      }
      reserved, second, lastTopup, started, cappedAt, prior := 0, None, None, false, None, None;
    }

    method StartOver()
      modifies this
      ensures Value() == old(Value()).StartOver()
    {
      active, next, pending, funding, remaining, deadline, reserved := None, None, None, None, 0, 0, 0;
      second, lastTopup, started, cappedAt, lastGrant, prior := None, None, false, None, 0, None;
    }

    method NoteBalance(left: u64, expiresInMs: u64, now: Millis)
      modifies this`remaining, this`deadline
      ensures Value() == old(Value()).NoteBalance(left, expiresInMs, now)
    {
      if left == 0 || expiresInMs == 0 || started {
        return;
      }
      if (if now >= deadline then 0 else remaining) == 0 {
        remaining := left;
        deadline := Max(deadline, SatAdd(now, expiresInMs));
      }
    }

    method FundingRequested(request: u64, now: Millis)
      modifies this`funding
      ensures Value() == old(Value()).FundingRequested(request, now)
    {
      var first := if funding.Some? then funding.value.first else request;
      funding := Some(FundingRequests(first, request, Some(now)));
    }

    method FundingFailed(request: u64)
      modifies this`funding
      ensures Value() == old(Value()).FundingFailed(request)
    {
      if funding.Some? && funding.value.latest == request {
        funding := Some(funding.value.(since := None));
      }
    }

    method FundedWith(id: ChannelId, capacity: u64, expiresAt: Option<Millis>)
      modifies this`funding, this`pending
      ensures Value() == old(Value()).FundedWith(id, capacity, expiresAt)
    {
      funding := None;
      pending := Some(ChannelBuyer(id, capacity, 0, expiresAt));
    }

    method Confirmed(id: ChannelId)
      modifies this`pending, this`active, this`next
      ensures Value() == old(Value()).Confirmed(id)
    {
      if pending.None? {
        return;
      }
      var channel := pending.value.(id := id);
      pending := None;
      if active.None? || active.value.Exhausted() {
        active := Some(channel);
      } else {
        next := Some(channel);
      }
    }

    method RetireExpiring(now: Millis, marginMs: u64, settleLeadMs: u64) returns (retired: Option<ChannelId>)
      modifies this`active, this`next, this`prior
      ensures Value() == old(Value()).RetireExpiring(now, marginMs, settleLeadMs)
      ensures retired.Some? ==> old(active).Some? && retired.value == old(active).value.id && active == old(next) && next.None?
      ensures retired.None? ==> Value() == old(Value())
    {
      if active.None? || !active.value.Expiring(now, marginMs) {
        return None;
      }
      retired := Some(active.value.id);
      if next.Some? {
        active, next := next, None;
      } else if active.value.Expiring(now, settleLeadMs) {
        active := None;
      } else {
        return None;
      }
      prior := None;
    }

    method RetireExhausted() returns (retired: Option<ChannelId>)
      modifies this`active, this`next
      ensures (Value(), retired) == old(Value()).RetireExhausted()
    {
      if active.None? || !active.value.Exhausted() || next.None? {
        return None;
      }
      retired := Some(active.value.id);
      active, next := next, None;
    }

    method Sign(p: Purchase)
      modifies this`active, this`next
      ensures Value() == old(Value()).Sign(p)
    {
      if active.Some? {
        active := Some(active.value.(cumulative := p.first.cumulative));
      }
      if p.second.Some? && next.Some? {
        next := Some(next.value.(cumulative := p.second.value.cumulative));
      }
    }

    method SplitSecond(rate: u64, now: Millis)
      modifies this`remaining, this`reserved, this`second
      ensures Value() == old(Value()).SplitSecond(rate, now)
    {
      if rate != reserved && second.Some? {
        var open := second.value;
        second := None;
        Take(open.Close(now, reserved));
      }
    }

    method Count(p: Purchase, now: Millis)
      modifies this
      ensures Value() == old(Value()).Count(p, now)
    {
      hide Buyer.SplitSecond, Buyer.Take, Second.Close;
      SplitSecond(p.reservedRate, now);
      remaining := SatAdd(if now >= deadline then 0 else remaining, p.grant);
      deadline := Max(deadline, SatAdd(now, p.windowMs));
      reserved := p.reservedRate;
      started, resumed, lastTopup, lastGrant := true, 0, Some(now), p.grant;
      if second.None? {
        second := Some(Starting(now));
      }
    }

    method Record(p: Purchase, now: Millis) returns (retired: Option<ChannelId>)
      modifies this
      ensures (Value(), retired) == old(Value()).Record(p, now)
    {
      prior := Some(Prior(active, next, deadline, reserved, started, resumed, p.grant));
      Sign(p);
      Count(p, now);
      retired := RetireExhausted();
    }

    method RecordReject(refused: seq<Ratchet>, reason: ReasonCode, maxReservedRate: u64, now: Millis, holdMs: u64)
      modifies this
      ensures Value() == old(Value()).RecordReject(refused, reason, maxReservedRate, now, holdMs)
    {
      hide Holds, Buyer.Rewind;
      if reason == RateExceedsCapacity {
        cappedAt := Some(Cap(maxReservedRate, SatAdd(now, holdMs)));
      }
      if Holds(active, refused) || Holds(next, refused) {
        Rewind();
      }
    }

    /** Undo the last purchase, if it has not been undone. */
    method Rewind()
      modifies this
      ensures Value() == old(Value()).Rewind()
    {
      if prior.None? {
        return;
      }
      var p := prior.value;
      prior := None;
      active, next, deadline, reserved, started, resumed := p.active, p.next, p.deadline, p.reserved, p.started, p.resumed;
      remaining := SatSub(remaining, p.grant);
    }
  }
}
