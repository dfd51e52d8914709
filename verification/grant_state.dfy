/** `GrantState`, the provider's mutable record of one payer, refining the functions on `Grant`. */
module GrantStates {
  import opened Numbers
  import opened Wrappers
  import opened Wire
  import opened Limits
  import opened Grants
  import opened GrantChannels

  class GrantState {
    var channels: seq<IncomingChannel>
    var authorized: u64
    var consumed: u64
    var deadline: Millis
    var reservedRate: u64
    var lastTopup: Option<Millis>
    var second: Option<Second>

    ghost function Value(): Grant
      reads this
    {
      Grant(channels, authorized, consumed, deadline, reservedRate, lastTopup, second)
    }

    constructor ()
      ensures Value() == NewGrant()
    {
      channels, authorized, consumed, deadline, reservedRate, lastTopup, second := [], 0, 0, 0, 0, None, None;
    }

    method Position(id: ChannelId) returns (i: nat)
      ensures FirstAt(channels, id, i)
    {
      i := 0;
      while i < |channels| && channels[i].id != id
        invariant i <= |channels| && forall j :: 0 <= j < i ==> channels[j].id != id
      {
        i := i + 1;
      }
    }

    method OpenChannel(id: ChannelId, capacity: u64, expiresAt: Option<Millis>)
      modifies this`channels
      ensures Value() == old(Value()).OpenChannel(id, capacity, expiresAt)
    {
      var i := Position(id);
      SearchAgrees(channels, id, i);
      if i < |channels| {
        UpdateAgrees(channels, channels[i].(capacity := capacity, expiresAt := expiresAt), i);
        channels := channels[i := channels[i].(capacity := capacity, expiresAt := expiresAt)];
      } else {
        channels := channels + [IncomingChannel(id, capacity, 0, 0, expiresAt)];
      }
    }

    method CloseChannel(id: ChannelId) returns (closed: Option<IncomingChannel>)
      modifies this`channels
      ensures Value() == old(Value()).CloseChannel(id)
      ensures closed == Find(old(channels), id)
    {
      var i := Position(id);
      SearchAgrees(channels, id, i);
      if i == |channels| {
        return None;
      }
      closed := Some(channels[i]);
      channels := channels[..i] + channels[i + 1..];
    }

    method RecordFailure(id: ChannelId) returns (failures: Option<u64>)
      modifies this`channels
      ensures (Value(), failures) == old(Value()).RecordFailure(id)
    {
      var i := Position(id);
      SearchAgrees(channels, id, i);
      if i == |channels| {
        return None;
      }
      var counted := channels[i].(failures := Min(channels[i].failures + 1, 0xFFFF_FFFF));
      UpdateAgrees(channels, counted, i);
      channels := channels[i := counted];
      failures := Some(counted.failures);
    }

    method Take(owed: u64) returns (drawn: u64)
      requires Value().Valid()
      modifies this`consumed, this`reservedRate
      ensures Value() == old(Value()).Take(owed) && Value().Valid()
      ensures drawn == consumed - old(consumed) == Min(owed, old(Value()).Remaining())
    {
      drawn := Min(owed, SatSub(authorized, consumed));
      consumed := SatAdd(consumed, drawn);
      if SatSub(authorized, consumed) == 0 {
        reservedRate := 0;
      }
    }

    method Draw(moved: u64, now: Millis) returns (drawn: u64)
      requires Value().Valid()
      modifies this`consumed, this`reservedRate, this`second
      ensures Value() == old(Value()).Draw(moved, now) && Value().Valid()
      ensures drawn == consumed - old(consumed)
    {
      var owed;
      match second {
        case Some(open) =>
          var (open', due) := open.Read(moved, now, reservedRate);
          second, owed := Some(open'), due;
        case None =>
          var (open', _) := Starting(now).Read(moved, now, reservedRate);
          second, owed := Some(open'), moved;
      }
      hide Second.Read;
      drawn := Take(owed);
    }

    method Pause() returns (drawn: u64)
      requires Value().Valid()
      modifies this`consumed, this`reservedRate, this`second
      ensures Value() == old(Value()).Pause() && Value().Valid()
      ensures drawn == consumed - old(consumed)
    {
      if second.None? {
        return 0;
      }
      var open := second.value;
      second := None;
      drawn := Take(open.Close(open.at, reservedRate));
    }

    method ExpireIfDue(now: Millis) returns (forfeit: bool)
      modifies this`consumed, this`reservedRate
      ensures Value() == old(Value()).ExpireIfDue(now)
      ensures forfeit <==> deadline <= now && old(consumed) < authorized
    {
      if now < deadline {
        return false;
      }
      reservedRate := 0;
      if consumed < authorized {
        consumed := authorized;
        return true;
      }
      return false;
    }

    method Apply(ratchets: seq<Ratchet>, grant: u64, windowMs: u64, rate: u64, now: Millis)
      requires Value().Valid()
      modifies this
      ensures Value() == old(Value()).Apply(ratchets, grant, windowMs, rate, now)
    {
      for i := 0 to |ratchets|
        invariant Value() == old(Value()).(channels := channels)
        invariant TurnRatchets(channels, ratchets[i..]) == TurnRatchets(old(channels), ratchets)
      {
        var at := Position(ratchets[i].id);
        SearchAgrees(channels, ratchets[i].id, at);
        assert ratchets[i..][1..] == ratchets[i + 1..];
        if at < |channels| {
          var turned := channels[at].(signed := ratchets[i].cumulative, failures := 0);
          UpdateAgrees(channels, turned, at);
          channels := channels[at := turned];
        }
      }
      assert ratchets[|ratchets|..] == [];
      var forfeit := ExpireIfDue(now);
      if rate != reservedRate && second.Some? {
        var open := second.value;
        second := None;
        var drawn := Take(open.Close(now, reservedRate));
      }
      authorized := SatAdd(authorized, grant);
      deadline := Max(deadline, SatAdd(now, windowMs));
      reservedRate := rate;
      if second.None? {
        second := Some(Starting(now));
      }
    }

    method Restore(budget: Budget, now: Millis)
      modifies this
      ensures Value() == old(Value()).Restore(budget, now)
    {
      var b := budget.At(now);
      authorized, consumed, deadline, reservedRate, second := b.remaining, 0, b.deadline, 0, None;
    }

    method Restart(now: Millis)
      requires Value().Valid()
      modifies this
      ensures Value() == old(Value()).Restart(now)
    {
      var drawn := Pause();
      ghost var paused := Value();
      for i := 0 to |channels|
        invariant Value() == paused.(channels := channels) && |channels| == |paused.channels|
        invariant forall j :: 0 <= j < |channels| ==>
          channels[j] == if j < i then paused.channels[j].(failures := 0) else paused.channels[j]
      {
        channels := channels[i := channels[i].(failures := 0)];
      }
      assert channels == ClearFailures(paused.channels);
      var budget := Budget(SatSub(authorized, consumed), deadline).At(now);
      authorized, consumed, deadline, reservedRate, lastTopup, second := 0, 0, 0, 0, None, None;
      Restore(budget, now);
    }

    method EndReservation()
      requires Value().Valid()
      modifies this
      ensures Value() == old(Value()).EndReservation()
    {
      var drawn := Pause();
      reservedRate := 0;
    }

    method TopupChecked(now: Millis)
      modifies this`lastTopup
      ensures Value() == old(Value()).TopupChecked(now)
    {
      lastTopup := Some(now);
    }
  }

  /** The admission decision as it is computed: one pass over the updates. */
  method EvaluateTopup(state: Grant, admission: Admission, updates: seq<ChannelUpdate>, windowMs: u64, rate: u64)
    returns (verdict: Verdict)
    ensures verdict == Evaluate(state, admission, updates, windowMs, rate)
  {
    var available := admission.RateAvailable();
    if updates == [] {
      return Refuse(GrantInvalid, available);
    }
    var ratchets, grant: u64 := [], 0;
    for i := 0 to |updates|
      invariant Gather(state.channels, updates, [], 0) == Gather(state.channels, updates[i..], ratchets, grant)
    {
      assert updates[i..][1..] == updates[i + 1..];
      var u := updates[i];
      var found := Find(state.channels, u.channelId);
      if found.None? {
        return Refuse(FundingInvalid, available);
      }
      if u.cumulative <= found.value.signed {
        return Refuse(GrantInvalid, available);
      }
      if u.cumulative > found.value.capacity {
        return Refuse(GrantExceedsChannel, available);
      }
      if Named(ratchets, u.channelId) {
        return Refuse(GrantInvalid, available);
      }
      grant := SatAdd(grant, u.cumulative - found.value.signed);
      ratchets := ratchets + [Ratchet(u.channelId, u.cumulative)];
    }
    if !admission.policy.WindowAcceptable(windowMs) || rate < admission.policy.minReservedRate {
      return Refuse(OutOfRange, available);
    }
    if rate > state.reservedRate && rate > available {
      return Refuse(RateExceedsCapacity, available);
    }
    return Accept(ratchets, grant);
  }
}
