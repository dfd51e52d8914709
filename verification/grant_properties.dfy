/**
  The admission decision in both directions; value conserved over any stream of purchases,
  however the messages are lost, repeated or reordered; and the one rule as it reaches the budget.
 */
module GrantProperties {
  import opened Numbers
  import opened Wrappers
  import opened Wire
  import opened Limits
  import opened LimitsProperties
  import opened Grants
  import opened GrantChannels

  // ------------------------------------------------------------------------
  // Exactly which purchases are honored
  // ------------------------------------------------------------------------

  /** An update that can be ratcheted: a known channel, a higher total, within its capacity. */
  ghost predicate Ratchets(cs: seq<IncomingChannel>, u: ChannelUpdate) {
    var found := Find(cs, u.channelId);
    found.Some? && found.value.signed < u.cumulative <= found.value.capacity
  }

  /** Every update can be ratcheted, and none names a channel a second time. */
  ghost predicate AllRatchet(cs: seq<IncomingChannel>, updates: seq<ChannelUpdate>) {
    updates == [] ||
    (Ratchets(cs, updates[0]) && NotNamed(updates[0].channelId, updates[1..]) && AllRatchet(cs, updates[1..]))
  }

  ghost predicate NotNamed(id: ChannelId, updates: seq<ChannelUpdate>) {
    forall u :: u in updates ==> u.channelId != id
  }

  function ToRatchets(updates: seq<ChannelUpdate>): seq<Ratchet> {
    if updates == [] then [] else [Ratchet(updates[0].channelId, updates[0].cumulative)] + ToRatchets(updates[1..])
  }

  lemma {:induction false} ToRatchetsReads(updates: seq<ChannelUpdate>)
    ensures |ToRatchets(updates)| == |updates|
    ensures forall i :: 0 <= i < |updates| ==> ToRatchets(updates)[i] == Ratchet(updates[i].channelId, updates[i].cumulative)
  {
    if updates != [] {
      ToRatchetsReads(updates[1..]);
    }
  }

  /** None of the ids in `updates` was named before. */
  ghost predicate Fresh(ratchets: seq<Ratchet>, updates: seq<ChannelUpdate>) {
    forall r, u :: r in ratchets && u in updates ==> r.id != u.channelId
  }

  lemma {:induction false} GatherIff(cs: seq<IncomingChannel>, updates: seq<ChannelUpdate>, ratchets: seq<Ratchet>, grant: u64)
    ensures Gather(cs, updates, ratchets, grant).Ok? <==> AllRatchet(cs, updates) && Fresh(ratchets, updates)
    decreases |updates|
  {
    if updates != [] {
      var u, rest := updates[0], updates[1..];
      assert updates == [u] + rest;
      hide Find;
      if Ratchets(cs, u) && !Named(ratchets, u.channelId) {
        FreshSplits(ratchets, u, rest);
        GatherIff(cs, rest, ratchets + [Ratchet(u.channelId, u.cumulative)],
                  SatAdd(grant, u.cumulative - Find(cs, u.channelId).value.signed));
      }
    }
  }

  lemma FreshSplits(ratchets: seq<Ratchet>, u: ChannelUpdate, rest: seq<ChannelUpdate>)
    requires !Named(ratchets, u.channelId)
    ensures Fresh(ratchets + [Ratchet(u.channelId, u.cumulative)], rest) <==>
      Fresh(ratchets, [u] + rest) && NotNamed(u.channelId, rest)
  {
    var here := Ratchet(u.channelId, u.cumulative);
    assert forall r :: r in ratchets + [here] <==> r in ratchets || r == here;
    assert forall v :: v in [u] + rest <==> v == u || v in rest;
    assert here in ratchets + [here];
  }

  lemma {:induction false} GatherTotals(cs: seq<IncomingChannel>, updates: seq<ChannelUpdate>, ratchets: seq<Ratchet>, grant: u64)
    requires AllRatchet(cs, updates) && Fresh(ratchets, updates)
    ensures Rise(cs, ToRatchets(updates)) >= 0
    ensures Gather(cs, updates, ratchets, grant) ==
      Ok((ratchets + ToRatchets(updates), Saturate(grant + Rise(cs, ToRatchets(updates)))))
    decreases |updates|
  {
    hide Find;
    if updates == [] {
      assert ratchets + [] == ratchets;
    } else {
      var u, rest := updates[0], updates[1..];
      var here := Ratchet(u.channelId, u.cumulative);
      assert updates == [u] + rest && !Named(ratchets, u.channelId);
      FreshSplits(ratchets, u, rest);
      GatherTotals(cs, rest, ratchets + [here], SatAdd(grant, u.cumulative - Find(cs, u.channelId).value.signed));
      assert ratchets + [here] + ToRatchets(rest) == ratchets + ToRatchets(updates);
      assert ToRatchets(updates)[1..] == ToRatchets(rest);
    }
  }

  lemma {:induction false} NoRepeatedRatchet(cs: seq<IncomingChannel>, updates: seq<ChannelUpdate>)
    requires AllRatchet(cs, updates)
    ensures NoRepeat(ToRatchets(updates))
  {
    hide Ratchets;
    if updates != [] {
      var rest := updates[1..];
      NoRepeatedRatchet(cs, rest);
      ToRatchetsReads(rest);
      assert ToRatchets(updates) == [Ratchet(updates[0].channelId, updates[0].cumulative)] + ToRatchets(rest);
      forall i | 0 <= i < |rest| ensures ToRatchets(rest)[i].id != updates[0].channelId {
        assert rest[i] in rest;
      }
    }
  }

  /**
    A purchase is honored exactly when every update ratchets its own channel within its capacity,
    the terms are the advertised ones, and the reservation is no higher or fits; and then all of
    it is, for exactly the combined increase.
   */
  lemma HonoredExactlyWhen(g: Grant, admission: Admission, updates: seq<ChannelUpdate>, windowMs: u64, rate: u64)
    ensures Evaluate(g, admission, updates, windowMs, rate).Accept? <==>
      && updates != [] && AllRatchet(g.channels, updates)
      && admission.policy.WindowAcceptable(windowMs) && admission.policy.minReservedRate <= rate
      && (rate <= g.reservedRate || rate <= admission.RateAvailable())
    ensures Evaluate(g, admission, updates, windowMs, rate).Accept? ==>
      && NoRepeat(ToRatchets(updates))
      && Rise(g.channels, ToRatchets(updates)) >= 0
      && Evaluate(g, admission, updates, windowMs, rate) ==
         Accept(ToRatchets(updates), Saturate(Rise(g.channels, ToRatchets(updates))))
  {
    GatherIff(g.channels, updates, [], 0);
    if AllRatchet(g.channels, updates) {
      GatherTotals(g.channels, updates, [], 0);
      NoRepeatedRatchet(g.channels, updates);
      assert [] + ToRatchets(updates) == ToRatchets(updates);
    }
  }

  /** The first update at fault, all before it good. */
  ghost predicate FirstFault(cs: seq<IncomingChannel>, updates: seq<ChannelUpdate>, i: nat) {
    && i < |updates| && !Good(cs, updates, i) && forall j :: 0 <= j < i ==> Good(cs, updates, j)
  }

  ghost predicate Good(cs: seq<IncomingChannel>, updates: seq<ChannelUpdate>, i: nat)
    requires i < |updates|
  {
    Ratchets(cs, updates[i]) && !NamedBefore(updates, i)
  }

  ghost predicate NamedBefore(updates: seq<ChannelUpdate>, i: nat)
    requires i < |updates|
  {
    exists j :: 0 <= j < i && updates[j].channelId == updates[i].channelId
  }

  /** What is wrong with an update: no such channel, more than it holds, or a total that does not rise. */
  ghost function FaultOf(cs: seq<IncomingChannel>, u: ChannelUpdate): ReasonCode {
    var found := Find(cs, u.channelId);
    if found.None? then FundingInvalid
    else if found.value.signed < u.cumulative && found.value.capacity < u.cumulative then GrantExceedsChannel
    else GrantInvalid
  }

  lemma {:induction false} GatherFault(cs: seq<IncomingChannel>, updates: seq<ChannelUpdate>, i: nat, k: nat, ratchets: seq<Ratchet>, grant: u64)
    requires FirstFault(cs, updates, i) && k <= i
    requires |ratchets| == k && forall j :: 0 <= j < k ==> ratchets[j].id == updates[j].channelId
    ensures Gather(cs, updates[k..], ratchets, grant) == Err(FaultOf(cs, updates[i]))
    decreases i - k
  {
    var u, rest := updates[k], updates[k..];
    assert rest[0] == u && rest[1..] == updates[k + 1..];
    assert Named(ratchets, u.channelId) <==> NamedBefore(updates, k) by {
      if NamedBefore(updates, k) {
        var j :| 0 <= j < k && updates[j].channelId == u.channelId;
        assert ratchets[j] in ratchets;
      }
    }
    hide Find;
    if k < i {
      assert Good(cs, updates, k);
      GatherFault(cs, updates, i, k + 1, ratchets + [Ratchet(u.channelId, u.cumulative)], SatAdd(grant, u.cumulative - Find(cs, u.channelId).value.signed));
    }
  }

  lemma {:induction false} FaultExists(cs: seq<IncomingChannel>, updates: seq<ChannelUpdate>, k: nat) returns (i: nat)
    requires k <= |updates| && forall j :: 0 <= j < k ==> Good(cs, updates, j)
    ensures FirstFault(cs, updates, i) || (i == |updates| && forall j :: 0 <= j < i ==> Good(cs, updates, j))
    decreases |updates| - k
  {
    hide Find, NamedBefore;
    if k == |updates| || !Good(cs, updates, k) {
      i := k;
    } else {
      i := FaultExists(cs, updates, k + 1);
    }
  }

  lemma {:induction false} GoodIffRatchets(cs: seq<IncomingChannel>, updates: seq<ChannelUpdate>)
    ensures AllRatchet(cs, updates) <==> forall i :: 0 <= i < |updates| ==> Good(cs, updates, i)
  {
    if updates != [] {
      var u, rest := updates[0], updates[1..];
      GoodIffRatchets(cs, rest);
      hide Find, Ratchets;
      forall i | 0 <= i < |rest| ensures Good(cs, updates, i + 1) <==> Good(cs, rest, i) && rest[i].channelId != u.channelId {
        assert updates[i + 1] == rest[i];
        if NamedBefore(rest, i) {
          var j :| 0 <= j < i && rest[j].channelId == rest[i].channelId;
          assert updates[j + 1] == rest[j];
        }
        if NamedBefore(updates, i + 1) {
          var j :| 0 <= j < i + 1 && updates[j].channelId == updates[i + 1].channelId;
          assert j > 0 ==> rest[j - 1] == updates[j];
        }
        if rest[i].channelId == u.channelId {
          assert updates[0].channelId == updates[i + 1].channelId;
        }
      }
      GoodFromTail(cs, updates);
    }
  }

  lemma GoodFromTail(cs: seq<IncomingChannel>, updates: seq<ChannelUpdate>)
    requires updates != []
    requires forall i :: 0 <= i < |updates| - 1 ==>
      (Good(cs, updates, i + 1) <==> Good(cs, updates[1..], i) && updates[1..][i].channelId != updates[0].channelId)
    ensures (forall i :: 0 <= i < |updates| ==> Good(cs, updates, i)) <==>
      Ratchets(cs, updates[0]) && NotNamed(updates[0].channelId, updates[1..]) && forall i :: 0 <= i < |updates[1..]| ==> Good(cs, updates[1..], i)
  {
    hide Find, Ratchets;
    var rest := updates[1..];
    if forall i :: 0 <= i < |updates| ==> Good(cs, updates, i) {
      assert Good(cs, updates, 0);
      forall i | 0 <= i < |rest| ensures Good(cs, rest, i) && rest[i].channelId != updates[0].channelId {
        assert Good(cs, updates, i + 1);
      }
    }
    if Ratchets(cs, updates[0]) && NotNamed(updates[0].channelId, rest) && forall i :: 0 <= i < |rest| ==> Good(cs, rest, i) {
      forall i | 0 <= i < |updates| ensures Good(cs, updates, i) {
        if i > 0 {
          assert Good(cs, rest, i - 1) && rest[i - 1] in rest;
        }
      }
    }
  }

  /**
    And why one is refused: for the first update at fault; if none is, for terms the policy does not take; and
    if it takes them, for a rate there is no room for. The refusal names what is still free.
   */
  lemma RefusedWhy(g: Grant, admission: Admission, updates: seq<ChannelUpdate>, windowMs: u64, rate: u64) returns (i: nat)
    ensures var v := Evaluate(g, admission, updates, windowMs, rate);
      v.Refuse? ==>
        && v.maxReservedRate == admission.RateAvailable()
        && if updates == [] then v.reason == GrantInvalid
           else if FirstFault(g.channels, updates, i) then v.reason == FaultOf(g.channels, updates[i])
           else
             && (forall j :: 0 <= j < |updates| ==> Good(g.channels, updates, j))
             && if admission.policy.minWindowMs <= windowMs <= admission.policy.maxWindowMs && admission.policy.minReservedRate <= rate
                then v.reason == RateExceedsCapacity && rate > g.reservedRate && rate > admission.RateAvailable()
                else v.reason == OutOfRange
  {
    hide Good, FaultOf, AllRatchet, Gather;
    i := FaultExists(g.channels, updates, 0);
    GatherIff(g.channels, updates, [], 0);
    GoodIffRatchets(g.channels, updates);
    if FirstFault(g.channels, updates, i) {
      assert updates[0..] == updates;
      GatherFault(g.channels, updates, i, 0, [], 0);
    }
  }

  // ------------------------------------------------------------------------
  // Value conserved over any stream
  // ------------------------------------------------------------------------

  /** What can happen to a payer's channels and budget, in any order and any number of times. */
  datatype Happening =
    | Delivered(topup: TopUp, admission: Admission, now: Millis)
    | Opened(id: ChannelId, capacity: u64, expiresAt: Option<Millis>)
    | Settled(id: ChannelId)
    | Failed(id: ChannelId)
    | Metered(moved: u64, now: Millis)
    | Paused
    | Expired(now: Millis)
    | Restarted(now: Millis)

  /** The payer's state, the channels settled so far as they stood, and the grants accepted so far. */
  datatype Account = Account(grant: Grant, settled: seq<IncomingChannel>, granted: nat)

  function Settle(a: Account, id: ChannelId): Account {
    var found := Find(a.grant.channels, id);
    if found.None? then a else a.(grant := a.grant.CloseChannel(id), settled := a.settled + [found.value])
  }

  function Happens(a: Account, h: Happening): Account {
    match h
    case Delivered(m, admission, now) =>
      (match Evaluate(a.grant, admission, m.updates, m.windowMs, m.reservedRate)
       case Accept(ratchets, grant) =>
         a.(grant := a.grant.Apply(ratchets, grant, m.windowMs, m.reservedRate, now), granted := a.granted + grant)
       case Refuse(_, _) => a)
    case Opened(id, capacity, expiresAt) => a.(grant := a.grant.OpenChannel(id, capacity, expiresAt))
    case Settled(id) => Settle(a, id)
    case Failed(id) => a.(grant := a.grant.RecordFailure(id).0)
    case Metered(moved, now) => a.(grant := a.grant.Draw(moved, now))
    case Paused => a.(grant := a.grant.Pause())
    case Expired(now) => a.(grant := a.grant.ExpireIfDue(now))
    case Restarted(now) => a.(grant := a.grant.Restart(now))
  }

  function Run(a: Account, hs: seq<Happening>): Account
    decreases |hs|
  {
    if hs == [] then a else Run(Happens(a, hs[0]), hs[1..])
  }

  function SignedEver(a: Account): nat {
    SignedTotal(a.grant.channels) + SignedTotal(a.settled)
  }

  /** What a purchase raises its channels by together fits the 64 bits its grant is counted in, if it is honored. */
  ghost predicate Fits(a: Account, h: Happening) {
    h.Delivered? && Evaluate(a.grant, h.admission, h.topup.updates, h.topup.windowMs, h.topup.reservedRate).Accept? ==>
      Rise(a.grant.channels, ToRatchets(h.topup.updates)) <= U64_MAX
  }

  lemma ClearedTotal(cs: seq<IncomingChannel>)
    ensures SignedTotal(ClearFailures(cs)) == SignedTotal(cs)
  {
    if cs != [] {
      assert ClearFailures(cs)[1..] == ClearFailures(cs[1..]);
      ClearedTotal(cs[1..]);
    }
  }

  lemma ApplyChannels(g: Grant, ratchets: seq<Ratchet>, grant: u64, windowMs: u64, rate: u64, now: Millis)
    ensures g.Apply(ratchets, grant, windowMs, rate, now).channels == TurnRatchets(g.channels, ratchets)
  {
  }

  lemma RestartChannels(g: Grant, now: Millis)
    ensures g.Restart(now).channels == ClearFailures(g.channels)
  {
  }

  lemma DrawChannels(g: Grant, moved: u64, now: Millis)
    ensures g.Draw(moved, now).channels == g.channels && g.Pause().channels == g.channels
    ensures g.ExpireIfDue(now).channels == g.channels
  {
  }

  lemma DeliveryConserves(a: Account, m: TopUp, admission: Admission, now: Millis)
    requires Distinct(a.grant.channels)
    ensures var h := Delivered(m, admission, now);
      var after := Happens(a, h);
      && Distinct(after.grant.channels) && after.granted - a.granted <= SignedEver(after) - SignedEver(a)
      && (after.granted - a.granted == SignedEver(after) - SignedEver(a) <==> Fits(a, h))
  {
    hide Evaluate, TurnRatchets, Grant.Apply, AllRatchet;
    var g := a.grant;
    HonoredExactlyWhen(g, admission, m.updates, m.windowMs, m.reservedRate);
    if Evaluate(g, admission, m.updates, m.windowMs, m.reservedRate).Accept? {
      var ratchets := ToRatchets(m.updates);
      TurnTotal(g.channels, ratchets);
      ApplyChannels(g, ratchets, Saturate(Rise(g.channels, ratchets)), m.windowMs, m.reservedRate, now);
    }
  }

  lemma HappeningKeepsDistinct(a: Account, h: Happening)
    requires Distinct(a.grant.channels)
    ensures Distinct(Happens(a, h).grant.channels)
  {
    hide Evaluate, TurnRatchets, Put, Remove;
    var g := a.grant;
    match h
    case Delivered(m, admission, now) =>
      HonoredExactlyWhen(g, admission, m.updates, m.windowMs, m.reservedRate);
      if Evaluate(g, admission, m.updates, m.windowMs, m.reservedRate).Accept? {
        var ratchets := ToRatchets(m.updates);
        TurnTotal(g.channels, ratchets);
        ApplyChannels(g, ratchets, Saturate(Rise(g.channels, ratchets)), m.windowMs, m.reservedRate, now);
      }
    case Opened(id, capacity, expiresAt) =>
      var found := Find(g.channels, id);
      if found.Some? {
        PutKeepsDistinct(g.channels, found.value.(capacity := capacity, expiresAt := expiresAt));
      }
    case Settled(id) => RemoveKeepsDistinct(g.channels, id);
    case Failed(id) =>
      var found := Find(g.channels, id);
      if found.Some? {
        PutKeepsDistinct(g.channels, found.value.(failures := Min(found.value.failures + 1, 0xFFFF_FFFF)));
      }
    case Metered(moved, now) => DrawChannels(g, moved, now);
    case Paused => DrawChannels(g, 0, 0);
    case Expired(now) => DrawChannels(g, 0, now);
    case Restarted(now) => RestartChannels(g, now);
  }

  lemma HappeningConserves(a: Account, h: Happening)
    requires Distinct(a.grant.channels)
    ensures Distinct(Happens(a, h).grant.channels)
    ensures Happens(a, h).granted - a.granted <= SignedEver(Happens(a, h)) - SignedEver(a)
    ensures Happens(a, h).granted - a.granted == SignedEver(Happens(a, h)) - SignedEver(a) <==> Fits(a, h)
  {
    hide Evaluate, TurnRatchets, Put, Remove;
    var g := a.grant;
    match h
    case Delivered(m, admission, now) =>
      DeliveryConserves(a, m, admission, now);
    case Opened(id, capacity, expiresAt) =>
      var found := Find(g.channels, id);
      if found.Some? {
        PutTotal(g.channels, found.value.(capacity := capacity, expiresAt := expiresAt));
        PutKeepsDistinct(g.channels, found.value.(capacity := capacity, expiresAt := expiresAt));
      } else {
        SignedTotalSplits(g.channels, [IncomingChannel(id, capacity, 0, 0, expiresAt)]);
      }
    case Settled(id) =>
      RemoveTotal(g.channels, id);
      RemoveKeepsDistinct(g.channels, id);
      if Find(g.channels, id).Some? {
        SignedTotalSplits(a.settled, [Find(g.channels, id).value]);
      }
    case Failed(id) =>
      var found := Find(g.channels, id);
      if found.Some? {
        var counted := found.value.(failures := Min(found.value.failures + 1, 0xFFFF_FFFF));
        PutTotal(g.channels, counted);
        PutKeepsDistinct(g.channels, counted);
      }
    case Metered(moved, now) => DrawChannels(g, moved, now);
    case Paused => DrawChannels(g, 0, 0);
    case Expired(now) => DrawChannels(g, 0, now);
    case Restarted(now) =>
      RestartChannels(g, now);
      ClearedTotal(g.channels);
  }

  ghost predicate AllFit(a: Account, hs: seq<Happening>)
    decreases |hs|
  {
    hs == [] || (Fits(a, hs[0]) && AllFit(Happens(a, hs[0]), hs[1..]))
  }

  /**
    Over any run, the grants accepted add up to at most the total rise of what is signed over all
    channels, open and settled, and to exactly that when no one purchase raises them by more than its
    grant can say: nothing is granted twice, and nothing signed is left ungranted.
   */
  lemma {:induction false} GrantsAreTheRiseOfSigned(a: Account, hs: seq<Happening>)
    requires Distinct(a.grant.channels)
    ensures Run(a, hs).granted - a.granted <= SignedEver(Run(a, hs)) - SignedEver(a)
    ensures Run(a, hs).granted - a.granted == SignedEver(Run(a, hs)) - SignedEver(a) <==> AllFit(a, hs)
    decreases |hs|
  {
    if hs != [] {
      hide Happens, Fits;
      HappeningConserves(a, hs[0]);
      GrantsAreTheRiseOfSigned(Happens(a, hs[0]), hs[1..]);
    }
  }

  /** The one that does not fit: two channels of the largest capacity filled at once grant half of what they sign. */
  lemma SaturatedGrantFallsShort(a: Account, m: TopUp, admission: Admission, now: Millis, x: ChannelId, y: ChannelId, s: Signature)
    requires x != y && a.grant.channels == [IncomingChannel(x, U64_MAX, 0, 0, None), IncomingChannel(y, U64_MAX, 0, 0, None)]
    requires m.updates == [ChannelUpdate(x, U64_MAX, s), ChannelUpdate(y, U64_MAX, s)]
    requires admission.policy.WindowAcceptable(m.windowMs) && admission.policy.minReservedRate <= m.reservedRate <= admission.RateAvailable()
    ensures var after := Happens(a, Delivered(m, admission, now));
      after.granted - a.granted == U64_MAX && SignedEver(after) - SignedEver(a) == 2 * U64_MAX
  {
    hide Happens;
    var cs, us := a.grant.channels, m.updates;
    assert cs[1..][0] == cs[1] && Find(cs, x) == Some(cs[0]) && Find(cs, y) == Some(cs[1]);
    assert us[1..] == [us[1]] && us[1..][1..] == [];
    assert AllRatchet(cs, us[1..][1..]) && AllRatchet(cs, us[1..]) && AllRatchet(cs, us);
    HonoredExactlyWhen(a.grant, admission, us, m.windowMs, m.reservedRate);
    var rs := ToRatchets(us);
    ToRatchetsReads(us);
    assert rs == [Ratchet(x, U64_MAX), Ratchet(y, U64_MAX)] && rs[1..] == [rs[1]] && rs[1..][1..] == [];
    assert Rise(cs, rs[1..][1..]) == 0 && Rise(cs, rs[1..]) == U64_MAX && Rise(cs, rs) == 2 * U64_MAX;
    TurnTotal(cs, rs);
    ApplyChannels(a.grant, rs, U64_MAX, m.windowMs, m.reservedRate, now);
    HonoredGrants(a, m, admission, now, rs, U64_MAX);
  }

  lemma HonoredGrants(a: Account, m: TopUp, admission: Admission, now: Millis, rs: seq<Ratchet>, grant: u64)
    requires Evaluate(a.grant, admission, m.updates, m.windowMs, m.reservedRate) == Accept(rs, grant)
    ensures Happens(a, Delivered(m, admission, now)) ==
      a.(grant := a.grant.Apply(rs, grant, m.windowMs, m.reservedRate, now), granted := a.granted + grant)
  {
  }

  // ------------------------------------------------------------------------
  // No channel past its capacity, and no purchase twice
  // ------------------------------------------------------------------------

  /** A channel's capacity is fixed by what funded it, so an id always comes with the same one. */
  ghost predicate Funded(h: Happening, capacityOf: ChannelId -> u64) {
    h.Opened? ==> h.capacity == capacityOf(h.id)
  }

  ghost predicate Capped(cs: seq<IncomingChannel>, capacityOf: ChannelId -> u64) {
    forall c :: c in cs ==> c.signed <= c.capacity == capacityOf(c.id)
  }

  lemma {:induction false} PutMembers(cs: seq<IncomingChannel>, c: IncomingChannel)
    ensures forall d :: d in Put(cs, c) ==> d in cs || d == c
  {
    if cs != [] && cs[0].id != c.id {
      PutMembers(cs[1..], c);
    }
  }

  lemma {:induction false} TurnCapped(cs: seq<IncomingChannel>, rs: seq<Ratchet>, capacityOf: ChannelId -> u64)
    requires Capped(cs, capacityOf)
    requires forall r :: r in rs && Find(cs, r.id).Some? ==> r.cumulative <= capacityOf(r.id)
    ensures Capped(TurnRatchets(cs, rs), capacityOf)
    decreases |rs|
  {
    if rs != [] {
      var found := Find(cs, rs[0].id);
      if found.Some? {
        var turned := found.value.(signed := rs[0].cumulative, failures := 0);
        PutMembers(cs, turned);
        forall r | r in rs[1..] && Find(Put(cs, turned), r.id).Some?
          ensures r.cumulative <= capacityOf(r.id)
        {
          PutReads(cs, turned, r.id);
          assert r in rs;
        }
        TurnCapped(Put(cs, turned), rs[1..], capacityOf);
      } else {
        TurnCapped(cs, rs[1..], capacityOf);
      }
    }
  }

  lemma {:induction false} RatchetsWithin(cs: seq<IncomingChannel>, updates: seq<ChannelUpdate>)
    requires AllRatchet(cs, updates)
    ensures forall u :: u in updates ==> Ratchets(cs, u)
    ensures forall r :: r in ToRatchets(updates) ==> Find(cs, r.id).Some? && r.cumulative <= Find(cs, r.id).value.capacity
  {
    if updates != [] {
      RatchetsWithin(cs, updates[1..]);
    }
  }

  lemma HappeningStaysCapped(a: Account, h: Happening, capacityOf: ChannelId -> u64)
    requires Distinct(a.grant.channels) && Funded(h, capacityOf)
    requires Capped(a.grant.channels, capacityOf) && Capped(a.settled, capacityOf)
    ensures Capped(Happens(a, h).grant.channels, capacityOf) && Capped(Happens(a, h).settled, capacityOf)
  {
    var g := a.grant;
    match h
    case Delivered(m, admission, now) =>
      HonoredExactlyWhen(g, admission, m.updates, m.windowMs, m.reservedRate);
      if Evaluate(g, admission, m.updates, m.windowMs, m.reservedRate).Accept? {
        var ratchets := ToRatchets(m.updates);
        RatchetsWithin(g.channels, m.updates);
        ApplyChannels(g, ratchets, Saturate(Rise(g.channels, ratchets)), m.windowMs, m.reservedRate, now);
        TurnCapped(g.channels, ratchets, capacityOf);
      }
    case Opened(id, capacity, expiresAt) =>
      var found := Find(g.channels, id);
      if found.Some? {
        PutMembers(g.channels, found.value.(capacity := capacity, expiresAt := expiresAt));
      }
    case Settled(id) =>
      RemoveKeepsDistinct(g.channels, id);
    case Failed(id) =>
      var found := Find(g.channels, id);
      if found.Some? {
        PutMembers(g.channels, found.value.(failures := Min(found.value.failures + 1, 0xFFFF_FFFF)));
      }
    case Metered(moved, now) => DrawChannels(g, moved, now);
    case Paused => DrawChannels(g, 0, 0);
    case Expired(now) => DrawChannels(g, 0, now);
    case Restarted(now) => RestartChannels(g, now);
  }

  /** Over any run no channel, open or settled, is ever signed past its capacity. */
  lemma {:induction false} NeverSignedPastCapacity(a: Account, hs: seq<Happening>, capacityOf: ChannelId -> u64)
    requires Distinct(a.grant.channels) && forall h :: h in hs ==> Funded(h, capacityOf)
    requires Capped(a.grant.channels, capacityOf) && Capped(a.settled, capacityOf)
    ensures Capped(Run(a, hs).grant.channels, capacityOf) && Capped(Run(a, hs).settled, capacityOf)
    decreases |hs|
  {
    if hs != [] {
      hide Happens, Capped;
      HappeningKeepsDistinct(a, hs[0]);
      HappeningStaysCapped(a, hs[0], capacityOf);
      NeverSignedPastCapacity(Happens(a, hs[0]), hs[1..], capacityOf);
    }
  }

  /** The provider is past this total on this channel: it signed at least as much, or settled it. */
  ghost predicate Past(a: Account, u: ChannelUpdate) {
    match Find(a.grant.channels, u.channelId)
    case Some(c) => u.cumulative <= c.signed
    case None => true
  }

  /** A channel that is settled is not funded again under the same id. */
  ghost predicate NotReopened(a: Account, h: Happening) {
    h.Opened? ==> Find(a.settled, h.id).None?
  }

  ghost predicate NoneReopened(a: Account, hs: seq<Happening>)
    decreases |hs|
  {
    hs == [] || (NotReopened(a, hs[0]) && NoneReopened(Happens(a, hs[0]), hs[1..]))
  }

  /** Known to the provider, open or settled. */
  ghost predicate Known(a: Account, id: ChannelId) {
    Find(a.grant.channels, id).Some? || Find(a.settled, id).Some?
  }

  lemma {:induction false} ClearedReads(cs: seq<IncomingChannel>, id: ChannelId)
    ensures Find(ClearFailures(cs), id) == match Find(cs, id) case Some(c) => Some(c.(failures := 0)) case None => None
  {
    if cs != [] {
      assert ClearFailures(cs)[1..] == ClearFailures(cs[1..]);
      ClearedReads(cs[1..], id);
    }
  }

  lemma {:induction false} UpdateOfRatchet(updates: seq<ChannelUpdate>, id: ChannelId)
    ensures Named(ToRatchets(updates), id) ==> exists u :: u in updates && u.channelId == id && Ratchet(id, u.cumulative) in ToRatchets(updates)
  {
    if updates != [] && Named(ToRatchets(updates), id) {
      UpdateOfRatchet(updates[1..], id);
      var r :| r in ToRatchets(updates) && r.id == id;
      if updates[0].channelId == id {
        assert updates[0] in updates && Ratchet(id, updates[0].cumulative) in ToRatchets(updates);
      } else {
        assert r in ToRatchets(updates[1..]);
        assert Named(ToRatchets(updates[1..]), id);
        var u :| u in updates[1..] && u.channelId == id && Ratchet(id, u.cumulative) in ToRatchets(updates[1..]);
        assert u in updates;
      }
    }
  }

  lemma DeliveryStaysPast(a: Account, m: TopUp, admission: Admission, now: Millis, u: ChannelUpdate)
    requires Known(a, u.channelId) && Past(a, u)
    ensures var after := Happens(a, Delivered(m, admission, now)); Known(after, u.channelId) && Past(after, u)
  {
    hide Evaluate, Find, TurnRatchets, Grant.Apply, AllRatchet, Rise, NoRepeat, ToRatchets;
    var g, id := a.grant, u.channelId;
    HonoredExactlyWhen(g, admission, m.updates, m.windowMs, m.reservedRate);
    if Evaluate(g, admission, m.updates, m.windowMs, m.reservedRate).Accept? {
      var ratchets := ToRatchets(m.updates);
      RatchetsWithin(g.channels, m.updates);
      ApplyChannels(g, ratchets, Saturate(Rise(g.channels, ratchets)), m.windowMs, m.reservedRate, now);
      TurnReads(g.channels, ratchets, id);
      UpdateOfRatchet(m.updates, id);
    }
  }

  /** Ratchets only turn up: once past a total, whatever happens the provider stays past it. */
  lemma HappeningStaysPast(a: Account, h: Happening, u: ChannelUpdate)
    requires Distinct(a.grant.channels) && NotReopened(a, h) && Known(a, u.channelId) && Past(a, u)
    ensures Known(Happens(a, h), u.channelId) && Past(Happens(a, h), u)
  {
    hide Evaluate, Find, Put, Remove, TurnRatchets;
    var g, id := a.grant, u.channelId;
    match h
    case Delivered(m, admission, now) => DeliveryStaysPast(a, m, admission, now, u);
    case Opened(other, capacity, expiresAt) =>
      var found := Find(g.channels, other);
      if found.Some? {
        PutReads(g.channels, found.value.(capacity := capacity, expiresAt := expiresAt), id);
      } else {
        AppendReads(g.channels, IncomingChannel(other, capacity, 0, 0, expiresAt), id);
      }
    case Settled(closed) =>
      RemoveReads(g.channels, closed, id);
      if Find(g.channels, closed).Some? {
        AppendReads(a.settled, Find(g.channels, closed).value, id);
      }
    case Failed(failed) =>
      var found := Find(g.channels, failed);
      if found.Some? {
        PutReads(g.channels, found.value.(failures := Min(found.value.failures + 1, 0xFFFF_FFFF)), id);
      }
    case Metered(moved, now) => DrawChannels(g, moved, now);
    case Paused => DrawChannels(g, 0, 0);
    case Expired(now) => DrawChannels(g, 0, now);
    case Restarted(now) => RestartChannels(g, now); ClearedReads(g.channels, id);
  }

  lemma {:induction false} RunStaysPast(a: Account, hs: seq<Happening>, u: ChannelUpdate)
    requires Distinct(a.grant.channels) && NoneReopened(a, hs)
    requires Known(a, u.channelId) && Past(a, u)
    ensures Known(Run(a, hs), u.channelId) && Past(Run(a, hs), u) && Distinct(Run(a, hs).grant.channels)
    decreases |hs|
  {
    if hs != [] {
      hide Happens, Past, Known;
      HappeningKeepsDistinct(a, hs[0]);
      HappeningStaysPast(a, hs[0], u);
      RunStaysPast(Happens(a, hs[0]), hs[1..], u);
    }
  }

  /**
    A purchase that was accepted, delivered again after anything at all, is refused: it grants nothing
    and signs nothing. What the refusal comes to beyond that is its session's to say.
   */
  lemma RedeliveryGrantsNothing(a: Account, m: TopUp, first: Admission, at: Millis, hs: seq<Happening>, again: Admission, later: Millis)
    requires Distinct(a.grant.channels) && Evaluate(a.grant, first, m.updates, m.windowMs, m.reservedRate).Accept?
    requires NoneReopened(Happens(a, Delivered(m, first, at)), hs)
    ensures var reached := Run(Happens(a, Delivered(m, first, at)), hs);
      && Evaluate(reached.grant, again, m.updates, m.windowMs, m.reservedRate).Refuse?
      && Happens(reached, Delivered(m, again, later)).granted == reached.granted
  {
    var bought := Happens(a, Delivered(m, first, at));
    var ratchets, u := ToRatchets(m.updates), m.updates[0];
    HappeningKeepsDistinct(a, Delivered(m, first, at));
    HonoredExactlyWhen(a.grant, first, m.updates, m.windowMs, m.reservedRate);
    ApplyChannels(a.grant, ratchets, Saturate(Rise(a.grant.channels, ratchets)), m.windowMs, m.reservedRate, at);
    assert Ratchets(a.grant.channels, u) && Ratchet(u.channelId, u.cumulative) in ratchets;
    TurnReads(a.grant.channels, ratchets, u.channelId);
    RunStaysPast(bought, hs, u);
    var reached := Run(bought, hs);
    HonoredExactlyWhen(reached.grant, again, m.updates, m.windowMs, m.reservedRate);
  }

  // ------------------------------------------------------------------------
  // The one rule as it reaches the budget
  // ------------------------------------------------------------------------

  function Draws(g: Grant, rs: seq<Reading>): Grant
    decreases |rs|
  {
    if rs == [] then g else Draws(g.Draw(rs[0].moved, rs[0].now), rs[1..])
  }

  /** While the budget lasts, readings draw exactly what the open second says is owed. */
  lemma {:induction false} DrawsAreOwed(g: Grant, rs: seq<Reading>)
    requires g.Valid() && g.second.Some?
    requires Owed(g.second.value, rs, g.reservedRate) < g.Remaining()
    ensures Draws(g, rs) == g.(consumed := g.consumed + Owed(g.second.value, rs, g.reservedRate),
                               second := Some(After(g.second.value, rs, g.reservedRate)))
    decreases |rs|
  {
    if rs != [] {
      var (open, owed) := g.second.value.Read(rs[0].moved, rs[0].now, g.reservedRate);
      hide Second.Read;
      assert g.Draw(rs[0].moved, rs[0].now) == g.(consumed := g.consumed + owed, second := Some(open));
      assert open.Valid() by { ReadKeepsValid(g.second.value, rs[0].moved, rs[0].now, g.reservedRate); }
      DrawsAreOwed(g.Draw(rs[0].moved, rs[0].now), rs[1..]);
    }
  }

  lemma ReadKeepsValid(s: Second, moved: u64, now: Millis, rate: u64)
    requires s.Valid()
    ensures s.Read(moved, now, rate).0.Valid()
  {
    assert s.Whole(now) * SECOND_MS <= Max(s.at, now) - s.start;
  }

  /**
    What a purchase leaves to be drawn. What came before is closed at the old rate, or consumed whole if
    its deadline has passed; and the second it is drawn by starts at the purchase, unless one is open at
    the same rate, which goes on.
   */
  lemma PurchaseOpensASecond(g: Grant, ratchets: seq<Ratchet>, grant: u64, windowMs: u64, rate: u64, now: Millis)
    requires g.Valid()
    ensures var bought, live := g.Apply(ratchets, grant, windowMs, rate, now), now < g.deadline;
      var kept := g.second.Some? && rate == (if live then g.reservedRate else 0);
      && bought.Valid() && bought.reservedRate == rate && bought.authorized == SatAdd(g.authorized, grant)
      && bought.second == Some(if kept then g.second.value else Starting(now))
      && bought.consumed - g.consumed ==
         (if !live then g.Remaining()
          else if g.second.Some? && !kept then Min(g.second.value.Close(now, g.reservedRate), g.Remaining())
          else 0)
  {
    hide TurnRatchets, Second.Close;
  }

  /** What happens to a payer while it is carried at one rate: it is read, or it buys more at that rate. */
  datatype Carried =
    | Moves(reading: Reading)
    | Buys(ratchets: seq<Ratchet>, grant: u64, windowMs: u64, now: Millis)

  function Carry(g: Grant, c: Carried): Grant {
    match c
    case Moves(r) => g.Draw(r.moved, r.now)
    case Buys(ratchets, grant, windowMs, now) => g.Apply(ratchets, grant, windowMs, g.reservedRate, now)
  }

  function CarryAll(g: Grant, cs: seq<Carried>): Grant
    decreases |cs|
  {
    if cs == [] then g else CarryAll(Carry(g, cs[0]), cs[1..])
  }

  function ReadingsOf(cs: seq<Carried>): seq<Reading> {
    if cs == [] then []
    else (if cs[0].Moves? then [cs[0].reading] else []) + ReadingsOf(cs[1..])
  }

  /** Something is left until the pause, and each purchase comes before the deadline. */
  ghost predicate Lasts(g: Grant, cs: seq<Carried>)
    decreases |cs|
  {
    if cs == [] then g.Pause().Remaining() > 0
    else
      && (cs[0].Moves? ==> Carry(g, cs[0]).Remaining() > 0)
      && (cs[0].Buys? ==> cs[0].now < g.deadline)
      && Lasts(Carry(g, cs[0]), cs[1..])
  }

  /** A purchase at the same rate takes nothing and breaks nothing: the readings alone are drawn. */
  lemma {:induction false} CarriedIsOwed(g: Grant, cs: seq<Carried>)
    requires g.Valid() && g.second.Some? && Lasts(g, cs)
    ensures var s, rs, end := g.second.value, ReadingsOf(cs), CarryAll(g, cs);
      && end.Valid() && end.second == Some(After(s, rs, g.reservedRate)) && end.reservedRate == g.reservedRate
      && end.consumed == g.consumed + Owed(s, rs, g.reservedRate) && Lasts(end, [])
    decreases |cs|
  {
    if cs != [] {
      hide Second.Read, TurnRatchets;
      var next, rest := Carry(g, cs[0]), cs[1..];
      match cs[0]
      case Moves(r) =>
        var (open, owed) := g.second.value.Read(r.moved, r.now, g.reservedRate);
        ReadKeepsValid(g.second.value, r.moved, r.now, g.reservedRate);
        assert next == g.(consumed := g.consumed + owed, second := Some(open));
        CarriedIsOwed(next, rest);
        assert ReadingsOf(cs)[1..] == ReadingsOf(rest) && ReadingsOf(cs)[0] == r;
      case Buys(ratchets, grant, windowMs, now) =>
        PurchaseOpensASecond(g, ratchets, grant, windowMs, g.reservedRate, now);
        CarriedIsOwed(next, rest);
        assert ReadingsOf(cs) == ReadingsOf(rest);
    }
  }

  /**
    A reservation from purchase to pause, with whatever is bought at the same rate in between. It is drawn
    from the moment it was bought, or from where the second open at its rate began, and no earlier; until
    it is paused the budget loses at least what moved and at least the rate for the time carried, and at
    most the two together.
   */
  lemma ReservationDrawsTheOneRule(g: Grant, ratchets: seq<Ratchet>, grant: u64, windowMs: u64, rate: u64, now: Millis, cs: seq<Carried>)
    requires g.Valid()
    requires var bought, rs := g.Apply(ratchets, grant, windowMs, rate, now), ReadingsOf(cs);
      && Lasts(bought, cs) && rs != []
      && InOrder(bought.second.value.at, rs, rs[|rs| - 1].now)
      && bought.second.value.moved + Moved(rs) <= U64_MAX
      && Exact(rate, rs[|rs| - 1].now - bought.second.value.start) <= U64_MAX
    ensures var bought, rs := g.Apply(ratchets, grant, windowMs, rate, now), ReadingsOf(cs);
      var s := bought.second.value;
      var total := s.moved + CarryAll(bought, cs).Pause().consumed - bought.consumed;
      var floor := Exact(rate, rs[|rs| - 1].now - s.start);
      && s == (if g.second.Some? && rate == (if now < g.deadline then g.reservedRate else 0) then g.second.value else Starting(now))
      && Max(s.moved + Moved(rs), floor) <= total <= s.moved + Moved(rs) + floor
  {
    hide Grant.Apply, CarryAll, Lasts, ReadingsOf, After, Owed, Exact, Second.Close;
    var bought, rs := g.Apply(ratchets, grant, windowMs, rate, now), ReadingsOf(cs);
    PurchaseOpensASecond(g, ratchets, grant, windowMs, rate, now);
    var s := bought.second.value;
    CarriedIsOwed(bought, cs);
    StretchFrom(s, rs, rs[|rs| - 1].now, rate);
    LastReadAt(s, rs, rate);
    PausedTakes(CarryAll(bought, cs));
  }

  /** A pause that does not use the budget up takes all that closing the second comes to. */
  lemma PausedTakes(g: Grant)
    requires g.Valid() && g.second.Some? && Lasts(g, [])
    ensures g.Pause().consumed == g.consumed + g.second.value.Close(g.second.value.at, g.reservedRate)
  {
    hide Second.Close;
  }

  // ------------------------------------------------------------------------
  // Shaping
  // ------------------------------------------------------------------------

  /**
    A speed the payer may be carried at: one that does not outrun what it has left in a tick; what it
    reserved, or what the node gives to any that reserved; and for one that reserved nothing, the cap there
    is on those, if there is one.
   */
  ghost predicate Carriable(g: Grant, burst: BurstPolicy, tickMs: u64, speed: u64) {
    && speed <= PerTickCeiling(g.Remaining(), tickMs)
    && if g.reservedRate > 0 then speed <= g.reservedRate || speed <= burst.rate
       else burst.unreservedRate == 0 || speed <= burst.unreservedRate
  }

  /**
    However a payer is carried, in one tick it moves no more than it has left or the allowance,
    whichever is more; it is never below the allowance, and while its budget lasts more than the
    ticks at its rate, never below what it reserved. A live payer is carried as fast as it may be.
   */
  lemma ShapingNearEmpty(g: Grant, now: Millis, burst: BurstPolicy, minimumFlow: u64, tickMs: u64)
    ensures var rate := g.ShapingRate(now, burst, minimumFlow, tickMs);
      && minimumFlow <= rate
      && UnitsIn(rate, Max(tickMs, 1)) <= Max(g.Remaining(), UnitsIn(minimumFlow, Max(tickMs, 1)))
      && (!g.IsLive(now) ==> rate == minimumFlow)
      && (g.IsLive(now) && g.reservedRate > 0 && g.reservedRate <= PerTickCeiling(g.Remaining(), tickMs) ==> g.reservedRate <= rate)
      && (g.IsLive(now) ==> (rate == minimumFlow || Carriable(g, burst, tickMs, rate))
                            && forall x: u64 :: Carriable(g, burst, tickMs, x) ==> x <= rate)
  {
    var rate := g.ShapingRate(now, burst, minimumFlow, tickMs);
    var ceiling := PerTickCeiling(g.Remaining(), tickMs);
    CeilingNeverOverruns(g.Remaining(), tickMs);
    if rate != minimumFlow {
      UnitsInMonotone(rate, ceiling, Max(tickMs, 1));
    }
    hide PerTickCeiling, UnitsIn;
  }
}
