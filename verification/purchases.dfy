/**
  The purchases a payer decides on, judged by the provider they are sent to. Neither side sees the
  other's state; what makes every purchase acceptable is an invariant of the payer's channels and a
  provider that mirrors the ones not yet drained.
 */
module Purchases {
  import opened Numbers
  import opened Wrappers
  import opened Wire
  import opened Limits
  import opened Grants
  import opened GrantChannels
  import opened Buyers
  import GrantProperties

  // ------------------------------------------------------------------------
  // What every reachable payer keeps
  // ------------------------------------------------------------------------

  /** A replacement waits untouched, and with room, behind a channel that is not yet drained. */
  ghost predicate Orderly(active: Option<ChannelBuyer>, next: Option<ChannelBuyer>) {
    next.Some? ==>
      && active.Some? && !active.value.Exhausted()
      && next.value.cumulative == 0 && next.value.capacity > 0
      && next.value.id != active.value.id
  }

  ghost predicate Inv(b: Buyer) {
    && Orderly(b.active, b.next)
    && (b.pending.Some? ==> b.pending.value.cumulative == 0 && b.pending.value.capacity > 0)
    && (b.prior.Some? ==> Orderly(b.prior.value.active, b.prior.value.next))
  }

  datatype Event =
    | Drew(moved: u64)
    | Noted(left: u64, expiresInMs: u64)
    | Requested(request: u64)
    | FundingLost(request: u64)
    | Funded(id: ChannelId, capacity: u64, expiresAt: Option<Millis>)
    | Confirmed(id: ChannelId)
    | PendingForgotten
    | NearExpiry(marginMs: u64, settleLeadMs: u64)
    | Polled(policy: BuyerPolicy, demand: Demand)
    | Refused(refused: seq<Ratchet>, reason: ReasonCode, maxReservedRate: u64, holdMs: u64)
    | Restarted
    | StartedOver

  function Next(b: Buyer, e: Event, now: Millis): Buyer {
    match e
    case Drew(moved) => b.Draw(moved, now)
    case Noted(left, expiresInMs) => b.NoteBalance(left, expiresInMs, now)
    case Requested(request) => b.FundingRequested(request, now)
    case FundingLost(request) => b.FundingFailed(request)
    case Funded(id, capacity, expiresAt) => b.FundedWith(id, capacity, expiresAt)
    case Confirmed(id) => b.Confirmed(id)
    case PendingForgotten => b.ForgetPending()
    case NearExpiry(marginMs, settleLeadMs) => b.RetireExpiring(now, marginMs, settleLeadMs)
    case Polled(policy, demand) =>
      var p := Poll(b, policy, demand, now);
      if p.Some? then b.Record(p.value, now).0 else b
    case Refused(refused, reason, maxReservedRate, holdMs) => b.RecordReject(refused, reason, maxReservedRate, now, holdMs)
    case Restarted => b.Restart()
    case StartedOver => b.StartOver()
  }

  /** The host funds channels that carry something. */
  ghost predicate HostContract(e: Event) {
    e.Funded? ==> e.capacity > 0
  }

  /** The peer does not confirm a replacement under the id of the channel it is to replace. */
  ghost predicate PeerContract(b: Buyer, e: Event) {
    e.Confirmed? ==> !NamesTheActive(b, e.id)
  }

  /** A funded channel waits, and would be taken for the one in use. */
  predicate NamesTheActive(b: Buyer, id: ChannelId) {
    b.pending.Some? && b.IsActive(id) && !b.active.value.Exhausted()
  }

  /** What `Poll` signs: up to the first channel's capacity, and then onto the second. */
  ghost predicate WellSplit(b: Buyer, p: Purchase) {
    && b.active.Some?
    && var a := b.active.value;
    && p.grant > 0
    && p.first.id == a.id && a.cumulative < p.first.cumulative <= a.capacity
    && (match p.second
        case None => p.grant == p.first.cumulative - a.cumulative
        case Some(leg) =>
          && b.next.Some? && p.first.cumulative == a.capacity
          && leg.id == b.next.value.id && b.next.value.cumulative < leg.cumulative <= b.next.value.capacity
          && p.grant == (a.capacity - a.cumulative) + (leg.cumulative - b.next.value.cumulative))
    && (p.first.cumulative < a.capacity || b.next.None? || p.second.Some? || p.grant == a.Headroom())
  }

  lemma SplitSigns(active: ChannelBuyer, next: Option<ChannelBuyer>, wanted: u64)
    requires wanted > 0 && Orderly(Some(active), next) && Split(active, next, wanted).2 > 0
    ensures var (first, second, grant) := Split(active, next, wanted);
      && first.id == active.id && active.cumulative < first.cumulative <= active.capacity
      && grant <= wanted
      && (match second
          case None => grant == first.cumulative - active.cumulative
          case Some(leg) =>
            && next.Some? && first.cumulative == active.capacity
            && leg.id == next.value.id && next.value.cumulative < leg.cumulative <= next.value.capacity
            && grant == (active.capacity - active.cumulative) + (leg.cumulative - next.value.cumulative))
  {
  }

  lemma PollSigns(b: Buyer, policy: BuyerPolicy, demand: Demand, now: Millis)
    requires Inv(b) && Poll(b, policy, demand, now).Some?
    ensures WellSplit(b, Poll(b, policy, demand, now).value)
  {
    var p := Poll(b, policy, demand, now).value;
    var size := if policy.reserve then UnitsIn(p.reservedRate, p.windowMs) else policy.budget;
    var wanted: u64 := Max(SatSub(size, b.RemainingAt(now)), 1);
    assert (p.first, p.second, p.grant) == Split(b.active.value, b.next, wanted);
    SplitSigns(b.active.value, b.next, wanted);
  }

  lemma RecordKeepsInv(b: Buyer, p: Purchase, now: Millis)
    requires Inv(b) && WellSplit(b, p)
    ensures Inv(b.Record(p, now).0)
  {
    hide Second.Close;
  }

  lemma NextKeepsInv(b: Buyer, e: Event, now: Millis)
    requires Inv(b) && HostContract(e) && PeerContract(b, e)
    ensures Inv(Next(b, e, now))
  {
    match e
    case Polled(policy, demand) =>
      if Poll(b, policy, demand, now).Some? {
        PollSigns(b, policy, demand, now);
        RecordKeepsInv(b, Poll(b, policy, demand, now).value, now);
      }
    case _ =>
      hide Poll, Second.Close, Second.Read;
  }

  ghost predicate Lawful(b: Buyer, es: seq<(Event, Millis)>)
    decreases |es|
  {
    es == [] || (HostContract(es[0].0) && PeerContract(b, es[0].0) && Lawful(Next(b, es[0].0, es[0].1), es[1..]))
  }

  function Run(b: Buyer, es: seq<(Event, Millis)>): Buyer
    decreases |es|
  {
    if es == [] then b else Run(Next(b, es[0].0, es[0].1), es[1..])
  }

  lemma {:induction false} ReachableKeepsInv(b: Buyer, es: seq<(Event, Millis)>)
    requires Inv(b) && Lawful(b, es)
    ensures Inv(Run(b, es))
    decreases |es|
  {
    if es != [] {
      NextKeepsInv(b, es[0].0, es[0].1);
      hide Next, Inv, HostContract, PeerContract;
      ReachableKeepsInv(Next(b, es[0].0, es[0].1), es[1..]);
    }
  }

  // ------------------------------------------------------------------------
  // Judged by the provider
  // ------------------------------------------------------------------------

  /** The provider holds every channel the payer has not drained, signed exactly as far. */
  ghost predicate Mirrors(g: Grant, c: Option<ChannelBuyer>) {
    c.Some? && !c.value.Exhausted() ==>
      var found := Find(g.channels, c.value.id);
      found.Some? && found.value.capacity == c.value.capacity && found.value.signed == c.value.cumulative
  }

  ghost predicate Mirror(b: Buyer, g: Grant) {
    Mirrors(g, b.active) && Mirrors(g, b.next)
  }

  /** The terms the payer holds are the ones the provider judges by. */
  ghost predicate SameTerms(policy: GrantPolicy, terms: Terms) {
    && policy.minWindowMs == terms.minWindowMs <= policy.maxWindowMs == terms.maxWindowMs
    && policy.minReservedRate == terms.minReservedRate
  }

  /** The updates that carry a purchase, whatever their signatures. */
  ghost predicate Carries(updates: seq<ChannelUpdate>, p: Purchase) {
    GrantProperties.ToRatchets(updates) == p.Legs()
  }

  lemma PollFitsTerms(b: Buyer, policy: BuyerPolicy, demand: Demand, now: Millis)
    requires Poll(b, policy, demand, now).Some? && demand.terms.minWindowMs <= demand.terms.maxWindowMs
    ensures var p := Poll(b, policy, demand, now).value;
      && demand.terms.minWindowMs <= p.windowMs <= demand.terms.maxWindowMs
      && demand.terms.minReservedRate <= p.reservedRate
      && (b.CapAt(now).Some? ==> p.reservedRate <= b.CapAt(now).value)
  {
    hide Why, Split;
  }

  lemma CarriedUpdates(updates: seq<ChannelUpdate>, p: Purchase)
    requires Carries(updates, p)
    ensures |updates| == |p.Legs()|
    ensures updates[0].channelId == p.first.id && updates[0].cumulative == p.first.cumulative
    ensures p.second.Some? ==> updates[1].channelId == p.second.value.id && updates[1].cumulative == p.second.value.cumulative
  {
    GrantProperties.ToRatchetsReads(updates);
    assert p.Legs()[0] == p.first;
  }

  lemma LegsRatchet(b: Buyer, g: Grant, p: Purchase, updates: seq<ChannelUpdate>)
    requires Inv(b) && Mirror(b, g) && WellSplit(b, p) && Carries(updates, p)
    ensures GrantProperties.AllRatchet(g.channels, updates)
    ensures Rise(g.channels, p.Legs()) == p.grant
  {
    CarriedUpdates(updates, p);
    hide Find;
    assert updates == [updates[0]] + updates[1..];
    if p.second.Some? {
      var rest, leg := updates[1..], p.second.value;
      assert rest == [updates[1]] && rest[1..] == [];
      assert p.Legs()[1..] == [leg] && [leg][1..] == [];
      assert GrantProperties.Ratchets(g.channels, updates[1]);
      assert GrantProperties.AllRatchet(g.channels, rest[1..]);
      assert GrantProperties.AllRatchet(g.channels, rest);
      assert Rise(g.channels, [leg][1..]) == 0;
      assert Rise(g.channels, [leg]) == leg.cumulative - b.next.value.cumulative;
    } else {
      assert updates[1..] == [];
      assert p.Legs()[1..] == [];
    }
  }

  /**
    Every purchase a reachable payer decides on is honored, for exactly the grant it counted on,
    or refused for one reason alone: the provider has not the capacity for a higher reservation.
   */
  lemma PurchaseIsHonoredOrOverCapacity(b: Buyer, policy: BuyerPolicy, demand: Demand, now: Millis,
                                        g: Grant, admission: Admission, updates: seq<ChannelUpdate>)
    requires Inv(b) && Mirror(b, g) && SameTerms(admission.policy, demand.terms)
    requires Poll(b, policy, demand, now).Some? && Carries(updates, Poll(b, policy, demand, now).value)
    ensures var p := Poll(b, policy, demand, now).value;
      Evaluate(g, admission, updates, p.windowMs, p.reservedRate) ==
        if p.reservedRate <= g.reservedRate || p.reservedRate <= admission.RateAvailable()
        then Accept(p.Legs(), p.grant)
        else Refuse(RateExceedsCapacity, admission.RateAvailable())
  {
    var p := Poll(b, policy, demand, now).value;
    PollSigns(b, policy, demand, now);
    PollFitsTerms(b, policy, demand, now);
    hide Poll;
    LegsRatchet(b, g, p, updates);
    CarriedUpdates(updates, p);
    GrantProperties.HonoredExactlyWhen(g, admission, updates, p.windowMs, p.reservedRate);
    GrantProperties.GatherTotals(g.channels, updates, [], 0);
    hide Gather, Rise, GrantProperties.AllRatchet, GrantProperties.ToRatchets, Find;
  }

  /** Settling the channels a purchase drained leaves the others as they were. */
  function SettleAll(cs: seq<IncomingChannel>, ids: seq<ChannelId>): seq<IncomingChannel>
    decreases |ids|
  {
    if ids == [] then cs else SettleAll(Remove(cs, ids[0]), ids[1..])
  }

  lemma {:induction false} SettlingLeavesOthers(cs: seq<IncomingChannel>, ids: seq<ChannelId>, id: ChannelId)
    requires Distinct(cs) && id !in ids
    ensures Find(SettleAll(cs, ids), id) == Find(cs, id)
    decreases |ids|
  {
    if ids != [] {
      RemoveKeepsDistinct(cs, ids[0]);
      RemoveReads(cs, ids[0], id);
      SettlingLeavesOthers(Remove(cs, ids[0]), ids[1..], id);
    }
  }

  lemma {:induction false} OnlyDrainedAreExhausted(cs: seq<IncomingChannel>, id: ChannelId)
    requires Distinct(cs) && Find(cs, id).Some? && !Find(cs, id).value.Exhausted()
    ensures id !in ExhaustedIds(cs)
  {
    if cs[0].id != id {
      DistinctTail(cs);
      OnlyDrainedAreExhausted(cs[1..], id);
    } else {
      DistinctTail(cs);
      NotAmongExhausted(cs[1..], id);
    }
  }

  lemma {:induction false} NotAmongExhausted(cs: seq<IncomingChannel>, id: ChannelId)
    requires Find(cs, id).None?
    ensures id !in ExhaustedIds(cs)
  {
    if cs != [] {
      NotAmongExhausted(cs[1..], id);
    }
  }

  /** The provider once it has applied a purchase and settled whatever that drained. */
  function Honor(g: Grant, p: Purchase, now: Millis): Grant {
    var applied := g.Apply(p.Legs(), p.grant, p.windowMs, p.reservedRate, now);
    applied.(channels := SettleAll(applied.channels, ExhaustedIds(applied.channels)))
  }

  lemma TurnedMirrors(g: Grant, p: Purchase, now: Millis, c: ChannelBuyer)
    requires Distinct(g.channels) && NoRepeat(p.Legs()) && Find(g.channels, c.id).Some?
    requires Find(g.channels, c.id).value.capacity == c.capacity
    requires forall r :: r in p.Legs() && r.id == c.id ==> r.cumulative == c.cumulative
    requires !Named(p.Legs(), c.id) ==> Find(g.channels, c.id).value.signed == c.cumulative
    ensures Mirrors(Honor(g, p, now), Some(c))
  {
    var turned := TurnRatchets(g.channels, p.Legs());
    GrantProperties.ApplyChannels(g, p.Legs(), p.grant, p.windowMs, p.reservedRate, now);
    TurnReads(g.channels, p.Legs(), c.id);
    TurnTotal(g.channels, p.Legs());
    if !c.Exhausted() {
      OnlyDrainedAreExhausted(turned, c.id);
      SettlingLeavesOthers(turned, ExhaustedIds(turned), c.id);
    }
    hide TurnRatchets, Find;
  }

  /** Recorded by the payer and honored by the provider, a purchase leaves them mirrored again. */
  lemma HonoredPurchaseKeepsMirror(b: Buyer, g: Grant, p: Purchase, now: Millis)
    requires Inv(b) && Mirror(b, g) && Distinct(g.channels) && WellSplit(b, p)
    ensures Mirror(b.Record(p, now).0, Honor(g, p, now))
  {
    var legs := p.Legs();
    var signed := b.(prior := Some(b.Snapshot(p.grant))).Sign(p);
    var recorded := b.Record(p, now).0;
    assert recorded.active == signed.Count(p, now).RetireExhausted().0.active;
    hide Find, Second.Close;
    assert NoRepeat(legs);
    assert legs[0] == p.first;
    if b.next.Some? {
      TurnedMirrors(g, p, now, signed.next.value);
    }
    if !b.active.value.Exhausted() {
      TurnedMirrors(g, p, now, signed.active.value);
    }
  }

  /** From a payer's first moment, through anything that happens to it, every purchase is honored. */
  lemma EveryPurchaseIsHonored(es: seq<(Event, Millis)>, policy: BuyerPolicy, demand: Demand, now: Millis,
                               g: Grant, admission: Admission, updates: seq<ChannelUpdate>)
    requires Lawful(NewBuyer(), es)
    requires var b := Run(NewBuyer(), es);
      && Mirror(b, g) && Distinct(g.channels) && SameTerms(admission.policy, demand.terms)
      && Poll(b, policy, demand, now).Some? && Carries(updates, Poll(b, policy, demand, now).value)
    ensures var b := Run(NewBuyer(), es); var p := Poll(b, policy, demand, now).value;
      && (Evaluate(g, admission, updates, p.windowMs, p.reservedRate) == Accept(p.Legs(), p.grant)
          || Evaluate(g, admission, updates, p.windowMs, p.reservedRate) == Refuse(RateExceedsCapacity, admission.RateAvailable()))
      && Mirror(b.Record(p, now).0, Honor(g, p, now))
  {
    ReachableKeepsInv(NewBuyer(), es);
    var b := Run(NewBuyer(), es);
    PurchaseIsHonoredOrOverCapacity(b, policy, demand, now, g, admission, updates);
    PollSigns(b, policy, demand, now);
    HonoredPurchaseKeepsMirror(b, g, Poll(b, policy, demand, now).value, now);
  }

  /**
    Why the host must fund channels that carry something: a purchase that overflows onto an empty
    replacement signs nothing on it, and is refused in full.
   */
  lemma EmptyReplacementSpoilsThePurchase(b: Buyer, policy: BuyerPolicy, demand: Demand, now: Millis,
                                          g: Grant, admission: Admission, updates: seq<ChannelUpdate>)
    requires b.active.Some? && !b.active.value.Exhausted() && b.next.Some? && b.next.value.id != b.active.value.id
    requires b.next.value.capacity == 0 && b.next.value.cumulative == 0
    requires Mirrors(g, b.active) && Find(g.channels, b.next.value.id) == Some(IncomingChannel(b.next.value.id, 0, 0, 0, None))
    requires Poll(b, policy, demand, now).Some? && Poll(b, policy, demand, now).value.second.Some?
    requires Carries(updates, Poll(b, policy, demand, now).value)
    ensures var p := Poll(b, policy, demand, now).value;
      Evaluate(g, admission, updates, p.windowMs, p.reservedRate) == Refuse(GrantInvalid, admission.RateAvailable())
  {
    var p := Poll(b, policy, demand, now).value;
    assert exists w: u64 :: (p.first, p.second, p.grant) == Split(b.active.value, b.next, w);
    CarriedUpdates(updates, p);
    hide Poll, Find;
    var u, rest, a := updates[0], updates[1..], b.active.value;
    assert rest[0] == updates[1];
    var ratchets, grant: u64 := [] + [Ratchet(u.channelId, u.cumulative)], SatAdd(0, a.capacity - a.cumulative);
    assert Gather(g.channels, rest, ratchets, grant) == Err(GrantInvalid);
    assert !Named([], u.channelId);
    assert Gather(g.channels, updates, [], 0) == Gather(g.channels, rest, ratchets, grant);
  }

  /** Which confirmations a payer stands: all but one that names the channel in use. */
  lemma ConfirmedKeepsInvIff(b: Buyer, id: ChannelId)
    requires Inv(b)
    ensures Inv(b.Confirmed(id)) <==> !NamesTheActive(b, id)
  {
  }

  /**
    What becomes of one that does: the next purchase to overflow names the same channel twice, and no
    provider that has it honors that, whatever the terms.
   */
  lemma NamingTheActiveSpoilsThePurchase(b: Buyer, id: ChannelId, policy: BuyerPolicy, demand: Demand, now: Millis,
                                         g: Grant, admission: Admission, updates: seq<ChannelUpdate>)
    requires Inv(b) && NamesTheActive(b, id) && Mirrors(g, b.active)
    requires var c := b.Confirmed(id);
      && Poll(c, policy, demand, now).Some? && Poll(c, policy, demand, now).value.second.Some?
      && Carries(updates, Poll(c, policy, demand, now).value)
    ensures var p := Poll(b.Confirmed(id), policy, demand, now).value;
      && p.second.value.id == p.first.id
      && (Evaluate(g, admission, updates, p.windowMs, p.reservedRate) == Refuse(GrantInvalid, admission.RateAvailable())
          || Evaluate(g, admission, updates, p.windowMs, p.reservedRate) == Refuse(GrantExceedsChannel, admission.RateAvailable()))
  {
    var c := b.Confirmed(id);
    var p := Poll(c, policy, demand, now).value;
    assert exists w: u64 :: (p.first, p.second, p.grant) == Split(c.active.value, c.next, w);
    CarriedUpdates(updates, p);
    hide Poll, Find;
    var u, rest, a := updates[0], updates[1..], c.active.value;
    assert rest[0] == updates[1];
    var ratchets, grant: u64 := [] + [Ratchet(u.channelId, u.cumulative)], SatAdd(0, a.capacity - a.cumulative);
    assert ratchets[0].id == u.channelId && Named(ratchets, u.channelId);
    assert Gather(g.channels, rest, ratchets, grant).Err?;
    assert !Named([], u.channelId);
    assert Gather(g.channels, updates, [], 0) == Gather(g.channels, rest, ratchets, grant);
  }

  // ------------------------------------------------------------------------
  // Refusals
  // ------------------------------------------------------------------------

  /** What may happen between a purchase and its refusal without moving channels or buying. */
  ghost predicate Quiet(e: Event) {
    e.Drew? || e.Noted? || e.Requested? || e.FundingLost? || e.Funded? || e.PendingForgotten?
  }

  ghost predicate AllQuiet(es: seq<(Event, Millis)>) {
    forall e :: e in es ==> Quiet(e.0)
  }

  /** What a refusal looks at and what it puts back. */
  ghost predicate SameStanding(b: Buyer, c: Buyer) {
    b.active == c.active && b.next == c.next && b.prior == c.prior && b.started == c.started
  }

  lemma {:induction false} QuietKeepsStanding(b: Buyer, es: seq<(Event, Millis)>)
    requires AllQuiet(es)
    ensures SameStanding(Run(b, es), b)
    decreases |es|
  {
    if es != [] {
      assert Quiet(es[0].0);
      assert SameStanding(Next(b, es[0].0, es[0].1), b) by {
        hide Poll, Second.Read;
      }
      hide Next;
      QuietKeepsStanding(Next(b, es[0].0, es[0].1), es[1..]);
    }
  }

  /**
    The one purchase whose refusal is not recognised: it fills the channel in use to exactly its
    capacity while a replacement is waiting, so recording it moves on to a channel the refusal
    does not name.
   */
  ghost predicate FillsExactly(b: Buyer, p: Purchase) {
    b.active.Some? && b.next.Some? && p.second.None? && p.first.cumulative == b.active.value.capacity
  }

  /**
    A purchase, quiet events, and then its refusal. Unless it filled the channel exactly, the
    payer stands where it stood before it bought: channels, deadline, reservation and start flags,
    with the grant back off the count. If it did, the refusal changes nothing but the cap.
   */
  lemma RefusalIsUndoneIff(b: Buyer, p: Purchase, bought: Millis, es: seq<(Event, Millis)>,
                           reason: ReasonCode, maxReservedRate: u64, now: Millis, holdMs: u64)
    requires Inv(b) && WellSplit(b, p) && AllQuiet(es)
    ensures var before := Run(b.Record(p, bought).0, es);
      var after := before.RecordReject(p.Legs(), reason, maxReservedRate, now, holdMs);
      if !FillsExactly(b, p) then
        && after.active == b.active && after.next == b.next
        && after.deadline == b.deadline && after.reserved == b.reserved
        && after.started == b.started && after.resumed == b.resumed
        && after.remaining == SatSub(before.remaining, p.grant) && after.prior == None
      else
        after == before.(cappedAt := after.cappedAt) && after.active == b.next && after.active != b.active
  {
    var recorded := b.Record(p, bought).0;
    QuietKeepsStanding(recorded, es);
    assert recorded.prior == Some(b.Snapshot(p.grant));
    var signed := b.(prior := Some(b.Snapshot(p.grant))).Sign(p);
    assert signed.Count(p, bought).active == signed.active && signed.Count(p, bought).next == signed.next;
    assert p.Legs()[0] == p.first && (p.second.Some? ==> p.Legs()[1] == p.second.value);
    hide Run, Buyer.Count;
  }

  /** Such purchases do happen: to a payer by use whose fixed budget is what the channel has left. */
  lemma ExactFillHappens(b: Buyer, policy: BuyerPolicy, demand: Demand, now: Millis)
    requires Inv(b) && b.next.Some? && b.lastTopup.None? && b.reserved == 0 && b.RemainingAt(now) == 0
    requires !policy.reserve && demand.observedRate > 0 && demand.terms.minReservedRate == 0
    requires policy.budget == b.active.value.Headroom()
    ensures Poll(b, policy, demand, now).Some? && FillsExactly(b, Poll(b, policy, demand, now).value)
  {
  }

  /** A refused reservation is not asked for again above the rate named, while the cap is held. */
  ghost predicate HeldTo(b: Buyer, rate: u64, until: Millis) {
    b.cappedAt == Some(Cap(rate, until))
  }

  /** Neither a later refusal for capacity, nor a session ending, nor a start from nothing. */
  ghost predicate KeepsCap(e: Event) {
    !e.Restarted? && !e.StartedOver? && (e.Refused? ==> e.reason != RateExceedsCapacity)
  }

  lemma {:induction false} CapIsKept(b: Buyer, es: seq<(Event, Millis)>, rate: u64, until: Millis)
    requires HeldTo(b, rate, until) && forall e :: e in es ==> KeepsCap(e.0)
    ensures HeldTo(Run(b, es), rate, until)
    decreases |es|
  {
    if es != [] {
      assert KeepsCap(es[0].0);
      assert HeldTo(Next(b, es[0].0, es[0].1), rate, until) by {
        hide Poll, Second.Read, Second.Close;
      }
      hide Next;
      CapIsKept(Next(b, es[0].0, es[0].1), es[1..], rate, until);
    }
  }

  /**
    After a refusal for capacity, whatever the payer decides to buy while it keeps to the rate it
    was named is at or below it; and is honored, if what the others have reserved has not grown.
   */
  lemma RebuyAfterCapacityRefusal(b: Buyer, refused: seq<Ratchet>, refusal: Admission, at: Millis, holdMs: u64,
                                  es: seq<(Event, Millis)>, policy: BuyerPolicy, demand: Demand, now: Millis,
                                  g: Grant, admission: Admission, updates: seq<ChannelUpdate>)
    requires Inv(b) && forall e :: e in es ==> KeepsCap(e.0)
    requires var capped := b.RecordReject(refused, RateExceedsCapacity, refusal.RateAvailable(), at, holdMs);
      && Lawful(capped, es) && now < SatAdd(at, holdMs)
      && Poll(Run(capped, es), policy, demand, now).Some?
      && Mirror(Run(capped, es), g) && SameTerms(admission.policy, demand.terms)
      && Carries(updates, Poll(Run(capped, es), policy, demand, now).value)
    requires admission.policy == refusal.policy && admission.reservedElsewhere <= refusal.reservedElsewhere
    ensures var capped := b.RecordReject(refused, RateExceedsCapacity, refusal.RateAvailable(), at, holdMs);
      var p := Poll(Run(capped, es), policy, demand, now).value;
      && p.reservedRate <= refusal.RateAvailable()
      && Evaluate(g, admission, updates, p.windowMs, p.reservedRate) == Accept(p.Legs(), p.grant)
  {
    var capped := b.RecordReject(refused, RateExceedsCapacity, refusal.RateAvailable(), at, holdMs);
    assert HeldTo(capped, refusal.RateAvailable(), SatAdd(at, holdMs));
    NextKeepsInv(b, Refused(refused, RateExceedsCapacity, refusal.RateAvailable(), holdMs), at);
    CapIsKept(capped, es, refusal.RateAvailable(), SatAdd(at, holdMs));
    ReachableKeepsInv(capped, es);
    var reached := Run(capped, es);
    PollFitsTerms(reached, policy, demand, now);
    hide Run, Poll, Inv, Mirror;
    PurchaseIsHonoredOrOverCapacity(reached, policy, demand, now, g, admission, updates);
  }
}
