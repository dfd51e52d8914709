/**
  What a payer decides, as its operator and the provider's terms see it: whether it buys, how much, at
  what rate and for how long. The decision is `Poll`; here is what each of its answers means.
 */
module Polls {
  import opened Numbers
  import opened Wrappers
  import opened Wire
  import opened Limits
  import opened Buyers

  // ------------------------------------------------------------------------
  // The rate
  // ------------------------------------------------------------------------

  /** No higher than the operator allows, nor than a provider that refused us said it would take. */
  ghost predicate Permitted(b: Buyer, policy: BuyerPolicy, now: Millis, rate: u64) {
    rate <= policy.maxRate && (b.CapAt(now).Some? ==> rate <= b.CapAt(now).value)
  }

  /** What a payer would reserve with no limit above: demand with headroom, no less than either side's smallest. */
  ghost function Sought(policy: BuyerPolicy, terms: Terms, rate: u64): u64 {
    if policy.reserve then Max(Max(rate, policy.minRate), terms.minReservedRate) else terms.minReservedRate
  }

  /**
    The rate is the one sought, or the highest permitted if that is lower. There is none exactly when that is
    below the provider's smallest, or would be a reservation of nothing.
   */
  lemma FittedIff(b: Buyer, policy: BuyerPolicy, terms: Terms, rate: u64, now: Millis)
    ensures FitRate(b, policy, terms, rate, now).Some? <==>
      exists r: u64 :: r >= terms.minReservedRate && r <= Sought(policy, terms, rate) && Permitted(b, policy, now, r) && (policy.reserve ==> r > 0)
    ensures FitRate(b, policy, terms, rate, now).Some? ==>
      (var r := FitRate(b, policy, terms, rate, now).value;
       && terms.minReservedRate <= r <= Sought(policy, terms, rate) && Permitted(b, policy, now, r)
       && forall x: u64 :: x <= Sought(policy, terms, rate) && Permitted(b, policy, now, x) ==> x <= r)
  {
    var asked := Min(Max(if policy.reserve then Max(rate, policy.minRate) else 0, terms.minReservedRate), policy.maxRate);
    var fitted := if b.CapAt(now).Some? then Min(asked, b.CapAt(now).value) else asked;
    assert Permitted(b, policy, now, fitted) && fitted <= Sought(policy, terms, rate);
  }

  /** What a payer sees wanted on the link, in units a second: what is observed, or what its operator set. */
  ghost function Wanting(policy: BuyerPolicy, demand: Demand): u64 {
    Max(demand.observedRate, policy.demand)
  }

  /** What a session that came back with a budget has to reserve again. */
  ghost function Resuming(b: Buyer, policy: BuyerPolicy, now: Millis): u64 {
    if policy.reserve && !b.started && now < b.deadline && b.remaining > 0 then b.resumed else 0
  }

  /** The rate the payer is to reserve now, if any fits: for what is wanted with headroom, or as it had before. */
  ghost function Rate(b: Buyer, policy: BuyerPolicy, demand: Demand, now: Millis): Option<u64> {
    FitRate(b, policy, demand.terms,
            if Wanting(policy, demand) > 0 then Saturate(Wanting(policy, demand) * policy.headroomPct / 100) else Resuming(b, policy, now), now)
  }

  lemma RateIsReserved(b: Buyer, policy: BuyerPolicy, demand: Demand, now: Millis)
    ensures Wanting(policy, demand) > 0 || Resuming(b, policy, now) > 0 ==>
      ToReserve(b, policy, demand, if policy.reserve then b.ResumeRate(now) else 0, now) == Rate(b, policy, demand, now)
    ensures (if policy.reserve then b.ResumeRate(now) else 0) == Resuming(b, policy, now)
  {
  }

  // ------------------------------------------------------------------------
  // How much
  // ------------------------------------------------------------------------

  /** The budget a payer means to hold. */
  ghost function Size(policy: BuyerPolicy, rate: u64, windowMs: u64): u64 {
    if policy.reserve then UnitsIn(rate, windowMs) else policy.budget
  }

  /** What its channels can still carry. */
  ghost function Room(b: Buyer): nat {
    (if b.active.Some? then b.active.value.Headroom() else 0) + (if b.next.Some? then b.next.value.Headroom() else 0)
  }

  /** What has drained of the size wanted, and never nothing: a cumulative total must rise. */
  ghost function Drained(size: u64, left: u64): nat {
    if size > left then size - left else 1
  }

  lemma SplitTakesRoom(b: Buyer, wanted: u64)
    requires b.active.Some?
    ensures Split(b.active.value, b.next, wanted).2 == (if wanted <= Room(b) then wanted else Room(b))
  {
  }

  lemma PollGrants(b: Buyer, policy: BuyerPolicy, demand: Demand, now: Millis)
    requires Poll(b, policy, demand, now).Some?
    ensures var p := Poll(b, policy, demand, now).value;
      var wanted := Drained(Size(policy, p.reservedRate, p.windowMs), b.RemainingAt(now));
      && p.grant == (if wanted <= Room(b) then wanted else Room(b))
      && Some(p.reservedRate) == Rate(b, policy, demand, now) && p.windowMs == demand.terms.ClampWindow(policy.windowMs)
  {
    hide FitRate, Why, Split;
    RateIsReserved(b, policy, demand, now);
    var p := Poll(b, policy, demand, now).value;
    var size := Size(policy, p.reservedRate, p.windowMs);
    SplitTakesRoom(b, Max(SatSub(size, b.RemainingAt(now)), 1));
  }

  /** What closing the open second takes from the count, when a purchase changes the rate. */
  ghost function Closed(b: Buyer, p: Purchase, now: Millis): nat {
    b.RemainingAt(now) - b.SplitSecond(p.reservedRate, now).RemainingAt(now)
  }

  lemma SplitOnlyTakes(b: Buyer, rate: u64, now: Millis)
    ensures b.SplitSecond(rate, now).RemainingAt(now) <= b.RemainingAt(now)
    ensures rate == b.reserved || b.second.None? ==> b.SplitSecond(rate, now).RemainingAt(now) == b.RemainingAt(now)
  {
    hide Second.Close;
  }

  lemma RecordLeaves(b: Buyer, p: Purchase, now: Millis)
    ensures b.Record(p, now).0.remaining == SatAdd(b.SplitSecond(p.reservedRate, now).RemainingAt(now), p.grant)
    ensures b.Record(p, now).0.deadline == Max(b.deadline, SatAdd(now, p.windowMs)) && b.Record(p, now).0.reserved == p.reservedRate
  {
    hide Second.Close;
  }

  /**
    Each purchase brings the budget back up to the size wanted and never further: what the payer counts
    after it, with whatever closing the second at its old rate took, is the larger of the size and one more
    than was left. With too little room for that on its channels it is all the room there is.
   */
  lemma PurchaseBringsBack(b: Buyer, policy: BuyerPolicy, demand: Demand, now: Millis)
    requires Poll(b, policy, demand, now).Some?
    ensures var p, left := Poll(b, policy, demand, now).value, b.RemainingAt(now);
      var size, after := Size(policy, p.reservedRate, p.windowMs), b.Record(p, now).0;
      && (Drained(size, left) <= Room(b) && left < U64_MAX ==> after.remaining + Closed(b, p, now) == Max(size, left + 1))
      && (Drained(size, left) > Room(b) && left + Room(b) <= U64_MAX ==> after.remaining + Closed(b, p, now) == left + Room(b))
      && after.remaining <= Max(size, left + 1)
      && (p.reservedRate == b.reserved || b.second.None? ==> Closed(b, p, now) == 0)
  {
    hide Poll, Buyer.Record, Buyer.SplitSecond, ChannelBuyer.Headroom;
    var p := Poll(b, policy, demand, now).value;
    PollGrants(b, policy, demand, now);
    RecordLeaves(b, p, now);
    SplitOnlyTakes(b, p.reservedRate, now);
  }

  // ------------------------------------------------------------------------
  // When
  // ------------------------------------------------------------------------

  /** The gap the provider asks for has passed since the last purchase. */
  ghost predicate Spaced(b: Buyer, terms: Terms, now: Millis) {
    b.lastTopup.Some? ==> SatSub(now, b.lastTopup.value) >= terms.minTopupGapMs
  }

  /** More is wanted than is reserved, and more can be reserved. */
  ghost predicate Rises(b: Buyer, policy: BuyerPolicy, demand: Demand, rate: u64, now: Millis) {
    rate > b.reserved && (Wanting(policy, demand) > b.reserved || Resuming(b, policy, now) > b.reserved)
  }

  /** A payer that pays per use holds a reservation still. */
  ghost predicate Stops(b: Buyer, policy: BuyerPolicy, rate: u64) {
    !policy.reserve && b.reserved > rate
  }

  /** How long before it would run out a payer buys: what the operator set, and no more than half the window. */
  ghost function Lead(policy: BuyerPolicy, windowMs: u64): u64 {
    if policy.renewLeadMs <= windowMs / 2 then policy.renewLeadMs else windowMs / 2
  }

  /** Within the lead the budget, at the rate it is drawn, or its deadline would run out. */
  ghost predicate RunsOut(b: Buyer, policy: BuyerPolicy, demand: Demand, windowMs: u64, now: Millis) {
    var lead := Lead(policy, windowMs);
    || b.RemainingAt(now) <= UnitsIn(if b.reserved >= demand.observedRate then b.reserved else demand.observedRate, lead)
    || SatAdd(now, lead) >= b.deadline
  }

  /**
    A payer buys exactly when it has a channel with room, something is wanted or is to be reserved again,
    the gap has passed, a rate fits, and there is a reservation to raise or to give up or a budget that runs out.
   */
  lemma PollBuysIff(b: Buyer, policy: BuyerPolicy, demand: Demand, now: Millis)
    ensures var rate, windowMs := Rate(b, policy, demand, now), demand.terms.ClampWindow(policy.windowMs);
      Poll(b, policy, demand, now).Some? <==>
        && b.active.Some? && Room(b) > 0
        && (Wanting(policy, demand) > 0 || Resuming(b, policy, now) > 0)
        && Spaced(b, demand.terms, now) && rate.Some?
        && (Rises(b, policy, demand, rate.value, now) || Stops(b, policy, rate.value) || RunsOut(b, policy, demand, windowMs, now))
  {
    hide FitRate, UnitsIn, Split, Terms.ClampWindow;
    RateIsReserved(b, policy, demand, now);
    var rate, windowMs := Rate(b, policy, demand, now), demand.terms.ClampWindow(policy.windowMs);
    if b.active.Some? && rate.Some? {
      SplitTakesRoom(b, Max(SatSub(Size(policy, rate.value, windowMs), b.RemainingAt(now)), 1));
    }
  }

  /** Why it bought, as its operator is told. */
  lemma TriggerTells(b: Buyer, policy: BuyerPolicy, demand: Demand, now: Millis)
    requires Poll(b, policy, demand, now).Some?
    ensures var p := Poll(b, policy, demand, now).value;
      && (p.trigger == StopReserving <==> Stops(b, policy, p.reservedRate) && !Rises(b, policy, demand, p.reservedRate, now))
      && (p.trigger == First <==> !b.started && p.trigger != StopReserving)
      && (p.trigger == RateRose <==> b.started && Rises(b, policy, demand, p.reservedRate, now) && b.CapAt(now).None?)
      && (p.trigger == Rebuy <==> b.started && Rises(b, policy, demand, p.reservedRate, now) && b.CapAt(now).Some?)
      && (p.trigger == Renewal ==> RunsOut(b, policy, demand, p.windowMs, now))
  {
    hide FitRate, UnitsIn, Split, Terms.ClampWindow;
    RateIsReserved(b, policy, demand, now);
  }

  ghost function Apart(x: u64, y: u64): u64 {
    if x <= y then y - x else x - y
  }

  /** The window asked for is the operator's, or the nearest the provider takes. */
  lemma WindowIsNearest(terms: Terms, want: u64)
    requires terms.minWindowMs <= terms.maxWindowMs
    ensures var w := terms.ClampWindow(want);
      && terms.minWindowMs <= w <= terms.maxWindowMs
      && forall x: u64 :: terms.minWindowMs <= x <= terms.maxWindowMs ==> Apart(w, want) <= Apart(x, want)
  {
  }

  // ------------------------------------------------------------------------
  // One purchase after another
  // ------------------------------------------------------------------------

  lemma HalfIsLess(a: nat, c: nat)
    requires 2 * a <= c
    ensures a / 1_000 < c / 1_000 || a / 1_000 == c / 1_000 == 0
  {
  }

  lemma TwiceWithin(rate: nat, lead: nat, windowMs: nat)
    requires 2 * lead <= windowMs
    ensures 2 * (rate * lead) <= rate * windowMs
  {
  }

  lemma LeadDrawsLess(rate: u64, lead: u64, windowMs: u64)
    requires lead <= windowMs / 2 && UnitsIn(rate, windowMs) < U64_MAX
    ensures UnitsIn(rate, lead) < Max(UnitsIn(rate, windowMs), 1)
  {
    TwiceWithin(rate, lead, windowMs);
    HalfIsLess(rate * lead, rate * windowMs);
  }

  /**
    A purchase with room for it leaves nothing more to buy: asked again at once, with no gap to wait out and
    no more in demand than was reserved, the payer holds, however short the window the provider allows.
   */
  lemma HoldsOnceBought(b: Buyer, policy: BuyerPolicy, demand: Demand, now: Millis)
    requires Poll(b, policy, demand, now).Some? && policy.reserve
    requires var p := Poll(b, policy, demand, now).value;
      && p.windowMs > 0 && now + p.windowMs <= U64_MAX && UnitsIn(p.reservedRate, p.windowMs) < U64_MAX && demand.observedRate <= p.reservedRate
      && b.RemainingAt(now) < U64_MAX && Drained(Size(policy, p.reservedRate, p.windowMs), b.RemainingAt(now)) <= Room(b)
      && Closed(b, p, now) == 0
    ensures Poll(b.Record(Poll(b, policy, demand, now).value, now).0, policy, demand, now).None?
  {
    hide Poll, Buyer.Record, FitRate, UnitsIn, Room, Buyer.SplitSecond;
    var p := Poll(b, policy, demand, now).value;
    var after := b.Record(p, now).0;
    PollBuysIff(b, policy, demand, now);
    PollBuysIff(after, policy, demand, now);
    PollGrants(b, policy, demand, now);
    PurchaseBringsBack(b, policy, demand, now);
    RecordLeaves(b, p, now);
    RecordStarts(b, p, now);
    if Wanting(policy, demand) > 0 {
      SameRate(b, after, policy, demand, now);
    }
    LeadDrawsLess(p.reservedRate, Lead(policy, p.windowMs), p.windowMs);
  }

  lemma RecordStarts(b: Buyer, p: Purchase, now: Millis)
    ensures var b' := b.Record(p, now).0;
      b'.started && b'.resumed == 0 && b'.cappedAt == b.cappedAt && b'.lastTopup == Some(now) && b'.lastGrant == p.grant
  {
    hide Second.Close;
  }

  lemma SameRate(b: Buyer, b': Buyer, policy: BuyerPolicy, demand: Demand, now: Millis)
    requires b'.cappedAt == b.cappedAt && Wanting(policy, demand) > 0
    ensures Rate(b', policy, demand, now) == Rate(b, policy, demand, now)
  {
  }

  /**
    A payer that had a rate reserved when the link was lost, and a budget left, reserves again as soon as it
    is back, though nothing is wanted of the link yet.
   */
  lemma ReservesAgain(b: Buyer, policy: BuyerPolicy, demand: Demand, now: Millis)
    requires b.started && b.reserved > 0 && policy.reserve && Wanting(policy, demand) == 0
    requires var back := b.Restart();
      back.active.Some? && Room(back) > 0 && back.RemainingAt(now) > 0 && FitRate(back, policy, demand.terms, b.reserved, now).Some?
    ensures var back := b.Restart();
      && Poll(back, policy, demand, now).Some?
      && Some(Poll(back, policy, demand, now).value.reservedRate) == FitRate(back, policy, demand.terms, b.reserved, now)
  {
    hide Poll, FitRate, Second.Close;
    var back := b.Restart();
    FittedIff(back, policy, demand.terms, b.reserved, now);
    PollBuysIff(back, policy, demand, now);
    PollGrants(back, policy, demand, now);
  }

  /**
    And so does one whose channel was lost with the link, once another is open and the provider has said what
    it still holds.
   */
  lemma ReservesAgainFromNothing(b: Buyer, id: ChannelId, capacity: u64, expiresAt: Option<Millis>, left: u64, expiresInMs: u64,
                                 policy: BuyerPolicy, demand: Demand, now: Millis)
    requires b.resumed > 0 && policy.reserve && Wanting(policy, demand) == 0 && capacity > 0 && left > 0 && expiresInMs > 0 && now < U64_MAX
    requires FitRate(NewBuyer(), policy, demand.terms, b.resumed, now).Some?
    ensures var back := b.StartOver().FundedWith(id, capacity, expiresAt).Confirmed(id).NoteBalance(left, expiresInMs, now);
      && Poll(back, policy, demand, now).Some?
      && Some(Poll(back, policy, demand, now).value.reservedRate) == FitRate(NewBuyer(), policy, demand.terms, b.resumed, now)
  {
    hide Poll, FitRate;
    var back := b.StartOver().FundedWith(id, capacity, expiresAt).Confirmed(id).NoteBalance(left, expiresInMs, now);
    SameFit(NewBuyer(), back, policy, demand.terms, b.resumed, now);
    FittedIff(back, policy, demand.terms, b.resumed, now);
    PollBuysIff(back, policy, demand, now);
    PollGrants(back, policy, demand, now);
  }

  lemma SameFit(b: Buyer, b': Buyer, policy: BuyerPolicy, terms: Terms, rate: u64, now: Millis)
    requires b'.cappedAt == b.cappedAt
    ensures FitRate(b', policy, terms, rate, now) == FitRate(b, policy, terms, rate, now)
  {
  }
}
