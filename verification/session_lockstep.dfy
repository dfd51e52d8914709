/**
  The two counts of one budget, where they are kept: in the payer's session with its provider and the
  provider's with its payer. Whatever passes between the two, what the payer counts on and what the
  provider will carry are the same; all that is asked of a run can be seen by the payer, but for whether
  the provider has room for a rate and settles a channel still bought on.
 */
module SessionLockstep {
  import opened Numbers
  import opened Wrappers
  import opened Wire
  import opened Grants
  import opened Buyers
  import opened Sessions
  import opened Lockstep
  import opened Conversations
  import opened SessionExchanges
  import Purchases

  // ------------------------------------------------------------------------
  // What is asked of an exchange
  // ------------------------------------------------------------------------

  /** The event of the link that an exchange is, if it is one. */
  function Linked(ends: Ends, p: Pair, x: At): Option<Timed>
    requires p.payer.offer.Some?
  {
    match x.what
    case Buys(_, _) =>
      var d := Decided(ends.buying, p.payer, x.now);
      if d.Some? then Some(Timed(Bought(d.value), x.now)) else None
    case Refuses(_, _, at, seen) =>
      var d := Decided(ends.buying, p.payer, at);
      if d.Some? then Some(Timed(Refused(d.value, at, Readings(p.provider, seen)), x.now)) else None
    case Reads(counters, carried, _) =>
      var moved := Units(p.provider, counters);
      Some(Timed(if carried && p.provider.access == Active then Lockstep.Metered(moved) else Uncarried(moved), x.now))
    case Expires => Some(Timed(Ticked, x.now))
    case Reconnects(_, _) => Some(Timed(Reconnected, x.now))
    case _ => None
  }

  /** The payer's record an exchange begins from: one about to buy has first retired what is about to expire. */
  function Begins(ends: Ends, p: Pair, x: At): Buyer {
    if x.what.Buys? || x.what.Refuses? then Retired(ends.buying, p.payer.buyer, x.Starts()) else p.payer.buyer
  }

  /** What the payer has bought by an exchange. */
  function BuysOf(ends: Ends, p: Pair, x: At): nat {
    if p.payer.offer.Some? && Linked(ends, p, x).Some? then GrantOf(Linked(ends, p, x).value) else 0
  }

  /** The channels of a connection that is lost are still good at the provider. */
  ghost predicate StillHeld(ends: Ends, p: Pair, now: Millis) {
    Spares(p.payer.buyer, p.provider.grant.channels, now, ends.selling.node.SettleLeadMs())
  }

  /**
    A purchase is sent, there is room for its rate, and it meets the payer's condition. A refusal is for
    want of room, of one that the payer can undo. A reading that is not carried takes the payer no further
    than the provider. The provider settles no channel still bought on, a Balance is true or comes to a payer that has bought, and a
    connection is carried on over.
   */
  ghost predicate Allowed(ends: Ends, p: Pair, bought: nat, x: At)
    requires p.payer.offer.Some?
  {
    match x.what
    case Buys(m, elsewhere) =>
      && Sent(ends, p, m, x.now) && Room(ends, p, elsewhere, m.reservedRate)
      && PayerMeets(Begins(ends, p, x), bought, Linked(ends, p, x).value)
    case Refuses(m, elsewhere, at, seen) =>
      && Sent(ends, p, m, at) && !Room(ends, p, elsewhere, m.reservedRate)
      && !Purchases.FillsExactly(Begins(ends, p, x), Decided(ends.buying, p.payer, at).value)
      && PayerMeets(Begins(ends, p, x), bought, Linked(ends, p, x).value)
    case Polls => Decided(ends.buying, p.payer, x.now).None?
    case Reads(counters, carried, _) => carried || PausesAlike(p.payer.buyer, Units(p.provider, counters), x.now)
    case Expires => StillHeld(ends, p, x.now)
    case Balances(left, expiresInMs, _) =>
      p.payer.buyer.started || p.payer.buyer.RemainingAt(x.now) != 0 || True(p.provider.grant, left, expiresInMs, x.now)
    case Opens(id, capacity, _, funding) =>
      funding != [] && capacity > 0 && Find(p.provider.grant.channels, id).None? && !p.payer.buyer.IsActive(id)
    case ProviderHears(msg, _) => OfTheirs(msg)
    case PayerHears(msg, _) => OfOurs(msg)
    case Reconnects(_, selling) =>
      && ends.buying.node.unit == ends.selling.node.unit
      && StillHeld(ends, p, x.now) && p.payer.buyer.active.Some? && !p.payer.buyer.active.value.Exhausted()
      && !selling.noCharge && ends.buying.buying.Buying() && ends.buying.buying.AcceptsWeight(selling.Weight(ends.selling.node))
    case _ => true
  }

  // ------------------------------------------------------------------------
  // One exchange
  // ------------------------------------------------------------------------

  /** What an exchange comes to, as the link sees it. */
  ghost function After(ends: Ends, p: Pair, x: At): Link
    requires p.payer.offer.Some?
  {
    var l := p.Records().(b := Begins(ends, p, x));
    if Linked(ends, p, x).Some? then Lockstep.Next(l, Linked(ends, p, x).value) else l
  }

  lemma ExchangeFollows(ends: Ends, p: Pair, bought: nat, x: At)
    requires p.payer.offer.Some? && Wired(ends, p) && Gated(p.provider, x.Starts()) && Matched(p.payer.buyer, p.provider.grant)
    requires InStep(p.Records(), x.Starts()) && Allowed(ends, p, bought, x)
    ensures Follows(ends, After(ends, p, x), Exchanged(ends, p, x), x.now)
  {
    hide Exchanged, Follows, InStep, Lockstep.Next, Sent, Room, PayerMeets, Matched, Wired, Decided, Retired, Find, Spares, Gated;
    match x.what
    case Buys(m, elsewhere) =>
      SentIsDecided(ends, p, m, x.now);
      BothTrade(ends, p, m, elsewhere, x.now);
    case Refuses(m, elsewhere, at, seen) =>
      SentIsDecided(ends, p, m, at);
      BothRefuse(ends, p, m, elsewhere, at, seen, x.now);
    case Polls => OnlyPolls(ends, p, x.now);
    case Demands(rate) => OnlyDemands(ends, p, rate, x.now);
    case Reads(counters, carried, carriedBack) => BothRead(ends, p, counters, carried, carriedBack, x.now);
    case Expires => ProviderTicks(ends, p, x.now);
    case Balances(left, expiresInMs, reserved) => OnlyBalances(ends, p, left, expiresInMs, reserved, x.now);
    case ProviderHears(msg, free) => OtherDirection(ends, p, msg, free, x.now);
    case PayerHears(msg, free) => OtherDirection(ends, p, msg, free, x.now);
    case Opens(id, capacity, expiresAt, funding) => BothOpen(ends, p, id, capacity, expiresAt, funding, x.now);
    case Reconnects(buying, selling) => BothComeBack(ends, p, buying, selling, x.now);
  }

  lemma OnlyPolls(ends: Ends, p: Pair, now: Millis)
    requires Wired(ends, p) && Gated(p.provider, now) && Matched(p.payer.buyer, p.provider.grant) && Decided(ends.buying, p.payer, now).None?
    ensures Follows(ends, p.Records(), Exchanged(ends, p, At(Polls, now)), now)
  {
    hide Polled, Decided, Matched, Buyer.RetireExpiring;
    PolledRecords(ends, p, now);
    RetiredMatches(ends, p.Records(), now);
  }

  lemma OnlyDemands(ends: Ends, p: Pair, rate: u64, now: Millis)
    requires Wired(ends, p) && Gated(p.provider, now) && Matched(p.payer.buyer, p.provider.grant)
    ensures Follows(ends, p.Records(), Exchanged(ends, p, At(Demands(rate), now)), now)
  {
    hide Matched;
  }

  /** A Balance that is true, or that comes to a payer that has bought or has some left, tells it nothing. */
  lemma OnlyBalances(ends: Ends, p: Pair, left: u64, expiresInMs: u64, reserved: u64, now: Millis)
    requires Wired(ends, p) && Gated(p.provider, now) && Matched(p.payer.buyer, p.provider.grant) && InStep(p.Records(), now)
    requires p.payer.buyer.started || p.payer.buyer.RemainingAt(now) != 0 || True(p.provider.grant, left, expiresInMs, now)
    ensures Follows(ends, p.Records(), Exchanged(ends, p, At(Balances(left, expiresInMs, reserved), now)), now)
  {
    hide Matched, InStep, True;
    if True(p.provider.grant, left, expiresInMs, now) {
      BalanceKeepsStep(p.Records(), left, expiresInMs, now);
    }
  }

  /** And what the provider says of a budget is true when it says it. */
  lemma BalancesAreTrue(s: PeerSession, now: Millis)
    ensures BalanceOf(s, now).MBalance?
    ensures var b := BalanceOf(s, now).balance; True(s.grant, b.remaining, b.expiresInMs, now) && b.reservedRate == s.grant.reservedRate
    ensures var b := BalanceOf(s, now).balance;
      && b.remaining == (if s.grant.IsLive(now) then s.grant.Remaining() else 0)
      && (s.grant.IsLive(now) ==> now + b.expiresInMs == s.grant.deadline)
  {
  }

  /** The link takes the step, and the two are in step after it. */
  lemma LinkTakesStep(ends: Ends, p: Pair, bought: nat, x: At)
    requires p.payer.offer.Some? && Wired(ends, p) && Gated(p.provider, x.Starts()) && Matched(p.payer.buyer, p.provider.grant)
    requires InStep(p.Records(), x.Starts()) && Bounded(p.Records(), bought) && Allowed(ends, p, bought, x)
    ensures InStep(After(ends, p, x), x.now) && Bounded(After(ends, p, x), bought + BuysOf(ends, p, x))
  {
    hide Lockstep.Next, InStep, Bounded, PayerMeets, Matched, Wired, Decided, Sent, Room, Gated, Retired;
    var l := p.Records().(b := Begins(ends, p, x));
    RetiredMatches(ends, p.Records(), x.Starts());
    SameCountsInStep(p.Records(), l, bought, x.Starts());
    if Linked(ends, p, x).Some? {
      var e := Linked(ends, p, x).value;
      LinkedIsMet(ends, p, bought, x);
      PayerKeeps(l, bought, e);
      NextKeepsStep(l, e);
      NextIsBounded(l, e, bought);
    } else if x.what.Refuses? {
      SentIsDecided(ends, p, x.what.m, x.what.at);
    }
  }

  lemma LinkedIsMet(ends: Ends, p: Pair, bought: nat, x: At)
    requires Wired(ends, p) && Gated(p.provider, x.Starts()) && InStep(p.Records(), x.Starts()) && Allowed(ends, p, bought, x)
    requires Linked(ends, p, x).Some?
    ensures PayerMeets(Begins(ends, p, x), bought, Linked(ends, p, x).value) && !Linked(ends, p, x).value.what.Balanced?
    ensures Linked(ends, p, x).value.Starts() == x.Starts()
  {
    hide Wired, Decided, Sent, Room, Retired, Undoable, PayerSteady, Purchases.FillsExactly, Spares;
  }

  /** Any exchange so allowed leaves the two as joined as it found them. */
  lemma ExchangeKeepsJoined(ends: Ends, p: Pair, bought: nat, now: Millis, x: At)
    requires Joined(ends, p, bought, now) && now <= x.Starts() && Allowed(ends, p, bought, x)
    ensures Joined(ends, Exchanged(ends, p, x), bought + BuysOf(ends, p, x), x.now)
  {
    TimePasses(p.Records(), now, x.Starts());
    StaysGated(p.provider, now, x.Starts());
    assert p.payer.offer.Some?;
    hide Exchanged, InStep, Bounded, Allowed, Gated, Matched, Wired, After, SameCounts;
    LinkTakesStep(ends, p, bought, x);
    ExchangeFollows(ends, p, bought, x);
    SameCountsInStep(After(ends, p, x), Exchanged(ends, p, x).Records(), bought + BuysOf(ends, p, x), x.now);
  }

  lemma StaysGated(s: PeerSession, before: Millis, now: Millis)
    requires Gated(s, before) && before <= now
    ensures Gated(s, now)
  {
  }

  // ------------------------------------------------------------------------
  // Over whole runs
  // ------------------------------------------------------------------------

  function RunPair(ends: Ends, p: Pair, xs: seq<At>): Pair
    decreases |xs|
  {
    if xs == [] then p else RunPair(ends, Exchanged(ends, p, xs[0]), xs[1..])
  }

  ghost predicate AllAllowed(ends: Ends, p: Pair, bought: nat, now: Millis, xs: seq<At>)
    decreases |xs|
  {
    xs == [] ||
    (now <= xs[0].Starts() && p.payer.offer.Some? && Allowed(ends, p, bought, xs[0]) &&
     AllAllowed(ends, Exchanged(ends, p, xs[0]), bought + BuysOf(ends, p, xs[0]), xs[0].now, xs[1..]))
  }

  function TotalBought(ends: Ends, p: Pair, xs: seq<At>): nat
    decreases |xs|
  {
    if xs == [] then 0 else BuysOf(ends, p, xs[0]) + TotalBought(ends, Exchanged(ends, p, xs[0]), xs[1..])
  }

  function LastAt(now: Millis, xs: seq<At>): Millis {
    if xs == [] then now else xs[|xs| - 1].now
  }

  /**
    The payer's session and the provider's, over any run of purchases honored and refused, readings carried
    and not, ticks, channels opened and connections lost and made: what the payer counts on and what the
    provider will carry are the same at every instant, units left, deadline and reserved rate.
   */
  lemma {:induction false} SessionsInLockstep(ends: Ends, p: Pair, bought: nat, now: Millis, xs: seq<At>, later: Millis)
    requires Joined(ends, p, bought, now) && AllAllowed(ends, p, bought, now, xs) && LastAt(now, xs) <= later
    ensures var end := RunPair(ends, p, xs);
      && PayerView(end.payer.buyer, later) == ProviderView(end.provider.grant, later)
      && Joined(ends, end, bought + TotalBought(ends, p, xs), later)
    decreases |xs|
  {
    hide Exchanged, InStep, Allowed, Wired, Gated, Matched, Bounded, PayerView, ProviderView, BuysOf;
    if xs == [] {
      TimePasses(p.Records(), now, later);
      StaysGated(p.provider, now, later);
      ViewsAgree(p.Records(), later);
    } else {
      ExchangeKeepsJoined(ends, p, bought, now, xs[0]);
      assert LastAt(now, xs) == LastAt(xs[0].now, xs[1..]);
      SessionsInLockstep(ends, Exchanged(ends, p, xs[0]), bought + BuysOf(ends, p, xs[0]), xs[0].now, xs[1..], later);
    }
  }

  lemma ViewsAgree(l: Link, now: Millis)
    requires InStep(l, now)
    ensures PayerView(l.b, now) == ProviderView(l.g, now)
  {
  }

  /** And so from two sessions that hold nothing but each other's terms, before any channel is opened. */
  lemma NewSessionsInLockstep(ends: Ends, p: Pair, now: Millis, xs: seq<At>, later: Millis)
    requires Wired(ends, p) && p.payer.buyer == NewBuyer() && p.provider.grant == NewGrant()
    requires AllAllowed(ends, p, 0, now, xs) && LastAt(now, xs) <= later
    ensures var end := RunPair(ends, p, xs);
      PayerView(end.payer.buyer, later) == ProviderView(end.provider.grant, later)
  {
    hide RunPair, AllAllowed, PayerView, ProviderView, LastAt;
    NewLinkInStep(now);
    assert Gated(p.provider, now) && Matched(NewBuyer(), NewGrant()) && Bounded(p.Records(), 0);
    SessionsInLockstep(ends, p, 0, now, xs, later);
  }

  /**
    Every purchase a payer so joined comes to is one of the two: honored for the grant it counts on and
    answered with the budget it leaves, if there is room for its rate; and refused for want of it if not, the
    refusal naming what the purchase did.
   */
  lemma EveryPurchaseIsAnswered(ends: Ends, p: Pair, bought: nat, now: Millis, xs: seq<At>, m: TopUp, elsewhere: u64, later: Millis)
    requires Joined(ends, p, bought, now) && AllAllowed(ends, p, bought, now, xs) && LastAt(now, xs) <= later
    requires Sent(ends, RunPair(ends, p, xs), m, later)
    ensures var end := RunPair(ends, p, xs);
      var d, answered := Decided(ends.buying, end.payer, later), Answered(ends, end.provider, m, elsewhere, later);
      var said, admission := Said(answered.out, ends.payer), Admission(ends.selling.node.grants, elsewhere);
      && d.Some? && said != []
      && if Room(ends, end, elsewhere, m.reservedRate) then
           && answered.s.grant == Purchases.Honor(end.provider.grant.TopupChecked(later), d.value, later)
           && said[0] == BalanceOf(answered.s, later)
         else
           && answered.s.grant == end.provider.grant.TopupChecked(later)
           && said[0].MTopUpReject? && RefusesFor(said[0].topupReject, m, admission, RateExceedsCapacity)
  {
    hide Sent, Wired, Gated, Matched, Answered, Said, Purchases.Honor, RunPair, AllAllowed, InStep, PayerView, ProviderView, LastAt, BalanceOf, Decided, RefusesFor;
    SessionsInLockstep(ends, p, bought, now, xs, later);
    var end := RunPair(ends, p, xs);
    SentIsDecided(ends, end, m, later);
    if Room(ends, end, elsewhere, m.reservedRate) {
      HonoredRecords(ends, end, m, elsewhere, later);
    } else {
      var r := RefusedRecords(ends, end, m, elsewhere, later);
    }
  }
}
