/**
  A payer's session with its provider and that provider's session with the payer, as one: what passes
  between the two at an instant, and what every such exchange keeps of them. Each is a step of the
  link between the records they count by, or none.
 */
module SessionExchanges {
  import opened Numbers
  import opened Wrappers
  import opened Wire
  import opened Limits
  import opened Grants
  import opened GrantChannels
  import opened Buyers
  import opened Sessions
  import opened SessionFrames
  import opened SessionPurchases
  import opened Lockstep
  import opened Conversations
  import GrantProperties
  import Nodes
  import Purchases

  /** A payer's session with its provider, and the provider's session with that payer. */
  datatype Pair = Pair(payer: PeerSession, provider: PeerSession) {
    function Records(): Link {
      Link(payer.buyer, provider.grant)
    }
  }

  /** The two ends: their settings, and the keys they know each other by. */
  datatype Ends = Ends(buying: Config, selling: Config, payer: PubKey, provider: PubKey)

  /** The counters the provider reads, and whether the payer carries the provider meanwhile. */
  datatype Read = Read(counters: Counters, carriedBack: bool, now: Millis)

  /**
    What passes between the two at one instant. A refusal is heard later than the purchase it answers,
    which is made at `at`; what the payer decides on upon hearing one, or a confirmation, or upon coming
    back, is an exchange of its own. Either may hear what concerns the other direction of the link.
   */
  datatype Exchange =
    | Buys(m: TopUp, elsewhere: u64)
    | Refuses(m: TopUp, elsewhere: u64, at: Millis, seen: seq<Read>)
    | Polls
    | Demands(rate: u64)
    | Reads(counters: Counters, carried: bool, carriedBack: bool)
    | Expires
    | Balances(left: u64, expiresInMs: u64, reserved: u64)
    | Opens(id: ChannelId, capacity: u64, expiresAt: Option<Millis>, funding: Bytes)
    | Reconnects(buying: PeerPolicy, selling: PeerPolicy)
    | ProviderHears(msg: Message, free: u64)
    | PayerHears(msg: Message, free: u64)

  datatype At = At(what: Exchange, now: Millis) {
    function Starts(): Millis {
      if what.Refuses? then what.at else now
    }
  }

  // ------------------------------------------------------------------------
  // What an exchange does
  // ------------------------------------------------------------------------

  function Polled(ends: Ends, s: PeerSession, now: Millis): PeerSession {
    PollBuyer(ends.buying, ends.provider, Bare(s), now).s
  }

  function Answered(ends: Ends, s: PeerSession, m: TopUp, elsewhere: u64, now: Millis): Turn {
    OnMessage(ends.selling, ends.payer, Bare(s), MTopUp(m), elsewhere, now)
  }

  /** What one end counts to the other is what the other counts from it. */
  function OtherWay(c: Counters): Counters {
    Counters(c.fromPayer, c.toPayer)
  }

  function ReadOnce(ends: Ends, p: Pair, r: Read, carried: bool): Pair {
    Pair(Refresh(ends.buying, ends.provider, Bare(Sessions.OnMetered(p.payer, OtherWay(r.counters), r.carriedBack, r.now)), r.now).s,
         Refresh(ends.selling, ends.payer, Bare(Sessions.OnMetered(p.provider, r.counters, carried, r.now)), r.now).s)
  }

  function ReadAll(ends: Ends, p: Pair, seen: seq<Read>): Pair
    decreases |seen|
  {
    if seen == [] then p else ReadAll(ends, ReadOnce(ends, p, seen[0], true), seen[1..])
  }

  /** The payer hears the first thing said to it, and has yet to look whether to buy. */
  function Replied(ends: Ends, s: PeerSession, said: seq<Message>, now: Millis): PeerSession {
    if said == [] then s else Took(s, said[0], ends.buying.buying.capHoldMs, now)
  }

  /** A channel funded for the payer, as it is announced: the first one, or a replacement. */
  function Announced(ends: Ends, s: PeerSession, id: ChannelId, capacity: u64, expiresAt: Option<Millis>, funding: Bytes,
                     now: Millis): Turn
  {
    OnOutgoingFunded(ends.buying, ends.provider, Bare(s), id, capacity, expiresAt, funding, now)
  }

  function HeardOf(ends: Ends, p: Pair, id: ChannelId, capacity: u64, expiresAt: Option<Millis>, funding: Bytes, now: Millis): Turn {
    HearAll(ends.selling, ends.payer, Bare(p.provider), Said(Announced(ends, p.payer, id, capacity, expiresAt, funding, now).out, ends.provider), now)
  }

  function Verified(ends: Ends, p: Pair, id: ChannelId, capacity: u64, expiresAt: Option<Millis>, funding: Bytes, now: Millis): Turn {
    OnIncomingVerified(ends.selling, ends.payer, HeardOf(ends, p, id, capacity, expiresAt, funding, now), id, capacity, expiresAt, now)
  }

  /** A session carried on with over a new connection. */
  function Back(cfg: Config, peer: PubKey, policy: PeerPolicy, s: PeerSession, now: Millis): Turn {
    Nodes.Greet(cfg, peer, policy, Nodes.Begin(cfg, peer, policy, Some(s), None, now, 0), now)
  }

  function BeforeOffer(msgs: seq<Message>): seq<Message> {
    if msgs == [] || msgs[0].MOffer? then [] else [msgs[0]] + BeforeOffer(msgs[1..])
  }

  function OfferIn(msgs: seq<Message>): Option<Offer> {
    if msgs == [] then None else if msgs[0].MOffer? then Some(msgs[0].offer) else OfferIn(msgs[1..])
  }

  /** What an opening Offer comes to for a payer whose channel is still held, but for the poll that ends it. */
  function CarriesOn(cfg: Config, peer: PubKey, t: Turn, m: Offer, now: Millis): Turn {
    var taken := TakeOffer(t.s.(lastSeen := now), m);
    Refresh(cfg, peer, t.(s := taken.(buyer := taken.buyer.ForgetPending(), phase := Established)), now)
  }

  /** What a provider says to a payer that comes back. */
  function Greeting(ends: Ends, p: Pair, selling: PeerPolicy, now: Millis): seq<Message> {
    Said(Back(ends.selling, ends.payer, selling, p.provider, now).out, ends.payer)
  }

  function PayerBack(ends: Ends, p: Pair, buying: PeerPolicy, selling: PeerPolicy, now: Millis): Turn {
    HearAll(ends.buying, ends.provider, Back(ends.buying, ends.provider, buying, p.payer, now), BeforeOffer(Greeting(ends, p, selling, now)), now)
  }

  function Exchanged(ends: Ends, p: Pair, x: At): Pair {
    match x.what
    case Buys(m, elsewhere) => Pair(Polled(ends, p.payer, x.now), Answered(ends, p.provider, m, elsewhere, x.now).s)
    case Refuses(m, elsewhere, at, seen) =>
      var answered := Answered(ends, p.provider, m, elsewhere, at);
      var read := ReadAll(ends, Pair(Polled(ends, p.payer, at), answered.s), seen);
      read.(payer := Replied(ends, read.payer, Said(answered.out, ends.payer), x.now))
    case Polls => p.(payer := Polled(ends, p.payer, x.now))
    case Demands(rate) => p.(payer := p.payer.(demand := rate))
    case Reads(counters, carried, carriedBack) => ReadOnce(ends, p, Read(counters, carriedBack, x.now), carried)
    case Expires => p.(provider := OnTick(ends.selling, ends.payer, Bare(p.provider), x.now).s)
    case Balances(left, expiresInMs, reserved) =>
      p.(payer := OnMessage(ends.buying, ends.provider, Bare(p.payer), MBalance(Balance(left, expiresInMs, reserved)), 0, x.now).s)
    case Opens(id, capacity, expiresAt, funding) =>
      var verified := Verified(ends, p, id, capacity, expiresAt, funding, x.now);
      Pair(Replied(ends, Announced(ends, p.payer, id, capacity, expiresAt, funding, x.now).s, Said(verified.out, ends.payer), x.now), verified.s)
    case Reconnects(buying, selling) =>
      var offer := OfferIn(Greeting(ends, p, selling, x.now));
      if offer.None? then p
      else
        Pair(CarriesOn(ends.buying, ends.provider, PayerBack(ends, p, buying, selling, x.now), offer.value, x.now).s,
             Back(ends.selling, ends.payer, selling, p.provider, x.now).s)
    case ProviderHears(msg, free) => p.(provider := OnMessage(ends.selling, ends.payer, Bare(p.provider), msg, free, x.now).s)
    case PayerHears(msg, free) => p.(payer := OnMessage(ends.buying, ends.provider, Bare(p.payer), msg, free, x.now).s)
  }

  // ------------------------------------------------------------------------
  // What the two keep
  // ------------------------------------------------------------------------

  /** Charged by terms both hold alike, and read by the same counters. */
  ghost predicate Wired(ends: Ends, p: Pair) {
    && p.payer.offer.Some? && !p.payer.offer.value.noCharge && !p.payer.refusedTerms
    && Purchases.SameTerms(ends.selling.node.grants, p.payer.offer.value.terms)
    && p.payer.offer.value.terms.minTopupGapMs == ends.selling.node.grants.minTopupGapMs
    && p.provider.weight == p.payer.offer.value.terms.fromPayerWeight
    && p.payer.meter == OtherWay(p.provider.meter)
    && Distinct(p.provider.grant.channels) && !p.provider.policy.noCharge
  }

  /** Whoever pays on a channel is carried, and whoever is not has nothing left. */
  ghost predicate Gated(s: PeerSession, now: Millis) {
    (s.grant.channels != [] ==> s.access == Active) && (s.access != Active ==> !s.grant.IsLive(now))
  }

  /** The payer's channels are in order and mirrored, and its purchases are no closer than the provider has seen. */
  ghost predicate Matched(b: Buyer, g: Grant) {
    && Purchases.Inv(b) && b.pending.None? && Purchases.Mirror(b, g)
    && (g.lastTopup.Some? ==> b.lastTopup.Some? && g.lastTopup.value <= b.lastTopup.value)
  }

  ghost predicate Joined(ends: Ends, p: Pair, bought: nat, now: Millis) {
    && Wired(ends, p) && Gated(p.provider, now) && Matched(p.payer.buyer, p.provider.grant)
    && Bounded(p.Records(), bought) && InStep(p.Records(), now)
  }

  /** The same counts, whatever the channels. */
  ghost predicate SameCounts(l: Link, l': Link) {
    && l'.b.remaining == l.b.remaining && l'.b.deadline == l.b.deadline && l'.b.reserved == l.b.reserved && l'.b.second == l.b.second
    && l'.g.authorized == l.g.authorized && l'.g.consumed == l.g.consumed && l'.g.deadline == l.g.deadline
    && l'.g.reservedRate == l.g.reservedRate && l'.g.second == l.g.second
  }

  lemma SameCountsInStep(l: Link, l': Link, bought: nat, now: Millis)
    requires SameCounts(l, l') && InStep(l, now) && Bounded(l, bought)
    ensures InStep(l', now) && Bounded(l', bought)
  {
  }

  /** What an exchange is to come to: the counts of `l`, and the rest kept. */
  ghost predicate Follows(ends: Ends, l: Link, p: Pair, now: Millis) {
    SameCounts(l, p.Records()) && Wired(ends, p) && Gated(p.provider, now) && Matched(p.payer.buyer, p.provider.grant)
  }

  // ------------------------------------------------------------------------
  // The payer polls
  // ------------------------------------------------------------------------

  lemma PolledRecords(ends: Ends, p: Pair, now: Millis)
    requires Wired(ends, p)
    ensures var b, d := Retired(ends.buying, p.payer.buyer, now), Decided(ends.buying, p.payer, now);
      Polled(ends, p.payer, now) == p.payer.(buyer := if d.Some? then b.Record(d.value, now).0 else b)
  {
    hide Poll, Buyer.Record, DemandOf;
  }

  lemma RetiredMatches(ends: Ends, l: Link, now: Millis)
    requires Matched(l.b, l.g)
    ensures Matched(Retired(ends.buying, l.b, now), l.g)
    ensures SameCounts(l, Link(Retired(ends.buying, l.b, now), l.g))
  {
  }

  // ------------------------------------------------------------------------
  // A purchase, and the provider's answer
  // ------------------------------------------------------------------------

  /** The TopUp heard is one the payer's host was asked to sign and send. */
  ghost predicate Sent(ends: Ends, p: Pair, m: TopUp, now: Millis) {
    exists a :: a in PollBuyer(ends.buying, ends.provider, Bare(p.payer), now).out && a.SignAndSendTopUp? && a.peer == ends.provider && SignedFrom(a, m)
  }

  /** It is then the purchase decided on: there is no other. */
  lemma SentIsDecided(ends: Ends, p: Pair, m: TopUp, now: Millis)
    requires Sent(ends, p, m, now)
    ensures var d := Decided(ends.buying, p.payer, now);
      d.Some? && m.windowMs == d.value.windowMs && m.reservedRate == d.value.reservedRate && Purchases.Carries(m.updates, d.value)
  {
    hide PollBuyer, Decided, GrantProperties.ToRatchets;
    PollSays(ends.buying, ends.provider, Bare(p.payer), now);
    var d := Decided(ends.buying, p.payer, now);
    if d.Some? {
      assert d.value.Legs()[0] == d.value.first;
    }
  }

  /** The provider has the capacity: the rate is no higher than is reserved already, or is still free. */
  predicate Room(ends: Ends, p: Pair, elsewhere: u64, rate: u64) {
    rate <= p.provider.grant.reservedRate || rate <= Admission(ends.selling.node.grants, elsewhere).RateAvailable()
  }

  /**
    Whatever a payer so joined decides on is judged, and not for coming too soon; it is honored for the
    grant counted on if there is room for its rate, and refused for that alone if not.
   */
  lemma SentIsJudged(ends: Ends, p: Pair, m: TopUp, elsewhere: u64, now: Millis)
    requires Wired(ends, p) && Matched(p.payer.buyer, p.provider.grant) && Sent(ends, p, m, now)
    ensures var d := Decided(ends.buying, p.payer, now).value; var checked := Checked(Bare(p.provider), now);
      && !p.provider.grant.TooSoon(now, ends.selling.node.grants.minTopupGapMs)
      && Judged(ends.selling, checked, m, elsewhere) ==
           (if Room(ends, p, elsewhere, m.reservedRate) then Accept(d.Legs(), d.grant)
            else Refuse(RateExceedsCapacity, Admission(ends.selling.node.grants, elsewhere).RateAvailable()))
  {
    hide Evaluate, DemandOf, Purchases.Inv, PollBuyer;
    SentIsDecided(ends, p, m, now);
    var demand, b := DemandOf(p.payer, p.payer.offer.value.terms), Retired(ends.buying, p.payer.buyer, now);
    DemandTerms(p.payer);
    RetiredMatches(ends, p.Records(), now);
    SpacedPolls(b, ends.buying.buying, demand, now);
    hide Poll;
    Purchases.PurchaseIsHonoredOrOverCapacity(b, ends.buying.buying, demand, now, p.provider.grant.TopupChecked(now),
                                              Admission(ends.selling.node.grants, elsewhere), m.updates);
  }

  lemma DemandTerms(s: PeerSession)
    requires s.offer.Some?
    ensures DemandOf(s, s.offer.value.terms).terms == s.offer.value.terms
  {
  }

  lemma SpacedPolls(b: Buyer, policy: BuyerPolicy, demand: Demand, now: Millis)
    requires Poll(b, policy, demand, now).Some?
    ensures b.lastTopup.Some? ==> SatSub(now, b.lastTopup.value) >= demand.terms.minTopupGapMs
  {
    hide ToReserve, Why, Split;
  }

  lemma {:induction false} SettledAlike(peer: PubKey, cs: seq<IncomingChannel>, ids: seq<ChannelId>)
    ensures SettleEach(peer, cs, ids).0 == Purchases.SettleAll(cs, ids)
    decreases |ids|
  {
    if ids != [] {
      SettledAlike(peer, Remove(cs, ids[0]), ids[1..]);
    }
  }

  lemma HonoredRecords(ends: Ends, p: Pair, m: TopUp, elsewhere: u64, now: Millis)
    requires Wired(ends, p) && Matched(p.payer.buyer, p.provider.grant) && Sent(ends, p, m, now)
    requires Room(ends, p, elsewhere, m.reservedRate)
    ensures Decided(ends.buying, p.payer, now).Some?
    ensures var d, s := Decided(ends.buying, p.payer, now).value, Answered(ends, p.provider, m, elsewhere, now).s;
      && s.grant == Purchases.Honor(p.provider.grant.TopupChecked(now), d, now)
      && s.weight == p.provider.weight && s.meter == p.provider.meter && s.policy == p.provider.policy
      && Distinct(s.grant.channels) && Gated(s, now)
    ensures var answered := Answered(ends, p.provider, m, elsewhere, now); Said(answered.out, ends.payer) == [BalanceOf(answered.s, now)]
  {
    hide Evaluate, Honor, Refresh, Grant.Apply, Decided, Distinct, Matched, Room, ExhaustedIds, Sent, BalanceOf, Said;
    SentIsDecided(ends, p, m, now);
    SentIsJudged(ends, p, m, elsewhere, now);
    var d, checked := Decided(ends.buying, p.payer, now).value, Checked(Bare(p.provider.(lastSeen := now)), now);
    assert Judged(ends.selling, checked, m, elsewhere) == Judged(ends.selling, Checked(Bare(p.provider), now), m, elsewhere);
    var honored := Honor(ends.payer, checked, m, d.Legs(), d.grant, now);
    HonorActions(ends.payer, checked, m, d.Legs(), d.grant, now);
    HonorAccounts(ends.payer, checked, m, d.Legs(), d.grant, now);
    var applied := checked.s.grant.Apply(d.Legs(), d.grant, m.windowMs, m.reservedRate, now);
    SettledAlike(ends.payer, applied.channels, ExhaustedIds(applied.channels));
    ShownAside(ends.selling, ends.payer, honored, now);
    var answer := HonorSays(ends.selling, ends.payer, checked, m, d.Legs(), d.grant, now);
    SaidNone(ends.payer);
  }

  lemma SaidNone(peer: PubKey)
    ensures Said([], peer) == []
  {
  }

  /** Showing a session its access and speed leaves it gated, and touches nothing else. */
  lemma ShownAside(cfg: Config, peer: PubKey, t: Turn, now: Millis)
    ensures var s := Refresh(cfg, peer, t, now).s;
      && s == t.s.(access := s.access, budgetLive := s.budgetLive, appliedRate := s.appliedRate)
      && (!t.s.policy.noCharge ==> Gated(s, now))
  {
    hide RateOf;
  }

  /** The time of the last check is no part of what a purchase counts. */
  lemma HonoredCounts(l: Link, d: Purchase, now: Millis)
    ensures var g := Purchases.Honor(l.g.TopupChecked(now), d, now);
      && SameCounts(Link(l.b, l.g.Apply(d.Legs(), d.grant, d.windowMs, d.reservedRate, now)), Link(l.b, g))
      && g.lastTopup == Some(now)
  {
    hide TurnRatchets, Second.Close, Purchases.SettleAll, ExhaustedIds;
  }

  lemma RecordAside(b: Buyer, d: Purchase, now: Millis)
    ensures var b' := b.Record(d, now).0; b'.pending == b.pending && b'.lastTopup == Some(now)
  {
    hide Second.Close;
  }

  /** A purchase sent and honored is one step of the link. */
  lemma BothTrade(ends: Ends, p: Pair, m: TopUp, elsewhere: u64, now: Millis)
    requires Wired(ends, p) && Matched(p.payer.buyer, p.provider.grant) && Sent(ends, p, m, now)
    requires Room(ends, p, elsewhere, m.reservedRate)
    ensures var d, b := Decided(ends.buying, p.payer, now).value, Retired(ends.buying, p.payer.buyer, now);
      Follows(ends, Lockstep.Next(Link(b, p.provider.grant), Timed(Bought(d), now)), Exchanged(ends, p, At(Buys(m, elsewhere), now)), now)
  {
    hide Polled, Answered, Poll, DemandOf, Buyer.Record, Grant.Apply, Gated, Room, Purchases.Inv, Purchases.Mirror, Purchases.Honor, Distinct,
      Buyer.RetireExpiring, Sent, Said, BalanceOf;
    SentIsDecided(ends, p, m, now);
    var demand, b, g := DemandOf(p.payer, p.payer.offer.value.terms), Retired(ends.buying, p.payer.buyer, now), p.provider.grant.TopupChecked(now);
    var d := Decided(ends.buying, p.payer, now).value;
    PolledRecords(ends, p, now);
    HonoredRecords(ends, p, m, elsewhere, now);
    HonoredCounts(Link(b, p.provider.grant), d, now);
    RetiredMatches(ends, p.Records(), now);
    MirrorReadsChannels(b, p.provider.grant, g);
    Purchases.PollSigns(b, ends.buying.buying, demand, now);
    Purchases.HonoredPurchaseKeepsMirror(b, g, d, now);
    Purchases.RecordKeepsInv(b, d, now);
    RecordAside(b, d, now);
  }

  lemma MirrorReadsChannels(b: Buyer, g: Grant, g': Grant)
    requires Purchases.Mirror(b, g) && g'.channels == g.channels
    ensures Purchases.Mirror(b, g')
  {
  }

  // ------------------------------------------------------------------------
  // Readings
  // ------------------------------------------------------------------------

  /** The same counters give both ends the same units to draw. */
  lemma SameUnits(p: Pair, counters: Counters)
    requires p.payer.meter == OtherWay(p.provider.meter)
    ensures counters.Swapped().DeltaSince(p.payer.meter).Swapped() == counters.DeltaSince(p.provider.meter)
  {
  }

  function Units(s: PeerSession, counters: Counters): u64 {
    counters.DeltaSince(s.meter).Weighted(s.weight)
  }

  lemma ReadRecords(ends: Ends, p: Pair, r: Read, carried: bool)
    requires Wired(ends, p)
    ensures var q, moved := ReadOnce(ends, p, r, carried), Units(p.provider, r.counters);
      && q.payer.buyer == p.payer.buyer.Draw(moved, r.now)
      && q.provider.grant == (if carried && p.provider.access == Active then p.provider.grant.Draw(moved, r.now) else p.provider.grant.Pause())
      && q.provider.grant.channels == p.provider.grant.channels && q.provider.grant.lastTopup == p.provider.grant.lastTopup
      && Wired(ends, q) && Gated(q.provider, r.now) && q.provider.weight == p.provider.weight && q.provider.meter == r.counters
  {
    hide Refresh, Grant.Draw, Grant.Pause, Buyer.Draw, Counters.Weighted, RateFrom, Counters.DeltaSince, Distinct, Gated, Purchases.SameTerms;
    SameUnits(p, r.counters);
    var payer := Sessions.OnMetered(p.payer, OtherWay(r.counters), r.carriedBack, r.now);
    var provider := Sessions.OnMetered(p.provider, r.counters, carried, r.now);
    ShownAside(ends.buying, ends.provider, Bare(payer), r.now);
    ShownAside(ends.selling, ends.payer, Bare(provider), r.now);
    DrawAside(p.provider.grant, Units(p.provider, r.counters), r.now);
  }

  lemma DrawAside(g: Grant, moved: u64, now: Millis)
    ensures g.Draw(moved, now).channels == g.channels && g.Draw(moved, now).lastTopup == g.lastTopup
    ensures g.Pause().channels == g.channels && g.Pause().lastTopup == g.lastTopup
  {
    hide Second.Read, Second.Close;
  }

  lemma BuyerDrawAside(b: Buyer, moved: u64, now: Millis)
    ensures var b' := b.Draw(moved, now); b' == b.(remaining := b'.remaining, reserved := b'.reserved, second := b'.second)
  {
    hide Second.Read;
  }

  /** Both ends reading the same counters is one step of the link, a reading drawn or a pause. */
  lemma BothRead(ends: Ends, p: Pair, counters: Counters, carried: bool, carriedBack: bool, now: Millis)
    requires Wired(ends, p) && Matched(p.payer.buyer, p.provider.grant)
    ensures var moved := Units(p.provider, counters);
      var what := if carried && p.provider.access == Active then Lockstep.Metered(moved) else Uncarried(moved);
      Follows(ends, Lockstep.Next(p.Records(), Timed(what, now)), Exchanged(ends, p, At(Reads(counters, carried, carriedBack), now)), now)
  {
    hide ReadOnce, Wired, Gated, Grant.Draw, Grant.Pause, Buyer.Draw, Purchases.Inv;
    ReadRecords(ends, p, Read(counters, carriedBack, now), carried);
    BuyerDrawAside(p.payer.buyer, Units(p.provider, counters), now);
    DrawsKeepMatched(p.payer.buyer, p.provider.grant, p.payer.buyer.Draw(Units(p.provider, counters), now),
                     ReadOnce(ends, p, Read(counters, carriedBack, now), carried).provider.grant);
  }

  lemma DrawsKeepMatched(b: Buyer, g: Grant, b': Buyer, g': Grant)
    requires Matched(b, g) && b' == b.(remaining := b'.remaining, reserved := b'.reserved, second := b'.second)
    requires g'.channels == g.channels && g'.lastTopup == g.lastTopup
    ensures Matched(b', g')
  {
  }

  /** The readings of a link, in the units its provider draws. */
  function Readings(s: PeerSession, seen: seq<Read>): seq<Reading>
    decreases |seen|
  {
    if seen == [] then []
    else [Reading(Units(s, seen[0].counters), seen[0].now)] + Readings(s.(meter := seen[0].counters), seen[1..])
  }

  lemma {:induction false} ReadAllDraws(ends: Ends, p: Pair, seen: seq<Read>)
    requires Wired(ends, p) && p.provider.access == Active && p.provider.grant.channels != []
    ensures var q, rs := ReadAll(ends, p, seen), Readings(p.provider, seen);
      && q.payer.buyer == BuyerDraws(p.payer.buyer, rs) && q.provider.grant == GrantProperties.Draws(p.provider.grant, rs)
      && q.provider.grant.channels == p.provider.grant.channels && q.provider.grant.lastTopup == p.provider.grant.lastTopup
      && Wired(ends, q) && q.provider.access == Active
    decreases |seen|
  {
    hide Wired, ReadOnce, Grant.Draw, Buyer.Draw, Units;
    if seen != [] {
      ReadRecords(ends, p, seen[0], true);
      var q := ReadOnce(ends, p, seen[0], true);
      assert Gated(q.provider, seen[0].now);
      SameReadings(q.provider, p.provider.(meter := seen[0].counters), seen[1..]);
      ReadAllDraws(ends, q, seen[1..]);
      assert Readings(p.provider, seen)[1..] == Readings(p.provider.(meter := seen[0].counters), seen[1..]);
    }
  }

  lemma {:induction false} SameReadings(s: PeerSession, s': PeerSession, seen: seq<Read>)
    requires s.meter == s'.meter && s.weight == s'.weight
    ensures Readings(s, seen) == Readings(s', seen)
    decreases |seen|
  {
    hide Counters.Weighted, Counters.DeltaSince;
    if seen != [] {
      SameReadings(s.(meter := seen[0].counters), s'.(meter := seen[0].counters), seen[1..]);
    }
  }

  // ------------------------------------------------------------------------
  // A refusal
  // ------------------------------------------------------------------------

  lemma RefusedRecords(ends: Ends, p: Pair, m: TopUp, elsewhere: u64, now: Millis) returns (r: TopUpReject)
    requires Wired(ends, p) && Gated(p.provider, now) && Matched(p.payer.buyer, p.provider.grant) && Sent(ends, p, m, now)
    requires !Room(ends, p, elsewhere, m.reservedRate)
    ensures var s := Answered(ends, p.provider, m, elsewhere, now).s;
      && s.grant == p.provider.grant.TopupChecked(now) && s.access == Active && s.grant.channels != []
      && s.weight == p.provider.weight && s.meter == p.provider.meter && s.policy == p.provider.policy
    ensures var said := Said(Answered(ends, p.provider, m, elsewhere, now).out, ends.payer);
      said != [] && said[0] == MTopUpReject(r) && RefusesFor(r, m, Admission(ends.selling.node.grants, elsewhere), RateExceedsCapacity)
  {
    SentIsJudged(ends, p, m, elsewhere, now);
    PaysOnAChannel(ends, p, m, now);
    hide Evaluate, Decided, Distinct, Matched, Room, Wired, Purchases.Carries, Purchases.SameTerms, RateOf, Said, Sent, RefusesFor, BalanceOf;
    var heard := Bare(p.provider.(lastSeen := now));
    assert Judged(ends.selling, Checked(heard, now), m, elsewhere) == Judged(ends.selling, Checked(Bare(p.provider), now), m, elsewhere);
    var answer, rest := Conversations.EveryTopUpIsAnswered(ends.selling, ends.payer, heard, m, elsewhere, now);
    SaidNone(ends.payer);
    r := answer.topupReject;
    ShownAside(ends.selling, ends.payer, Checked(heard, now).Does(Send(ends.payer, MTopUpReject(TopUpReject(RefusedUpdates(m.updates),
      Admission(ends.selling.node.grants, elsewhere).RateAvailable(), RateExceedsCapacity)))), now);
  }

  lemma PaysOnAChannel(ends: Ends, p: Pair, m: TopUp, now: Millis)
    requires Wired(ends, p) && Matched(p.payer.buyer, p.provider.grant) && Sent(ends, p, m, now)
    ensures p.provider.grant.channels != [] && Decided(ends.buying, p.payer, now).Some?
    ensures Purchases.WellSplit(Retired(ends.buying, p.payer.buyer, now), Decided(ends.buying, p.payer, now).value)
  {
    hide DemandOf, Poll, Buyer.RetireExpiring, PollBuyer;
    SentIsDecided(ends, p, m, now);
    RetiredMatches(ends, p.Records(), now);
    Purchases.PollSigns(Retired(ends.buying, p.payer.buyer, now), ends.buying.buying, DemandOf(p.payer, p.payer.offer.value.terms), now);
  }

  /** The readings of a payer, as events of its record. */
  function Drews(rs: seq<Reading>): seq<(Purchases.Event, Millis)>
    decreases |rs|
  {
    if rs == [] then [] else [(Purchases.Drew(rs[0].moved), rs[0].now)] + Drews(rs[1..])
  }

  lemma {:induction false} DrawsAreEvents(b: Buyer, rs: seq<Reading>)
    ensures Purchases.AllQuiet(Drews(rs)) && Purchases.Run(b, Drews(rs)) == BuyerDraws(b, rs)
    ensures BuyerDraws(b, rs).pending == b.pending && BuyerDraws(b, rs).lastTopup == b.lastTopup
    decreases |rs|
  {
    hide Buyer.Draw;
    if rs != [] {
      BuyerDrawAside(b, rs[0].moved, rs[0].now);
      DrawsAreEvents(b.Draw(rs[0].moved, rs[0].now), rs[1..]);
      assert Drews(rs)[1..] == Drews(rs[1..]);
    }
  }

  /** The refusal names the totals of the purchase, which the payer takes back if it did not fill its channel exactly. */
  lemma TakenBack(b: Buyer, d: Purchase, m: TopUp, admission: Admission, r: TopUpReject, at: Millis, rs: seq<Reading>, now: Millis, holdMs: u64)
    requires Purchases.Inv(b) && b.pending.None? && Purchases.WellSplit(b, d) && Purchases.Carries(m.updates, d) && !Purchases.FillsExactly(b, d)
    requires RefusesFor(r, m, admission, RateExceedsCapacity)
    ensures var read := BuyerDraws(b.Record(d, at).0, rs);
      var b' := read.RecordReject(ToRefused(r.refused), r.reason, r.maxReservedRate, now, holdMs);
      && b'.active == b.active && b'.next == b.next && b'.prior.None? && b'.pending.None? && b'.lastTopup == Some(at)
      && b'.remaining == read.Rewind().remaining && b'.deadline == read.Rewind().deadline && b'.reserved == read.Rewind().reserved
      && b'.second == read.Rewind().second
  {
    var recorded := b.Record(d, at).0;
    RefusedNames(r, m, admission, d);
    DrawsAreEvents(recorded, rs);
    DrawsRemember(recorded, rs);
    RecordRemembers(b, d, at);
    RecordAside(b, d, at);
    hide Purchases.Inv, Purchases.WellSplit, Buyer.Record, BuyerDraws, Purchases.Run, RefusesFor;
    Purchases.RefusalIsUndoneIff(b, d, at, Drews(rs), r.reason, r.maxReservedRate, now, holdMs);
  }

  lemma RefusedNames(r: TopUpReject, m: TopUp, admission: Admission, d: Purchase)
    requires RefusesFor(r, m, admission, RateExceedsCapacity) && Purchases.Carries(m.updates, d)
    ensures ToRefused(r.refused) == d.Legs()
  {
    GrantProperties.ToRatchetsReads(m.updates);
  }

  /** A purchase refused for its rate and taken back after any readings is one step of the link. */
  lemma BothRefuse(ends: Ends, p: Pair, m: TopUp, elsewhere: u64, at: Millis, seen: seq<Read>, now: Millis)
    requires Wired(ends, p) && Gated(p.provider, at) && Matched(p.payer.buyer, p.provider.grant) && Sent(ends, p, m, at)
    requires !Room(ends, p, elsewhere, m.reservedRate)
    requires !Purchases.FillsExactly(Retired(ends.buying, p.payer.buyer, at), Decided(ends.buying, p.payer, at).value)
    ensures var d, b := Decided(ends.buying, p.payer, at).value, Retired(ends.buying, p.payer.buyer, at);
      Follows(ends, Lockstep.Next(Link(b, p.provider.grant), Timed(Refused(d, at, Readings(p.provider, seen)), now)),
              Exchanged(ends, p, At(Refuses(m, elsewhere, at, seen), now)), now)
  {
    hide Polled, Answered, Poll, DemandOf, Buyer.Record, Buyer.Rewind, Buyer.RecordReject, BuyerDraws, Purchases.Inv, Purchases.Mirror,
      Purchases.SameTerms, Purchases.WellSplit, Purchases.FillsExactly, Purchases.Carries, Distinct, Buyer.RetireExpiring, Room, Readings, ReadAll,
      GrantProperties.Draws, Sent, Said, RefusesFor;
    SentIsDecided(ends, p, m, at);
    var d, b, rs := Decided(ends.buying, p.payer, at).value, Retired(ends.buying, p.payer.buyer, at), Readings(p.provider, seen);
    PolledRecords(ends, p, at);
    var r := RefusedRecords(ends, p, m, elsewhere, at);
    PaysOnAChannel(ends, p, m, at);
    RetiredMatches(ends, p.Records(), at);
    var q := Pair(Polled(ends, p.payer, at), Answered(ends, p.provider, m, elsewhere, at).s);
    assert Wired(ends, q);
    SameReadings(q.provider, p.provider, seen);
    ReadAllDraws(ends, q, seen);
    var read := ReadAll(ends, q, seen);
    DrawsIgnoreChecks(p.provider.grant, at, rs);
    TakenBack(b, d, m, Admission(ends.selling.node.grants, elsewhere), r, at, rs, now, ends.buying.buying.capHoldMs);
    var b' := Took(read.payer, MTopUpReject(r), ends.buying.buying.capHoldMs, now).buyer;
    RestoredMatches(b, p.provider.grant, b', read.provider.grant);
  }

  lemma RestoredMatches(b: Buyer, g: Grant, b': Buyer, g': Grant)
    requires Matched(b, g) && b'.active == b.active && b'.next == b.next && b'.prior.None? && b'.pending.None?
    requires g'.channels == g.channels && b'.lastTopup.Some? && g'.lastTopup == b'.lastTopup
    ensures Matched(b', g')
  {
  }

  lemma {:induction false} DrawsIgnoreChecks(g: Grant, at: Millis, rs: seq<Reading>)
    ensures GrantProperties.Draws(g.TopupChecked(at), rs) == GrantProperties.Draws(g, rs).(lastTopup := Some(at))
    decreases |rs|
  {
    if rs != [] {
      DrawIgnoresCheck(g, at, rs[0]);
      DrawsIgnoreChecks(g.Draw(rs[0].moved, rs[0].now), at, rs[1..]);
    }
  }

  lemma DrawIgnoresCheck(g: Grant, at: Millis, r: Reading)
    ensures g.TopupChecked(at).Draw(r.moved, r.now) == g.Draw(r.moved, r.now).TopupChecked(at)
  {
    hide Second.Read;
  }

  // ------------------------------------------------------------------------
  // Channels opened and settled
  // ------------------------------------------------------------------------

  /** The payer still buys on a channel. */
  predicate BuysOn(b: Buyer, id: ChannelId) {
    (b.active.Some? && b.active.value.id == id && !b.active.value.Exhausted()) || (b.next.Some? && b.next.value.id == id)
  }

  /** Nothing that would be settled as expiring is a channel the payer still buys on. */
  ghost predicate Spares(b: Buyer, cs: seq<IncomingChannel>, now: Millis, leadMs: u64) {
    forall c :: c in cs && c.Expiring(now, leadMs) ==> !BuysOn(b, c.id)
  }

  lemma {:induction false} ExpiringAreHeld(cs: seq<IncomingChannel>, now: Millis, leadMs: u64, id: ChannelId)
    requires id in ExpiringIds(cs, now, leadMs)
    ensures exists c :: c in cs && c.id == id && c.Expiring(now, leadMs)
  {
    if !(cs[0].Expiring(now, leadMs) && cs[0].id == id) {
      ExpiringAreHeld(cs[1..], now, leadMs, id);
      var c :| c in cs[1..] && c.id == id && c.Expiring(now, leadMs);
      assert c in cs;
    }
  }

  /** Settling what expires leaves the payer's channels mirrored. */
  lemma SettlingSpares(peer: PubKey, b: Buyer, g: Grant, g': Grant, now: Millis, leadMs: u64)
    requires Purchases.Inv(b) && Purchases.Mirror(b, g) && Distinct(g.channels) && Spares(b, g.channels, now, leadMs)
    requires g'.channels == SettleEach(peer, g.channels, ExpiringIds(g.channels, now, leadMs)).0
    ensures Purchases.Mirror(b, g') && Distinct(g'.channels)
  {
    var cs, ids := g.channels, ExpiringIds(g.channels, now, leadMs);
    SettledAlike(peer, cs, ids);
    SettleEachAccounts(peer, cs, ids);
    hide SettleEach, ExpiringIds, Purchases.SettleAll, Find;
    if b.active.Some? && !b.active.value.Exhausted() {
      SparedReads(cs, ids, b.active.value.id, b, now, leadMs);
    }
    if b.next.Some? {
      SparedReads(cs, ids, b.next.value.id, b, now, leadMs);
    }
  }

  lemma SparedReads(cs: seq<IncomingChannel>, ids: seq<ChannelId>, id: ChannelId, b: Buyer, now: Millis, leadMs: u64)
    requires Distinct(cs) && ids == ExpiringIds(cs, now, leadMs) && BuysOn(b, id) && Spares(b, cs, now, leadMs)
    ensures Find(Purchases.SettleAll(cs, ids), id) == Find(cs, id)
  {
    if id in ids {
      ExpiringAreHeld(cs, now, leadMs, id);
      assert false;
    }
    Purchases.SettlingLeavesOthers(cs, ids, id);
  }

  lemma TickedRecords(cfg: Config, peer: PubKey, t: Turn, now: Millis)
    ensures var s := OnTick(cfg, peer, t, now).s;
      && s.grant == t.s.grant.ExpireIfDue(now).(channels := s.grant.channels)
      && s.grant.channels == SettleEach(peer, t.s.grant.channels, ExpiringIds(t.s.grant.channels, now, cfg.node.SettleLeadMs())).0
      && s.weight == t.s.weight && s.meter == t.s.meter && s.policy == t.s.policy
      && (!t.s.policy.noCharge ==> Gated(s, now))
  {
    hide SettleEach, ExpiringIds, Refresh, PollBuyer, PollRollover, PollOpening, Gated;
    var settled := SettleExpiring(cfg, peer, t.(s := t.s.(grant := t.s.grant.ExpireIfDue(now))), now);
    var shown := Refresh(cfg, peer, settled, now);
    ShownAside(cfg, peer, settled, now);
    PollsAside(cfg, peer, shown, now);
    PollsAside(cfg, peer, PollBuyer(cfg, peer, shown, now), now);
    PollsAside(cfg, peer, PollRollover(cfg, peer, PollBuyer(cfg, peer, shown, now), now), now);
    GateReadsGrant(shown.s, OnTick(cfg, peer, t, now).s, now);
  }

  lemma GateReadsGrant(s: PeerSession, s': PeerSession, now: Millis)
    requires s'.grant == s.grant && s'.access == s.access
    ensures Gated(s', now) <==> Gated(s, now)
  {
  }

  lemma PollsAside(cfg: Config, peer: PubKey, t: Turn, now: Millis)
    ensures PollBuyer(cfg, peer, t, now).s == t.s.(buyer := PollBuyer(cfg, peer, t, now).s.buyer)
    ensures PollRollover(cfg, peer, t, now).s == t.s.(buyer := PollRollover(cfg, peer, t, now).s.buyer)
    ensures PollOpening(cfg, peer, t, now).s == t.s.(buyer := PollOpening(cfg, peer, t, now).s.buyer)
  {
    hide Poll, Buyer.Record, Buyer.RetireExpiring, DemandOf, Buyer.RolloverDue, NodePolicy.GrownCapacity;
  }

  /** A provider's tick is one step of the link. */
  lemma ProviderTicks(ends: Ends, p: Pair, now: Millis)
    requires Wired(ends, p) && Matched(p.payer.buyer, p.provider.grant)
    requires Spares(p.payer.buyer, p.provider.grant.channels, now, ends.selling.node.SettleLeadMs())
    ensures Follows(ends, Lockstep.Next(p.Records(), Timed(Ticked, now)), Exchanged(ends, p, At(Expires, now)), now)
  {
    hide OnTick, Distinct, Gated, SettleEach, ExpiringIds, Spares, Purchases.Inv, Purchases.Mirror, Purchases.SameTerms;
    TickedRecords(ends.selling, ends.payer, Bare(p.provider), now);
    SettlingSpares(ends.payer, p.payer.buyer, p.provider.grant, OnTick(ends.selling, ends.payer, Bare(p.provider), now).s.grant, now,
                   ends.selling.node.SettleLeadMs());
  }

  lemma AnnouncedRecords(ends: Ends, p: Pair, id: ChannelId, capacity: u64, expiresAt: Option<Millis>, funding: Bytes, now: Millis)
    ensures var s := Announced(ends, p.payer, id, capacity, expiresAt, funding, now).s;
      && s.buyer == p.payer.buyer.FundedWith(id, capacity, expiresAt)
      && s.offer == p.payer.offer && s.refusedTerms == p.payer.refusedTerms && s.meter == p.payer.meter
    ensures Said(Announced(ends, p.payer, id, capacity, expiresAt, funding, now).out, ends.provider) ==
      [if p.payer.buyer.active.Some? then MRolloverInit(p.payer.buyer.active.value.id, funding) else MAccept(funding)] + Gone(p.payer, now)
  {
    hide Refresh, Gone, Said;
    var b := p.payer.buyer.FundedWith(id, capacity, expiresAt);
    OutgoingFundedSays(ends.buying, ends.provider, Bare(p.payer), id, capacity, expiresAt, funding, now);
    SaidNone(ends.provider);
    ShownAside(ends.buying, ends.provider,
               Bare(p.payer.(buyer := b)).Does(Send(ends.provider, if b.active.Some? then MRolloverInit(b.active.value.id, funding) else MAccept(funding))), now);
  }

  /** Only this funding is asked to be verified. */
  ghost predicate AsksFor(out: seq<Action>, peer: PubKey, funding: Bytes) {
    VerifyFunding(peer, funding) in out && forall a :: a in out && a.VerifyFunding? ==> a == VerifyFunding(peer, funding)
  }

  lemma FundingHeard(cfg: Config, peer: PubKey, s: PeerSession, msg: Message, funding: Bytes, now: Millis)
    requires Distinct(s.grant.channels) && funding != [] && (msg == MAccept(funding) || (msg.MRolloverInit? && msg.funding == funding))
    ensures var t := OnMessage(cfg, peer, Bare(s), msg, 0, now);
      && t.s == s.(lastSeen := now, grant := s.grant.(channels := if msg.MAccept? then [] else s.grant.channels))
      && AsksFor(t.out, peer, funding) && Said(t.out, peer) == []
  {
    hide SettleEach, Ids, Said;
    var heard := Bare(s.(lastSeen := now));
    NothingSaid([VerifyFunding(peer, funding)], peer);
    if msg.MAccept? {
      DiscardedRecords(peer, heard, now);
      FundingAfter(peer, SettleEach(peer, heard.s.grant.channels, Ids(heard.s.grant.channels)).1, funding) by {
        SettlingSaysNothing(peer, heard.s.grant.channels, Ids(heard.s.grant.channels));
      }
      assert [] + SettleEach(peer, heard.s.grant.channels, Ids(heard.s.grant.channels)).1
        == SettleEach(peer, heard.s.grant.channels, Ids(heard.s.grant.channels)).1;
    } else {
      assert [] + [VerifyFunding(peer, funding)] == [VerifyFunding(peer, funding)];
    }
  }

  lemma FundingAfter(peer: PubKey, settled: seq<Action>, funding: Bytes)
    requires forall a :: a in settled ==> a.SettleChannel?
    ensures AsksFor(settled + [VerifyFunding(peer, funding)], peer, funding) && Said(settled + [VerifyFunding(peer, funding)], peer) == []
  {
    NothingSaid(settled + [VerifyFunding(peer, funding)], peer);
  }

  /** What a provider is told is left of a budget of its own concerns only that. */
  lemma BalanceHeard(cfg: Config, peer: PubKey, t: Turn, s: PeerSession, now: Millis)
    ensures var u := HearAll(cfg, peer, t, Gone(s, now), now);
      && u.out == t.out && u.s.grant == t.s.grant && u.s.weight == t.s.weight && u.s.meter == t.s.meter && u.s.policy == t.s.policy
      && u.s.access == t.s.access
  {
    if Gone(s, now) != [] {
      assert Gone(s, now)[1..] == [];
      assert HearAll(cfg, peer, t, Gone(s, now), now) == OnMessage(cfg, peer, t, Gone(s, now)[0], 0, now);
    }
  }

  lemma OpenedRecords(ends: Ends, p: Pair, id: ChannelId, capacity: u64, expiresAt: Option<Millis>, funding: Bytes, now: Millis) returns (reply: Message)
    requires Wired(ends, p) && funding != [] && Find(p.provider.grant.channels, id).None?
    ensures var heard := HeardOf(ends, p, id, capacity, expiresAt, funding, now); AsksFor(heard.out, ends.payer, funding)
    ensures var s := Verified(ends, p, id, capacity, expiresAt, funding, now).s;
      && s.grant == p.provider.grant.(channels := (if p.payer.buyer.active.Some? then p.provider.grant.channels else [])
                                        + [IncomingChannel(id, capacity, 0, 0, expiresAt)])
      && s.weight == p.provider.weight && s.meter == p.provider.meter && s.policy == p.provider.policy
      && Gated(s, now)
    ensures var said := Said(Verified(ends, p, id, capacity, expiresAt, funding, now).out, ends.payer);
      said != [] && said[0] == reply && (reply == MChannelReady(id) || (reply.MRolloverReady? && reply.newChannelId == id))
  {
    hide Refresh, Gated, Distinct, Purchases.SameTerms, FirstBesides, OnMessage, Said, Gone, Announced;
    AnnouncedRecords(ends, p, id, capacity, expiresAt, funding, now);
    var msg := if p.payer.buyer.active.Some? then MRolloverInit(p.payer.buyer.active.value.id, funding) else MAccept(funding);
    FundingHeard(ends.selling, ends.payer, p.provider, msg, funding, now);
    var first := OnMessage(ends.selling, ends.payer, Bare(p.provider), msg, 0, now);
    HearAllMore(ends.selling, ends.payer, Bare(p.provider), [msg], Gone(p.payer, now), now);
    HeardOne(ends.selling, ends.payer, Bare(p.provider), msg, now);
    BalanceHeard(ends.selling, ends.payer, first, p.payer, now);
    var asked := HeardOf(ends, p, id, capacity, expiresAt, funding, now);
    var rest;
    reply, rest := IncomingVerifiedSays(ends.selling, ends.payer, asked, id, capacity, expiresAt, now);
    EveryOneOrAnother(asked.s.grant.channels, id);
    var replacing := FirstBesides(asked.s.grant.channels, id);
    var taken := asked.(s := asked.s.(grant := asked.s.grant.OpenChannel(id, capacity, expiresAt), phase := Established))
      .Does(Send(ends.payer, if replacing.Some? then MRolloverReady(replacing.value, id) else MChannelReady(id)));
    ShownAside(ends.selling, ends.payer, taken, now);
  }

  lemma EveryOneOrAnother(cs: seq<IncomingChannel>, id: ChannelId)
    ensures (forall c :: c in cs ==> c.id == id) || (exists c :: c in cs && c.id != id)
  {
  }

  lemma HeardOne(cfg: Config, peer: PubKey, t: Turn, msg: Message, now: Millis)
    ensures HearAll(cfg, peer, t, [msg], now) == OnMessage(cfg, peer, t, msg, 0, now)
  {
    hide OnMessage;
    assert [msg][1..] == [];
    assert HearAll(cfg, peer, OnMessage(cfg, peer, t, msg, 0, now), [], now) == OnMessage(cfg, peer, t, msg, 0, now);
  }

  lemma DiscardedRecords(peer: PubKey, t: Turn, now: Millis)
    requires Distinct(t.s.grant.channels)
    ensures Discard(peer, t).s == t.s.(grant := t.s.grant.(channels := []))
  {
    DiscardIsOrdinary(peer, t, now);
    hide SettleEach, Ids;
  }

  lemma DistinctAppends(cs: seq<IncomingChannel>, c: IncomingChannel)
    requires Distinct(cs) && Find(cs, c.id).None?
    ensures Distinct(cs + [c])
  {
  }

  lemma ConfirmedMatches(b: Buyer, g: Grant, g': Grant, id: ChannelId, capacity: u64, expiresAt: Option<Millis>)
    requires Matched(b, g) && capacity > 0 && Find(g.channels, id).None?
    requires g' == g.(channels := (if b.active.Some? then g.channels else []) + [IncomingChannel(id, capacity, 0, 0, expiresAt)])
    ensures Matched(b.FundedWith(id, capacity, expiresAt).Confirmed(id), g')
  {
    var base := if b.active.Some? then g.channels else [];
    var c := IncomingChannel(id, capacity, 0, 0, expiresAt);
    hide Find;
    AppendReads(base, c, id);
    if b.active.Some? {
      AppendReads(base, c, b.active.value.id);
    }
  }

  /**
    A channel opened between the two, each hearing what the other says: the provider is asked to verify that
    funding and no other, the payer's channel in use goes on being its own and the provider's, and their
    counts are left as they were.
   */
  lemma BothOpen(ends: Ends, p: Pair, id: ChannelId, capacity: u64, expiresAt: Option<Millis>, funding: Bytes, now: Millis)
    requires Wired(ends, p) && Matched(p.payer.buyer, p.provider.grant)
    requires funding != [] && capacity > 0 && Find(p.provider.grant.channels, id).None? && !p.payer.buyer.IsActive(id)
    ensures AsksFor(HeardOf(ends, p, id, capacity, expiresAt, funding, now).out, ends.payer, funding)
    ensures var next, used := Exchanged(ends, p, At(Opens(id, capacity, expiresAt, funding), now)), p.payer.buyer.active;
      && Follows(ends, p.Records(), next, now)
      && Find(next.provider.grant.channels, id) == Some(IncomingChannel(id, capacity, 0, 0, expiresAt))
      && (used.Some? && !used.value.Exhausted() ==>
            next.payer.buyer.active == used && Find(next.provider.grant.channels, used.value.id) == Find(p.provider.grant.channels, used.value.id))
  {
    hide Announced, Verified, HeardOf, Find, Gated, Distinct, Purchases.SameTerms, Said, AsksFor;
    AnnouncedRecords(ends, p, id, capacity, expiresAt, funding, now);
    var reply := OpenedRecords(ends, p, id, capacity, expiresAt, funding, now);
    var c, base := IncomingChannel(id, capacity, 0, 0, expiresAt), if p.payer.buyer.active.Some? then p.provider.grant.channels else [];
    ConfirmedMatches(p.payer.buyer, p.provider.grant, Verified(ends, p, id, capacity, expiresAt, funding, now).s.grant, id, capacity, expiresAt);
    DistinctAppends(p.provider.grant.channels, c);
    DistinctAppends([], c);
    AppendReads(base, c, id);
    if p.payer.buyer.active.Some? {
      AppendReads(base, c, p.payer.buyer.active.value.id);
    }
    hide Matched;
  }

  // ------------------------------------------------------------------------
  // A new connection
  // ------------------------------------------------------------------------

  /** What a session is carried on with. */
  lemma BackRecords(cfg: Config, peer: PubKey, policy: PeerPolicy, s: PeerSession, now: Millis)
    ensures var back, cs := Back(cfg, peer, policy, s, now).s, ClearFailures(s.grant.channels);
      && back.buyer == s.buyer.Restart() && back.offer.None? && !back.refusedTerms && back.meter == Counters(0, 0)
      && back.grant == s.grant.Restart(now).(channels := SettleEach(peer, cs, ExpiringIds(cs, now, cfg.node.SettleLeadMs())).0)
      && back.weight == policy.Weight(cfg.node) && back.policy == policy
      && (!policy.noCharge ==> Gated(back, now))
  {
    hide SettleEach, ExpiringIds, Refresh, Gated, Buyer.Restart, Grant.Restart, Nodes.Readies;
    GrantProperties.RestartChannels(s.grant, now);
    var t := Nodes.Begin(cfg, peer, policy, Some(s), None, now, 0);
    var announced := t.DoAll([SetAccess(peer, AccessLevel.Nothing), Send(peer, MAnnounce(Announce(PROTOCOL_VERSION, cfg.local, cfg.node.unit, 0)))]
                             + Nodes.Readies(peer, Ids(t.s.grant.channels)));
    var offered := SendOffer(peer, announced, OfferFor(cfg, policy, policy.Weight(cfg.node)));
    var told := if policy.noCharge then offered
      else offered.(s := offered.s.(budgetLive := offered.s.grant.IsLive(now))).Does(Send(peer, BalanceOf(offered.s, now)));
    ShownAside(cfg, peer, told, now);
  }

  lemma {:induction false} BeforeOfferReads(before: seq<Message>, offer: Offer, rest: seq<Message>)
    requires forall m :: m in before ==> !m.MOffer?
    ensures BeforeOffer(before + [MOffer(offer)] + rest) == before && OfferIn(before + [MOffer(offer)] + rest) == Some(offer)
    decreases |before|
  {
    var msgs := before + [MOffer(offer)] + rest;
    if before != [] {
      assert msgs[0] == before[0] && msgs[1..] == before[1..] + [MOffer(offer)] + rest;
      assert before[0] in before;
      BeforeOfferReads(before[1..], offer, rest);
    }
  }

  lemma BeginSays(cfg: Config, peer: PubKey, policy: PeerPolicy, s: PeerSession, now: Millis)
    ensures var t := Nodes.Begin(cfg, peer, policy, Some(s), None, now, 0);
      && t.s.policy == policy && Said(t.out, peer) == []
      && t.s.grant.channels == Back(cfg, peer, policy, s, now).s.grant.channels
  {
    hide SettleEach, ExpiringIds, Grant.Restart, Buyer.Restart, Said, Nodes.Greet;
    var resumed := Turn(s.Resume(policy, now), 0, []);
    SettleSays(peer, resumed, ExpiringIds(resumed.s.grant.channels, now, cfg.node.SettleLeadMs()));
    SaidNone(peer);
    GreetKeepsGrant(cfg, peer, policy, Nodes.Begin(cfg, peer, policy, Some(s), None, now, 0), now);
  }

  lemma GreetKeepsGrant(cfg: Config, peer: PubKey, policy: PeerPolicy, t: Turn, now: Millis)
    ensures Nodes.Greet(cfg, peer, policy, t, now).s.grant == t.s.grant
  {
    hide RateOf, BalanceOf, OfferFor, Nodes.Readies;
  }

  /** What a provider that comes back says: who it is, each channel it still holds, and its terms. */
  lemma GreetingReads(ends: Ends, p: Pair, selling: PeerPolicy, now: Millis)
    ensures var greeting, ids := Greeting(ends, p, selling, now), Ids(Back(ends.selling, ends.payer, selling, p.provider, now).s.grant.channels);
      && BeforeOffer(greeting) == [Announcement(ends.selling)] + ReadyMessages(ids)
      && OfferIn(greeting) == Some(OfferFor(ends.selling, selling, selling.Weight(ends.selling.node)))
  {
    hide Nodes.Begin, Nodes.Greet, Said, OfferFor, ReadyMessages, Ids, Announcement, BalanceOf, BeforeOffer, OfferIn;
    BeginSays(ends.selling, ends.payer, selling, p.provider, now);
    var begun := Nodes.Begin(ends.selling, ends.payer, selling, Some(p.provider), None, now, 0);
    var rest := GreetSays(ends.selling, ends.payer, selling, begun, now);
    var who, ids := [Announcement(ends.selling)], Ids(begun.s.grant.channels);
    AnnouncementIsNoOffer(ends.selling);
    ReadiesAreNoOffers(ids);
    var before := who + ReadyMessages(ids);
    assert forall m :: m in before ==> m == who[0] || m in ReadyMessages(ids);
    BeforeOfferReads(before, OfferFor(ends.selling, selling, selling.Weight(ends.selling.node)), rest);
    assert [] + who == who;
  }

  lemma AnnouncementIsNoOffer(cfg: Config)
    ensures Announcement(cfg).MAnnounce?
  {
  }

  lemma ReadiesAreNoOffers(ids: seq<ChannelId>)
    ensures forall m :: m in ReadyMessages(ids) ==> m.MChannelReady?
  {
  }

  lemma {:induction false} FoundIsNamed(cs: seq<IncomingChannel>, id: ChannelId)
    requires Find(cs, id).Some?
    ensures id in Ids(cs)
  {
    if cs[0].id != id {
      FoundIsNamed(cs[1..], id);
    }
  }

  /** Hearing the opening Offer of a session carried on with ends in a poll. */
  lemma OpeningOfferEndsInAPoll(ends: Ends, t: Turn, m: Offer, now: Millis)
    requires t.s.offer.None? && !t.s.refusedTerms && t.s.buyer.active.Some? && t.s.keptByPeer
    requires !m.noCharge && ends.buying.buying.AcceptsWeight(m.fromPayerWeight) && ends.buying.buying.Buying()
    ensures OnMessage(ends.buying, ends.provider, t, MOffer(m), 0, now) ==
      PollBuyer(ends.buying, ends.provider, CarriesOn(ends.buying, ends.provider, t, m, now), now)
  {
    hide Refresh, RequestFunding, PollBuyer;
  }

  lemma PollReadsTheSession(cfg: Config, peer: PubKey, t: Turn, now: Millis)
    ensures PollBuyer(cfg, peer, t, now).s == PollBuyer(cfg, peer, Bare(t.s), now).s
  {
    hide Poll, Buyer.Record, Buyer.RetireExpiring, DemandOf;
  }

  lemma ClearedMirror(b: Buyer, g: Grant, g': Grant)
    requires Purchases.Mirror(b, g) && Distinct(g.channels) && g'.channels == ClearFailures(g.channels)
    ensures Purchases.Mirror(b, g') && Distinct(g'.channels)
  {
    if b.active.Some? {
      GrantProperties.ClearedReads(g.channels, b.active.value.id);
    }
    if b.next.Some? {
      GrantProperties.ClearedReads(g.channels, b.next.value.id);
    }
    hide Find;
  }

  lemma ClearedSpares(b: Buyer, cs: seq<IncomingChannel>, now: Millis, leadMs: u64)
    requires Spares(b, cs, now, leadMs)
    ensures Spares(b, ClearFailures(cs), now, leadMs)
  {
    var cleared := ClearFailures(cs);
    forall c | c in cleared && c.Expiring(now, leadMs) ensures !BuysOn(b, c.id) {
      var i :| 0 <= i < |cleared| && cleared[i] == c;
      assert cs[i] in cs && cs[i].Expiring(now, leadMs);
    }
  }

  lemma RestartAside(b: Buyer)
    ensures var b' := b.Restart(); b'.active == b.active && b'.next == b.next && b'.pending == b.pending && b'.prior.None?
  {
    hide Second.Close;
  }

  lemma RestartUnchecked(g: Grant, now: Millis)
    ensures g.Restart(now).lastTopup.None?
  {
  }

  /** The provider's side of a reconnection, and that the payer's channel is among those it says it holds. */
  lemma ProviderBack(ends: Ends, p: Pair, selling: PeerPolicy, now: Millis)
    requires Distinct(p.provider.grant.channels) && Matched(p.payer.buyer, p.provider.grant) && !selling.noCharge
    requires Spares(p.payer.buyer, p.provider.grant.channels, now, ends.selling.node.SettleLeadMs())
    requires p.payer.buyer.active.Some? && !p.payer.buyer.active.value.Exhausted()
    ensures var s := Back(ends.selling, ends.payer, selling, p.provider, now).s;
      && s.grant == p.provider.grant.Restart(now).(channels := s.grant.channels)
      && Distinct(s.grant.channels) && Gated(s, now) && Matched(p.payer.buyer.Restart(), s.grant)
      && p.payer.buyer.active.value.id in Ids(s.grant.channels)
  {
    hide Back, Grant.Restart, Buyer.Restart, SettleEach, ExpiringIds, ClearFailures, Distinct, Gated, Spares, Find, Ids;
    var b, g, s := p.payer.buyer, p.provider.grant, Back(ends.selling, ends.payer, selling, p.provider, now).s;
    var cleared := g.(channels := ClearFailures(g.channels));
    BackRecords(ends.selling, ends.payer, selling, p.provider, now);
    RestartUnchecked(g, now);
    ClearedMirror(b, g, cleared);
    ClearedSpares(b, g.channels, now, ends.selling.node.SettleLeadMs());
    SettlingSpares(ends.payer, b, cleared, s.grant, now, ends.selling.node.SettleLeadMs());
    RestartAside(b);
    FoundIsNamed(s.grant.channels, b.active.value.id);
  }

  /** What the payer has heard when the provider's terms come. */
  lemma PayerHeard(ends: Ends, p: Pair, buying: PeerPolicy, selling: PeerPolicy, now: Millis)
    requires p.payer.buyer.pending.None? && p.payer.buyer.active.Some? && ends.buying.node.unit == ends.selling.node.unit
    requires p.payer.buyer.active.value.id in Ids(Back(ends.selling, ends.payer, selling, p.provider, now).s.grant.channels)
    ensures var heard := PayerBack(ends, p, buying, selling, now).s;
      && heard.buyer == p.payer.buyer.Restart() && heard.offer.None? && !heard.refusedTerms && heard.meter == Counters(0, 0) && heard.keptByPeer
      && heard.buyer.active.Some?
  {
    hide Back, Buyer.Restart, ReadyMessages, HearAll, Ids, Greeting;
    var back, ids := Back(ends.buying, ends.provider, buying, p.payer, now), Ids(Back(ends.selling, ends.payer, selling, p.provider, now).s.grant.channels);
    BackRecords(ends.buying, ends.provider, buying, p.payer, now);
    RestartAside(p.payer.buyer);
    GreetingReads(ends, p, selling, now);
    HearAllMore(ends.buying, ends.provider, back, [Announcement(ends.selling)], ReadyMessages(ids), now);
    AnnounceHeard(ends.buying, ends.provider, back, ends.selling, now);
    Conversations.HeardReadies(ends.buying, ends.provider, back.(s := back.s.(lastSeen := now)), ids, now);
  }

  /**
    A connection both carry on over, the payer's channel still held and each hearing what the other says, is
    one step of the link; and the provider's terms, once heard, end in a poll.
   */
  lemma BothComeBack(ends: Ends, p: Pair, buying: PeerPolicy, selling: PeerPolicy, now: Millis)
    requires Wired(ends, p) && Matched(p.payer.buyer, p.provider.grant) && !selling.noCharge && ends.buying.node.unit == ends.selling.node.unit
    requires Spares(p.payer.buyer, p.provider.grant.channels, now, ends.selling.node.SettleLeadMs())
    requires p.payer.buyer.active.Some? && !p.payer.buyer.active.value.Exhausted()
    requires ends.buying.buying.Buying() && ends.buying.buying.AcceptsWeight(selling.Weight(ends.selling.node))
    ensures OfferIn(Greeting(ends, p, selling, now)).Some?
    ensures OnMessage(ends.buying, ends.provider, PayerBack(ends, p, buying, selling, now), MOffer(OfferIn(Greeting(ends, p, selling, now)).value), 0, now).s ==
      Polled(ends, Exchanged(ends, p, At(Reconnects(buying, selling), now)).payer, now)
    ensures Follows(ends, Lockstep.Next(p.Records(), Timed(Reconnected, now)), Exchanged(ends, p, At(Reconnects(buying, selling), now)), now)
  {
    hide PollBuyer, OnMessage, Back, PayerBack, Greeting, Refresh, Grant.Restart, Buyer.Restart, SettleEach, ExpiringIds, ClearFailures, Distinct, Gated,
      Spares, Ids, Purchases.Inv, Purchases.Mirror, BeforeOffer, OfferIn, ReadyMessages;
    BackRecords(ends.selling, ends.payer, selling, p.provider, now);
    ProviderBack(ends, p, selling, now);
    RestartAside(p.payer.buyer);
    GreetingReads(ends, p, selling, now);
    PayerHeard(ends, p, buying, selling, now);
    var heard, offer := PayerBack(ends, p, buying, selling, now), OfferFor(ends.selling, selling, selling.Weight(ends.selling.node));
    OpeningOfferEndsInAPoll(ends, heard, offer, now);
    PollReadsTheSession(ends.buying, ends.provider, CarriesOn(ends.buying, ends.provider, heard, offer, now), now);
    var taken := TakeOffer(heard.s.(lastSeen := now), offer);
    ShownAside(ends.buying, ends.provider, heard.(s := taken.(buyer := taken.buyer.ForgetPending(), phase := Established)), now);
  }

  // ------------------------------------------------------------------------
  // The other direction
  // ------------------------------------------------------------------------

  /** What a provider may hear that is no purchase from it and no first channel. */
  predicate OfTheirs(msg: Message) {
    !msg.MTopUp? && !msg.MAccept?
  }

  /** What a payer may hear that concerns only what it sells in turn. */
  predicate OfOurs(msg: Message) {
    msg.MTopUp? || msg.MAccept? || msg.MRolloverInit? || msg.MChannelClose? || msg.MCloseAck? || msg.MReject? || msg.MAnnounce? || msg.MDisconnect?
  }

  /** What either hears of the other direction of the link is no step of this one. */
  lemma OtherDirection(ends: Ends, p: Pair, msg: Message, free: u64, now: Millis)
    requires Wired(ends, p) && Gated(p.provider, now) && Matched(p.payer.buyer, p.provider.grant)
    ensures OfTheirs(msg) ==> Follows(ends, p.Records(), Exchanged(ends, p, At(ProviderHears(msg, free), now)), now)
    ensures OfOurs(msg) ==> Follows(ends, p.Records(), Exchanged(ends, p, At(PayerHears(msg, free), now)), now)
  {
    hide OnMessage, Matched, Exchanged, Leaves;
    HearingIs(ends, p, msg, free, now);
    if OfTheirs(msg) {
      BuyingLeavesGrant(ends.selling, ends.payer, Bare(p.provider), msg, free, now);
      StaysSold(ends, p, OnMessage(ends.selling, ends.payer, Bare(p.provider), msg, free, now).s, now);
    }
    if OfOurs(msg) {
      SellingLeavesBuyer(ends.buying, ends.provider, Bare(p.payer), msg, free, now);
      StaysBought(ends, p, OnMessage(ends.buying, ends.provider, Bare(p.payer), msg, free, now).s, now);
    }
  }

  lemma HearingIs(ends: Ends, p: Pair, msg: Message, free: u64, now: Millis)
    ensures Exchanged(ends, p, At(ProviderHears(msg, free), now)) == p.(provider := OnMessage(ends.selling, ends.payer, Bare(p.provider), msg, free, now).s)
    ensures Exchanged(ends, p, At(PayerHears(msg, free), now)) == p.(payer := OnMessage(ends.buying, ends.provider, Bare(p.payer), msg, free, now).s)
  {
    hide OnMessage, ReadAll, ReadOnce, Verified, Announced, CarriesOn, PayerBack, Back, Greeting, Replied, OnTick, Polled;
  }

  lemma StaysSold(ends: Ends, p: Pair, s: PeerSession, now: Millis)
    requires Wired(ends, p) && Gated(p.provider, now) && Matched(p.payer.buyer, p.provider.grant) && Leaves(p.provider, s, now)
    ensures Follows(ends, p.Records(), p.(provider := s), now)
  {
    hide Matched;
  }

  lemma StaysBought(ends: Ends, p: Pair, s: PeerSession, now: Millis)
    requires Wired(ends, p) && Gated(p.provider, now) && Matched(p.payer.buyer, p.provider.grant)
    requires s.buyer == p.payer.buyer && s.offer == p.payer.offer && s.refusedTerms == p.payer.refusedTerms && s.meter == p.payer.meter
    ensures Follows(ends, p.Records(), p.(payer := s), now)
  {
    hide Matched;
  }
}
