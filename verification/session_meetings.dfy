/**
  Two nodes that have never met. Each greets the other; the payer hears the provider's terms and asks its
  host for a channel in a mint the provider takes. From there on the two are in lockstep.
 */
module SessionMeetings {
  import opened Numbers
  import opened Wrappers
  import opened Wire
  import opened Grants
  import opened Buyers
  import opened Sessions
  import opened Lockstep
  import opened Conversations
  import opened SessionExchanges
  import opened SessionLockstep
  import Nodes

  /** A session as a first connection begins it. */
  function Met(cfg: Config, peer: PubKey, policy: PeerPolicy, request: u64, now: Millis): Turn {
    Nodes.Greet(cfg, peer, policy, Nodes.Begin(cfg, peer, policy, None, None, now, request), now)
  }

  /** The payer, having heard all that the provider greets it with. */
  function Introduced(ends: Ends, buying: PeerPolicy, selling: PeerPolicy, request: u64, now: Millis): Turn {
    HearAll(ends.buying, ends.provider, Met(ends.buying, ends.provider, buying, request, now),
            Said(Met(ends.selling, ends.payer, selling, 0, now).out, ends.payer), now)
  }

  /** One unit, a charge the payer takes, something to buy, and a mint to buy it in. */
  ghost predicate Suited(ends: Ends, selling: PeerPolicy) {
    && ends.buying.node.unit == ends.selling.node.unit && !selling.noCharge && ends.selling.node.acceptedMints != []
    && ends.buying.buying.Buying() && ends.buying.buying.AcceptsWeight(selling.Weight(ends.selling.node))
    && ends.selling.node.grants.minWindowMs <= ends.selling.node.grants.maxWindowMs
  }

  ghost function WeightOf(cfg: Config, policy: PeerPolicy): u16 {
    if policy.fromPayerWeight.Some? then policy.fromPayerWeight.value else cfg.node.fromPayerWeight
  }

  ghost function TermsOf(cfg: Config, policy: PeerPolicy): PeerOffer {
    var g := cfg.node.grants;
    PeerOffer(cfg.node.acceptedMints, cfg.node.unit, Terms(g.minWindowMs, g.maxWindowMs, g.minReservedRate, g.minTopupGapMs, WeightOf(cfg, policy)), policy.noCharge)
  }

  lemma MetRecords(cfg: Config, peer: PubKey, policy: PeerPolicy, request: u64, now: Millis)
    ensures var t := Met(cfg, peer, policy, request, now);
      && t.s.buyer == NewBuyer() && t.s.offer.None? && !t.s.refusedTerms && !t.s.keptByPeer && t.s.meter == Counters(0, 0)
      && t.s.grant == NewGrant() && t.s.weight == policy.Weight(cfg.node) && t.s.policy == policy && t.nextRequest == request
      && (!policy.noCharge ==> Gated(t.s, now))
  {
    hide Refresh, Nodes.Readies, OfferFor, BalanceOf, Gated;
    var t := Nodes.Begin(cfg, peer, policy, None, None, now, request);
    var announced := t.DoAll([SetAccess(peer, AccessLevel.Nothing), Send(peer, MAnnounce(Announce(PROTOCOL_VERSION, cfg.local, cfg.node.unit, 0)))]
                             + Nodes.Readies(peer, Ids(t.s.grant.channels)));
    var offered := SendOffer(peer, announced, OfferFor(cfg, policy, policy.Weight(cfg.node)));
    var told := if policy.noCharge then offered
      else offered.(s := offered.s.(budgetLive := offered.s.grant.IsLive(now))).Does(Send(peer, BalanceOf(offered.s, now)));
    ShownAside(cfg, peer, told, now);
    RefreshAsksNothing(cfg, peer, told, now);
  }

  lemma RefreshAsksNothing(cfg: Config, peer: PubKey, t: Turn, now: Millis)
    ensures Refresh(cfg, peer, t, now).nextRequest == t.nextRequest
  {
    hide RateOf, BalanceOf;
  }

  /** What a provider says to a stranger. */
  lemma MetSays(cfg: Config, peer: PubKey, policy: PeerPolicy, now: Millis)
    requires !policy.noCharge
    ensures Said(Met(cfg, peer, policy, 0, now).out, peer) ==
      [Announcement(cfg)] + [MOffer(OfferFor(cfg, policy, policy.Weight(cfg.node)))] + [MBalance(Balance(0, 0, 0))]
  {
    hide Said, OfferFor, Announcement, Nodes.Greet;
    var begun := Nodes.Begin(cfg, peer, policy, None, None, now, 0);
    var rest := GreetSays(cfg, peer, policy, begun, now);
    SaidNone(peer);
    MetRecords(cfg, peer, policy, 0, now);
    assert ReadyMessages(Ids(begun.s.grant.channels)) == [];
    assert [] + [Announcement(cfg)] + [] == [Announcement(cfg)];
  }

  /** The payer hears the terms, holds the provider to them, and asks for its first channel. */
  lemma TermsHeard(cfg: Config, peer: PubKey, t: Turn, m: Offer, now: Millis)
    requires t.s.offer.None? && !t.s.refusedTerms && t.s.buyer == NewBuyer() && !t.s.keptByPeer
    requires !m.noCharge && m.acceptedMints != [] && cfg.buying.Buying() && cfg.buying.AcceptsWeight(m.fromPayerWeight)
    ensures var u := OnMessage(cfg, peer, t, MOffer(m), 0, now);
      && u.s.buyer == NewBuyer().FundingRequested(t.nextRequest, now) && !u.s.refusedTerms && u.s.meter == t.s.meter
      && u.s.offer == Some(PeerOffer(m.acceptedMints, m.unit,
           Terms(m.minWindowMs, m.maxWindowMs, m.minReservedRate, m.minTopupGapMs, m.fromPayerWeight), m.noCharge))
      && FundChannel(peer, t.nextRequest, m.acceptedMints[0], cfg.node.FirstChannelCapacity()) in u.out
  {
    hide RateOf, BalanceOf, NodePolicy.FirstChannelCapacity, AccessOf;
    var heard := t.(s := TakeOffer(t.s.(lastSeen := now), m));
    var asked := RequestFunding(peer, heard.(s := heard.s.(buyer := NewBuyer())), m.acceptedMints[0], cfg.node.FirstChannelCapacity(), now);
    assert asked.out[|asked.out| - 1] == FundChannel(peer, t.nextRequest, m.acceptedMints[0], cfg.node.FirstChannelCapacity());
  }

  /**
    Strangers that suit one another are joined by greeting, and the payer has asked its host for a first
    channel: in the first mint the provider takes, as large as the operator says, under a request it will
    take the answer to. It holds the provider to its own settings, or an override's.
   */
  lemma StrangersMeet(ends: Ends, buying: PeerPolicy, selling: PeerPolicy, request: u64, now: Millis)
    requires Suited(ends, selling)
    ensures var payer, provider := Introduced(ends, buying, selling, request, now), Met(ends.selling, ends.payer, selling, 0, now);
      && Joined(ends, Pair(payer.s, provider.s), 0, now)
      && FundChannel(ends.provider, request, ends.selling.node.acceptedMints[0], ends.buying.node.FirstChannelCapacity()) in payer.out
      && payer.s.buyer.Answers(request)
      && payer.s.offer == Some(TermsOf(ends.selling, selling)) && provider.s.weight == WeightOf(ends.selling, selling)
  {
    hide Said, Announcement, HearAll, Met, NodePolicy.FirstChannelCapacity, OnMessage;
    var met, provider := Met(ends.buying, ends.provider, buying, request, now), Met(ends.selling, ends.payer, selling, 0, now);
    MetRecords(ends.buying, ends.provider, buying, request, now);
    MetRecords(ends.selling, ends.payer, selling, 0, now);
    MetSays(ends.selling, ends.payer, selling, now);
    var offer, left := OfferFor(ends.selling, selling, selling.Weight(ends.selling.node)), MBalance(Balance(0, 0, 0));
    HearAllMore(ends.buying, ends.provider, met, [Announcement(ends.selling)] + [MOffer(offer)], [left], now);
    HearAllMore(ends.buying, ends.provider, met, [Announcement(ends.selling)], [MOffer(offer)], now);
    AnnounceHeard(ends.buying, ends.provider, met, ends.selling, now);
    var known := met.(s := met.s.(lastSeen := now));
    HeardOne(ends.buying, ends.provider, known, MOffer(offer), now);
    TermsHeard(ends.buying, ends.provider, known, offer, now);
    var asked := OnMessage(ends.buying, ends.provider, known, MOffer(offer), 0, now);
    HeardOne(ends.buying, ends.provider, asked, left, now);
    NothingLeft(ends.buying, ends.provider, asked, now);
    NewLinkInStep(now);
  }

  lemma NothingLeft(cfg: Config, peer: PubKey, t: Turn, now: Millis)
    ensures var u := OnMessage(cfg, peer, t, MBalance(Balance(0, 0, 0)), 0, now);
      && u.out == t.out && u.s.buyer == t.s.buyer && u.s.offer == t.s.offer && u.s.refusedTerms == t.s.refusedTerms && u.s.meter == t.s.meter
  {
  }

  /** And so from two nodes that have never met, over any run of what may pass between them. */
  lemma StrangersInLockstep(ends: Ends, buying: PeerPolicy, selling: PeerPolicy, request: u64, now: Millis, xs: seq<At>, later: Millis)
    requires Suited(ends, selling)
    requires var p := Pair(Introduced(ends, buying, selling, request, now).s, Met(ends.selling, ends.payer, selling, 0, now).s);
      AllAllowed(ends, p, 0, now, xs) && LastAt(now, xs) <= later
    ensures var end := RunPair(ends, Pair(Introduced(ends, buying, selling, request, now).s, Met(ends.selling, ends.payer, selling, 0, now).s), xs);
      PayerView(end.payer.buyer, later) == ProviderView(end.provider.grant, later)
  {
    hide Introduced, Met, RunPair, AllAllowed, PayerView, ProviderView, LastAt, Joined;
    StrangersMeet(ends, buying, selling, request, now);
    SessionsInLockstep(ends, Pair(Introduced(ends, buying, selling, request, now).s, Met(ends.selling, ends.payer, selling, 0, now).s), 0, now, xs, later);
  }

  // ------------------------------------------------------------------------
  // What a node makes of it
  // ------------------------------------------------------------------------

  /** A node in whose settings and by whose clock the session stands. */
  lemma EventsAreExchanges(ends: Ends, p: Pair, n: Nodes.Node, x: At, free: u64, request: u64, mint: Text)
    ensures n.cfg == ends.selling ==>
      && (x.what.Buys? ==> Nodes.OnSession(n, Bare(p.provider), Nodes.MessageReceived(ends.payer, MTopUp(x.what.m)), x.what.elsewhere, x.now).s
                             == Exchanged(ends, p, x).provider)
      && (x.what.Reads? ==> Nodes.OnSession(n, Bare(p.provider), Nodes.Metered(ends.payer, x.what.counters, x.what.carried), free, x.now).s
                              == Exchanged(ends, p, x).provider)
      && (x.what.Opens? && mint in ends.selling.node.acceptedMints ==>
            Nodes.OnSession(n, HeardOf(ends, p, x.what.id, x.what.capacity, x.what.expiresAt, x.what.funding, x.now),
                            Nodes.IncomingFundingVerified(ends.payer, x.what.id, x.what.capacity, x.what.expiresAt, mint), free, x.now)
              == Verified(ends, p, x.what.id, x.what.capacity, x.what.expiresAt, x.what.funding, x.now))
    ensures n.cfg == ends.buying ==>
      && (x.what.Reads? ==> Nodes.OnSession(n, Bare(p.payer), Nodes.Metered(ends.provider, OtherWay(x.what.counters), x.what.carriedBack), free, x.now).s
                              == Exchanged(ends, p, x).payer)
      && (x.what.Demands? ==> Nodes.OnSession(n, Bare(p.payer), Nodes.DemandObserved(ends.provider, x.what.rate), free, x.now).s
                                == Polled(ends, Exchanged(ends, p, x).payer, x.now))
      && (x.what.Opens? && p.payer.buyer.Answers(request) ==>
            Nodes.OnSession(n, Bare(p.payer), Nodes.OutgoingChannelFunded(ends.provider, request, x.what.id, x.what.capacity, x.what.expiresAt, x.what.funding),
                            free, x.now)
              == Announced(ends, p.payer, x.what.id, x.what.capacity, x.what.expiresAt, x.what.funding, x.now))
  {
    hide OnMessage, Refresh, OnIncomingVerified, OnOutgoingFunded, PollBuyer, Sessions.OnMetered, ReadAll, HearAll, Back, CarriesOn;
  }
}
