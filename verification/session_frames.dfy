/**
  What every ordinary turn of a session keeps, whatever prompted it: no channel dropped unsettled,
  no budget added to, no reservation raised, nothing saved that is not so.
 */
module SessionFrames {
  import opened Numbers
  import opened Wrappers
  import opened Wire
  import opened Limits
  import opened Grants
  import opened GrantChannels
  import opened Buyers
  import opened Sessions
  import GrantProperties

  // ------------------------------------------------------------------------
  // Channels: held, or settled with their expiry
  // ------------------------------------------------------------------------

  ghost predicate Held(cs: seq<IncomingChannel>, c: IncomingChannel) {
    exists d :: d in cs && d.id == c.id && d.expiresAt == c.expiresAt
  }

  ghost predicate Settled(out: seq<Action>, peer: PubKey, c: IncomingChannel) {
    SettleChannel(peer, c.id, c.expiresAt) in out
  }

  /** Every channel held before is held still, or settled by what the host is asked to do. */
  ghost predicate Accounted(peer: PubKey, before: seq<IncomingChannel>, after: seq<IncomingChannel>, out: seq<Action>) {
    && Distinct(after)
    && forall c :: c in before ==> Held(after, c) || Settled(out, peer, c)
  }

  /** A channel still held is one held before, with as much signed on it. */
  ghost predicate Thinned(before: seq<IncomingChannel>, after: seq<IncomingChannel>) {
    forall d :: d in after ==> From(before, d)
  }

  ghost predicate From(before: seq<IncomingChannel>, d: IncomingChannel) {
    exists c :: c in before && c.id == d.id && c.signed == d.signed
  }

  lemma ThinnedThen(cs: seq<IncomingChannel>, ds: seq<IncomingChannel>, es: seq<IncomingChannel>)
    requires Thinned(cs, ds) && Thinned(ds, es)
    ensures Thinned(cs, es)
  {
    forall e | e in es ensures From(cs, e) {
      assert From(ds, e);
      var d :| d in ds && d.id == e.id && d.signed == e.signed;
      assert From(cs, d);
    }
  }

  /** The turn records no purchase. */
  ghost predicate NoneRecorded(t: Turn, t': Turn) {
    forall a :: a in t'.out && a.RecordUpdates? ==> a in t.out
  }

  /** The turn only adds actions, and only about this peer. */
  ghost predicate Adds(peer: PubKey, t: Turn, t': Turn) {
    && (forall a :: a in t.out ==> a in t'.out)
    && (forall a :: a in t'.out ==> a in t.out || a.peer == peer)
  }

  // ------------------------------------------------------------------------
  // The budget: only ever drawn
  // ------------------------------------------------------------------------

  ghost predicate Drawn(g: Grant, g': Grant) {
    && g'.authorized == g.authorized && g'.deadline == g.deadline && g.consumed <= g'.consumed
    && g'.reservedRate <= g.reservedRate
    && (g.Valid() ==> g'.Valid())
  }

  /** Nothing is saved but that a budget has gone, and only when it has. */
  ghost predicate SavesOnlyGone(t: Turn, t': Turn, now: Millis) {
    forall a :: a in t'.out && a.SaveBudget? ==> a in t.out || (a.budget == NO_BUDGET && !t'.s.grant.IsLive(now))
  }

  ghost predicate Ordinary(peer: PubKey, t: Turn, t': Turn, now: Millis) {
    && Adds(peer, t, t')
    && Accounted(peer, t.s.grant.channels, t'.s.grant.channels, t'.out)
    && Drawn(t.s.grant, t'.s.grant)
    && t'.s.grant.lastTopup == t.s.grant.lastTopup
    && t'.s.policy == t.s.policy
    && (t.s.phase.Closing? ==> t'.s.phase.Closing?)
    && SavesOnlyGone(t, t', now)
    && Thinned(t.s.grant.channels, t'.s.grant.channels)
    && NoneRecorded(t, t')
  }

  lemma OrdinaryThen(peer: PubKey, t: Turn, u: Turn, v: Turn, now: Millis)
    requires Ordinary(peer, t, u, now) && Ordinary(peer, u, v, now)
    ensures Ordinary(peer, t, v, now)
  {
    ThinnedThen(t.s.grant.channels, u.s.grant.channels, v.s.grant.channels);
    hide Thinned;
    forall c | c in t.s.grant.channels
      ensures Held(v.s.grant.channels, c) || Settled(v.out, peer, c)
    {
      if Held(u.s.grant.channels, c) {
        var d :| d in u.s.grant.channels && d.id == c.id && d.expiresAt == c.expiresAt;
        assert Held(v.s.grant.channels, d) || Settled(v.out, peer, d);
      }
    }
  }

  lemma SameChannelsAccounted(peer: PubKey, cs: seq<IncomingChannel>, out: seq<Action>)
    requires Distinct(cs)
    ensures Accounted(peer, cs, cs, out) && Thinned(cs, cs)
  {
  }

  /** A turn that leaves the grant, the policy and an ending phase alone, and saves nothing. */
  ghost predicate LeavesGrant(peer: PubKey, t: Turn, t': Turn) {
    && Adds(peer, t, t')
    && t'.s.grant == t.s.grant && t'.s.policy == t.s.policy
    && (t.s.phase.Closing? ==> t'.s.phase.Closing?)
    && (forall a :: a in t'.out && a.SaveBudget? ==> a in t.out)
    && NoneRecorded(t, t')
  }

  lemma LeavingIsOrdinary(peer: PubKey, t: Turn, t': Turn, now: Millis)
    requires LeavesGrant(peer, t, t') && Distinct(t.s.grant.channels)
    ensures Ordinary(peer, t, t', now)
  {
    SameChannelsAccounted(peer, t.s.grant.channels, t'.out);
  }

  // ------------------------------------------------------------------------
  // Settling
  // ------------------------------------------------------------------------

  lemma {:induction false} SettleEachAccounts(peer: PubKey, cs: seq<IncomingChannel>, ids: seq<ChannelId>)
    requires Distinct(cs)
    ensures Accounted(peer, cs, SettleEach(peer, cs, ids).0, SettleEach(peer, cs, ids).1)
    ensures forall a :: a in SettleEach(peer, cs, ids).1 ==> a.SettleChannel? && a.peer == peer
    ensures forall c :: c in SettleEach(peer, cs, ids).0 <==> c in cs && c.id !in ids
    ensures (forall c :: c in cs ==> c.id in ids) ==> SettleEach(peer, cs, ids).0 == []
    decreases |ids|
  {
    if ids == [] {
      assert cs != [] ==> cs[0] in cs;
      SameChannelsAccounted(peer, cs, []);
    } else {
      var id := ids[0];
      var cs' := Remove(cs, id);
      RemoveKeepsDistinct(cs, id);
      SettleEachAccounts(peer, cs', ids[1..]);
      var (rest, out) := SettleEach(peer, cs, ids);
      assert out[1..] == SettleEach(peer, cs', ids[1..]).1;
      forall c | c in cs
        ensures Held(rest, c) || Settled(out, peer, c)
      {
        if c.id == id {
          FindMember(cs, c);
          assert out[0] == SettleChannel(peer, c.id, c.expiresAt);
        } else {
          assert c in cs';
        }
      }
    }
  }

  lemma SettleIsOrdinary(peer: PubKey, t: Turn, ids: seq<ChannelId>, now: Millis)
    requires Distinct(t.s.grant.channels)
    ensures Ordinary(peer, t, Settle(peer, t, ids), now)
    ensures forall c :: c in Settle(peer, t, ids).s.grant.channels <==> c in t.s.grant.channels && c.id !in ids
    ensures Settle(peer, t, ids) == t.(s := t.s.(grant := t.s.grant.(channels := Settle(peer, t, ids).s.grant.channels)),
                                       out := Settle(peer, t, ids).out)
  {
    SettleEachAccounts(peer, t.s.grant.channels, ids);
  }

  lemma {:induction false} IdsNameAll(cs: seq<IncomingChannel>)
    ensures forall c :: c in cs ==> c.id in Ids(cs)
  {
    if cs != [] {
      IdsNameAll(cs[1..]);
    }
  }

  lemma {:induction false} ExpiringIdsNameAll(cs: seq<IncomingChannel>, now: Millis, leadMs: u64)
    ensures forall c :: c in cs && c.Expiring(now, leadMs) ==> c.id in ExpiringIds(cs, now, leadMs)
  {
    if cs != [] {
      ExpiringIdsNameAll(cs[1..], now, leadMs);
    }
  }

  lemma DiscardIsOrdinary(peer: PubKey, t: Turn, now: Millis)
    requires Distinct(t.s.grant.channels)
    ensures Ordinary(peer, t, Discard(peer, t), now)
    ensures Discard(peer, t).s.grant.channels == []
    ensures forall c :: c in t.s.grant.channels ==> Settled(Discard(peer, t).out, peer, c)
  {
    SettleIsOrdinary(peer, t, Ids(t.s.grant.channels), now);
    IdsNameAll(t.s.grant.channels);
    SettleEachAccounts(peer, t.s.grant.channels, Ids(t.s.grant.channels));
  }

  /** No channel is left within the lead of its expiry. */
  ghost predicate Clear(cs: seq<IncomingChannel>, now: Millis, leadMs: u64) {
    forall c :: c in cs && c.expiresAt.Some? ==> SatAdd(now, leadMs) < c.expiresAt.value
  }

  lemma SettleExpiringIsOrdinary(cfg: Config, peer: PubKey, t: Turn, now: Millis)
    requires Distinct(t.s.grant.channels)
    ensures Ordinary(peer, t, SettleExpiring(cfg, peer, t, now), now)
    ensures Clear(SettleExpiring(cfg, peer, t, now).s.grant.channels, now, cfg.node.SettleLeadMs())
  {
    SettleIsOrdinary(peer, t, ExpiringIds(t.s.grant.channels, now, cfg.node.SettleLeadMs()), now);
    ExpiringIdsNameAll(t.s.grant.channels, now, cfg.node.SettleLeadMs());
  }

  // ------------------------------------------------------------------------
  // Each turn of a session
  // ------------------------------------------------------------------------

  lemma RefreshIsOrdinary(cfg: Config, peer: PubKey, t: Turn, now: Millis)
    requires Distinct(t.s.grant.channels)
    ensures Ordinary(peer, t, Refresh(cfg, peer, t, now), now)
    ensures Refresh(cfg, peer, t, now).s.grant == t.s.grant
  {
    hide RateOf;
    SameChannelsAccounted(peer, t.s.grant.channels, Refresh(cfg, peer, t, now).out);
  }

  lemma PollBuyerLeavesGrant(cfg: Config, peer: PubKey, t: Turn, now: Millis)
    ensures LeavesGrant(peer, t, PollBuyer(cfg, peer, t, now))
  {
    hide Poll, Buyer.Record, Buyer.RetireExpiring, DemandOf;
  }

  lemma RequestFundingLeavesGrant(peer: PubKey, t: Turn, mintUrl: Text, capacity: u64, now: Millis)
    ensures LeavesGrant(peer, t, RequestFunding(peer, t, mintUrl, capacity, now))
  {
  }

  lemma PollRolloverLeavesGrant(cfg: Config, peer: PubKey, t: Turn, now: Millis)
    ensures LeavesGrant(peer, t, PollRollover(cfg, peer, t, now))
  {
    hide Buyer.RolloverDue, NodePolicy.GrownCapacity;
  }

  lemma PollOpeningLeavesGrant(cfg: Config, peer: PubKey, t: Turn, now: Millis)
    ensures LeavesGrant(peer, t, PollOpening(cfg, peer, t, now))
  {
  }

  lemma {:induction false} CountFailuresIsOrdinary(peer: PubKey, t: Turn, ids: seq<ChannelId>, now: Millis)
    requires Distinct(t.s.grant.channels)
    ensures Ordinary(peer, t, CountFailures(peer, t, ids), now)
    decreases |ids|
  {
    if ids == [] {
      LeavingIsOrdinary(peer, t, t, now);
    } else {
      var (g, failures) := t.s.grant.RecordFailure(ids[0]);
      var counted := t.(s := t.s.(grant := g));
      FailureIsOrdinary(peer, t, ids[0], now);
      var next := if failures.Some? && failures.value >= MAX_VERIFICATION_FAILURES then Settle(peer, counted, [ids[0]]) else counted;
      if next == counted {
        CountFailuresIsOrdinary(peer, next, ids[1..], now);
        OrdinaryThen(peer, t, next, CountFailures(peer, t, ids), now);
      } else {
        SettleIsOrdinary(peer, counted, [ids[0]], now);
        OrdinaryThen(peer, t, counted, next, now);
        CountFailuresIsOrdinary(peer, next, ids[1..], now);
        OrdinaryThen(peer, t, next, CountFailures(peer, t, ids), now);
      }
    }
  }

  /** A channel replaced by itself with other counts is still held. */
  lemma {:induction false} PutHolds(cs: seq<IncomingChannel>, c: IncomingChannel)
    requires forall d :: d in cs && d.id == c.id ==> d.expiresAt == c.expiresAt
    ensures forall d :: d in cs ==> Held(Put(cs, c), d)
  {
    if cs != [] {
      if cs[0].id == c.id {
        assert Put(cs, c)[0] == c;
        forall d | d in cs ensures Held(Put(cs, c), d) {
          if d.id != c.id {
            assert d in cs[1..];
          }
        }
      } else {
        PutHolds(cs[1..], c);
        forall d | d in cs ensures Held(Put(cs, c), d) {
          if d != cs[0] {
            assert Held(Put(cs[1..], c), d);
          } else {
            assert Put(cs, c)[0] == d;
          }
        }
      }
    }
  }

  lemma PutThins(cs: seq<IncomingChannel>, c: IncomingChannel, was: IncomingChannel)
    requires was in cs && was.id == c.id && was.signed == c.signed
    ensures Thinned(cs, Put(cs, c))
  {
    GrantProperties.PutMembers(cs, c);
  }

  lemma FailureIsOrdinary(peer: PubKey, t: Turn, id: ChannelId, now: Millis)
    requires Distinct(t.s.grant.channels)
    ensures Ordinary(peer, t, t.(s := t.s.(grant := t.s.grant.RecordFailure(id).0)), now)
  {
    var cs := t.s.grant.channels;
    var found := Find(cs, id);
    if found.Some? {
      var counted := found.value.(failures := Min(found.value.failures + 1, 0xFFFF_FFFF));
      forall d | d in cs && d.id == counted.id ensures d.expiresAt == counted.expiresAt {
        FindMember(cs, d);
      }
      PutHolds(cs, counted);
      PutThins(cs, counted, found.value);
      PutKeepsDistinct(cs, counted);
    } else {
      SameChannelsAccounted(peer, cs, t.out);
    }
  }

  lemma OnUnverifiedIsOrdinary(cfg: Config, peer: PubKey, t: Turn, ids: seq<ChannelId>, now: Millis)
    requires Distinct(t.s.grant.channels)
    ensures Ordinary(peer, t, OnUnverified(cfg, peer, t, ids, now), now)
  {
    var told := t.Does(Send(peer, MReject(TOPUP, GrantInvalid, None)));
    LeavingIsOrdinary(peer, t, told, now);
    CountFailuresIsOrdinary(peer, told, ids, now);
    OrdinaryThen(peer, t, told, CountFailures(peer, told, ids), now);
    RefreshIsOrdinary(cfg, peer, CountFailures(peer, told, ids), now);
    OrdinaryThen(peer, t, CountFailures(peer, told, ids), OnUnverified(cfg, peer, t, ids, now), now);
  }

  // ------------------------------------------------------------------------
  // Messages, and everything else a session hears
  // ------------------------------------------------------------------------

  /** `t` with whatever does not concern the grant, the policy or an ending phase changed. */
  lemma Aside(peer: PubKey, t: Turn, t': Turn, now: Millis)
    requires Distinct(t.s.grant.channels) && t'.s.grant == t.s.grant && t'.s.policy == t.s.policy
    requires t'.out == t.out && (t.s.phase.Closing? ==> t'.s.phase.Closing?)
    ensures Ordinary(peer, t, t', now)
  {
    LeavingIsOrdinary(peer, t, t', now);
  }

  /** A session resumed over a channel both sides still hold, which an opening Offer carries on with. */
  ghost predicate Resumes(cfg: Config, s: PeerSession, m: Offer) {
    && s.offer.None? && s.buyer.active.Some? && s.keptByPeer
    && !m.noCharge && !s.refusedTerms && cfg.buying.AcceptsWeight(m.fromPayerWeight) && cfg.buying.Buying()
  }

  function Revived(t: Turn): Turn {
    t.(s := t.s.(phase := Established))
  }

  lemma ResumingOfferIsOrdinary(cfg: Config, peer: PubKey, t: Turn, taken: Turn, m: Offer, now: Millis)
    requires Distinct(t.s.grant.channels) && Resumes(cfg, t.s, m) && taken == t.(s := TakeOffer(t.s, m))
    ensures Ordinary(peer, Revived(t), OnOpeningOffer(cfg, peer, taken, m, now), now)
  {
    hide PollBuyer, Refresh, RequestFunding, Ordinary, Buyer.StartOver;
    var after := OnOpeningOffer(cfg, peer, taken, m, now);
    var resumed := taken.(s := taken.s.(buyer := taken.s.buyer.ForgetPending(), phase := Established));
    LeavingIsOrdinary(peer, Revived(t), resumed, now);
    RefreshIsOrdinary(cfg, peer, resumed, now);
    var shown := Refresh(cfg, peer, resumed, now);
    OrdinaryThen(peer, Revived(t), resumed, shown, now);
    PollBuyerLeavesGrant(cfg, peer, shown, now);
    LeavingIsOrdinary(peer, shown, after, now);
    OrdinaryThen(peer, Revived(t), shown, after, now);
  }

  lemma FreshOfferIsOrdinary(cfg: Config, peer: PubKey, t: Turn, taken: Turn, m: Offer, now: Millis)
    requires Distinct(t.s.grant.channels) && t.s.offer.None? && !Resumes(cfg, t.s, m) && taken == t.(s := TakeOffer(t.s, m))
    ensures Ordinary(peer, t, OnOpeningOffer(cfg, peer, taken, m, now), now)
  {
    hide PollBuyer, Refresh, RequestFunding, Ordinary, Buyer.StartOver;
    var u := if !m.noCharge && !cfg.buying.AcceptsWeight(m.fromPayerWeight) then
        taken.(s := taken.s.(refusedTerms := true)).Does(Send(peer, MReject(OFFER, FromPayerWeightUnacceptable, None)))
      else taken;
    var buying := !m.noCharge && !u.s.refusedTerms && cfg.buying.Buying();
    var after := OnOpeningOffer(cfg, peer, taken, m, now);
    var anew := u.(s := u.s.(buyer := u.s.buyer.StartOver()));
    LeavingIsOrdinary(peer, t, anew, now);
    var asked := if u.s.refusedTerms then anew
      else if m.acceptedMints != [] && buying then
        RequestFunding(peer, anew, m.acceptedMints[0], cfg.node.FirstChannelCapacity(), now)
      else anew.Does(Send(peer, MAccept([])));
    if m.acceptedMints != [] {
      RequestFundingLeavesGrant(peer, anew, m.acceptedMints[0], cfg.node.FirstChannelCapacity(), now);
    }
    LeavingIsOrdinary(peer, anew, asked, now);
    RefreshIsOrdinary(cfg, peer, asked, now);
    OrdinaryThen(peer, t, anew, asked, now);
    OrdinaryThen(peer, t, asked, after, now);
  }

  lemma OnAcceptIsOrdinary(cfg: Config, peer: PubKey, t: Turn, funding: Bytes, now: Millis)
    requires Distinct(t.s.grant.channels)
    ensures Ordinary(peer, t, OnAccept(cfg, peer, t, funding, now), now)
  {
    var settled := Discard(peer, t);
    DiscardIsOrdinary(peer, t, now);
    hide Discard, Refresh;
    if funding == [] {
      RefreshIsOrdinary(cfg, peer, settled, now);
    } else {
      LeavingIsOrdinary(peer, settled, settled.Does(VerifyFunding(peer, funding)), now);
    }
    OrdinaryThen(peer, t, settled, OnAccept(cfg, peer, t, funding, now), now);
  }

  lemma PolledIsOrdinary(cfg: Config, peer: PubKey, t: Turn, u: Turn, now: Millis)
    requires Distinct(t.s.grant.channels) && LeavesGrant(peer, t, u)
    ensures Ordinary(peer, t, PollBuyer(cfg, peer, u, now), now)
  {
    hide PollBuyer;
    PollBuyerLeavesGrant(cfg, peer, u, now);
    LeavingIsOrdinary(peer, t, u, now);
    LeavingIsOrdinary(peer, u, PollBuyer(cfg, peer, u, now), now);
    OrdinaryThen(peer, t, u, PollBuyer(cfg, peer, u, now), now);
  }

  /** The turn an Offer starts from: an ending session is no longer ending if it resumes. */
  ghost function OfferBasis(cfg: Config, t: Turn, m: Offer): Turn {
    if Resumes(cfg, t.s, m) then Revived(t) else t
  }

  lemma OnOfferIsOrdinary(cfg: Config, peer: PubKey, t: Turn, m: Offer, now: Millis)
    requires Distinct(t.s.grant.channels)
    ensures Ordinary(peer, OfferBasis(cfg, t, m), OnOffer(cfg, peer, t, m, now), now)
  {
    var taken := t.(s := TakeOffer(t.s, m));
    hide PollOpening, OnOpeningOffer, Ordinary;
    if t.s.offer.Some? {
      Aside(peer, t, taken, now);
      PollOpeningLeavesGrant(cfg, peer, taken, now);
      LeavingIsOrdinary(peer, taken, PollOpening(cfg, peer, taken, now), now);
      OrdinaryThen(peer, t, taken, OnOffer(cfg, peer, t, m, now), now);
    } else if Resumes(cfg, t.s, m) {
      ResumingOfferIsOrdinary(cfg, peer, t, taken, m, now);
    } else {
      FreshOfferIsOrdinary(cfg, peer, t, taken, m, now);
    }
  }

  lemma AsidesLeaveGrant(cfg: Config, peer: PubKey, t: Turn, msg: Message, elsewhere: u64, now: Millis)
    requires !msg.MTopUp? && !msg.MOffer? && !msg.MAccept? && !msg.MChannelReady? && !msg.MTopUpReject? && !msg.MRolloverReady?
    ensures LeavesGrant(peer, t, OnMessage(cfg, peer, t, msg, elsewhere, now))
  {
    hide ExpiryOf, Buyer.NoteBalance;
  }

  lemma OnMessageIsOrdinary(cfg: Config, peer: PubKey, t: Turn, msg: Message, elsewhere: u64, now: Millis)
    requires Distinct(t.s.grant.channels) && !msg.MTopUp?
    ensures Ordinary(peer, if msg.MOffer? then OfferBasis(cfg, t, msg.offer) else t, OnMessage(cfg, peer, t, msg, elsewhere, now), now)
  {
    hide PollBuyer, OnOffer, OnAccept, Ordinary, LeavesGrant, Buyer.RecordReject, Buyer.Confirmed, Noticed, OnAnnounce;
    var heard := t.(s := t.s.(lastSeen := now));
    match msg
    case MOffer(m) => HeardOfferIsOrdinary(cfg, peer, t, m, now);
    case MAccept(funding) =>
      Aside(peer, t, heard, now);
      OnAcceptIsOrdinary(cfg, peer, heard, funding, now);
      OrdinaryThen(peer, t, heard, OnAccept(cfg, peer, heard, funding, now), now);
    case MChannelReady(id) => PolledMessageIsOrdinary(cfg, peer, t, msg, elsewhere, now);
    case MTopUpReject(m) => PolledMessageIsOrdinary(cfg, peer, t, msg, elsewhere, now);
    case MRolloverReady(_, id) => PolledMessageIsOrdinary(cfg, peer, t, msg, elsewhere, now);
    case _ =>
      AsidesLeaveGrant(cfg, peer, t, msg, elsewhere, now);
      hide OnMessage;
      LeavingIsOrdinary(peer, t, OnMessage(cfg, peer, t, msg, elsewhere, now), now);
  }

  lemma HeardOfferIsOrdinary(cfg: Config, peer: PubKey, t: Turn, m: Offer, now: Millis)
    requires Distinct(t.s.grant.channels)
    ensures var heard := t.(s := t.s.(lastSeen := now));
      Ordinary(peer, OfferBasis(cfg, t, m), OnOffer(cfg, peer, heard, m, now), now)
  {
    hide OnOffer, Ordinary;
    var heard := t.(s := t.s.(lastSeen := now));
    OnOfferIsOrdinary(cfg, peer, heard, m, now);
    Aside(peer, OfferBasis(cfg, t, m), OfferBasis(cfg, heard, m), now);
    OrdinaryThen(peer, OfferBasis(cfg, t, m), OfferBasis(cfg, heard, m), OnOffer(cfg, peer, heard, m, now), now);
  }

  lemma PolledMessageIsOrdinary(cfg: Config, peer: PubKey, t: Turn, msg: Message, elsewhere: u64, now: Millis)
    requires Distinct(t.s.grant.channels) && (msg.MChannelReady? || msg.MTopUpReject? || msg.MRolloverReady?)
    ensures Ordinary(peer, t, OnMessage(cfg, peer, t, msg, elsewhere, now), now)
  {
    hide PollBuyer, Ordinary, Buyer.RecordReject, Buyer.Confirmed;
    var heard := t.(s := t.s.(lastSeen := now));
    match msg
    case MChannelReady(id) =>
      var b := if heard.s.buyer.IsActive(id) then heard.s.buyer else heard.s.buyer.Confirmed(id);
      PolledIsOrdinary(cfg, peer, t, heard.(s := heard.s.(buyer := b, keptByPeer := heard.s.keptByPeer || b.IsActive(id))), now);
    case MTopUpReject(m) =>
      PolledIsOrdinary(cfg, peer, t, heard.(s := heard.s.(buyer :=
        heard.s.buyer.RecordReject(ToRefused(m.refused), m.reason, m.maxReservedRate, now, cfg.buying.capHoldMs))), now);
    case MRolloverReady(_, id) =>
      PolledIsOrdinary(cfg, peer, t, heard.(s := heard.s.(buyer := heard.s.buyer.Confirmed(id))), now);
  }

  lemma OnOutgoingFundedIsOrdinary(cfg: Config, peer: PubKey, t: Turn, id: ChannelId, capacity: u64, expiresAt: Option<Millis>,
                                   funding: Bytes, now: Millis)
    requires Distinct(t.s.grant.channels)
    ensures Ordinary(peer, t, OnOutgoingFunded(cfg, peer, t, id, capacity, expiresAt, funding, now), now)
  {
    var b := t.s.buyer.FundedWith(id, capacity, expiresAt);
    var msg := if b.active.Some? then MRolloverInit(b.active.value.id, funding) else MAccept(funding);
    var told := t.(s := t.s.(buyer := b)).Does(Send(peer, msg));
    LeavingIsOrdinary(peer, t, told, now);
    RefreshIsOrdinary(cfg, peer, told, now);
    hide Refresh, Ordinary;
    OrdinaryThen(peer, t, told, Refresh(cfg, peer, told, now), now);
  }

  lemma DrawIsDrawn(g: Grant, moved: u64, now: Millis)
    requires g.Valid()
    ensures Drawn(g, g.Draw(moved, now)) && g.Draw(moved, now).channels == g.channels && g.Draw(moved, now).lastTopup == g.lastTopup
  {
    var open := if g.second.Some? then g.second.value else Starting(now);
    GrantProperties.ReadKeepsValid(open, moved, now, g.reservedRate);
    hide Second.Read;
  }

  lemma PauseIsDrawn(g: Grant)
    requires g.Valid()
    ensures Drawn(g, g.Pause()) && g.Pause().channels == g.channels && g.Pause().lastTopup == g.lastTopup
    ensures g.Pause().second.None?
  {
    hide Second.Close;
  }

  lemma OnMeteredIsOrdinary(cfg: Config, peer: PubKey, t: Turn, counters: Counters, carried: bool, now: Millis)
    requires Distinct(t.s.grant.channels) && t.s.grant.Valid()
    ensures Ordinary(peer, t, Refresh(cfg, peer, t.(s := OnMetered(t.s, counters, carried, now)), now), now)
  {
    var drawn := t.(s := OnMetered(t.s, counters, carried, now));
    DrawIsDrawn(t.s.grant, counters.DeltaSince(t.s.meter).Weighted(t.s.weight), now);
    PauseIsDrawn(t.s.grant);
    SameChannelsAccounted(peer, t.s.grant.channels, t.out);
    hide Grant.Draw, Grant.Pause, Buyer.Draw, Refresh, Counters.Weighted, RateFrom;
    assert Ordinary(peer, t, drawn, now);
    RefreshIsOrdinary(cfg, peer, drawn, now);
    OrdinaryThen(peer, t, drawn, Refresh(cfg, peer, drawn, now), now);
  }

  lemma OnTickIsOrdinary(cfg: Config, peer: PubKey, t: Turn, now: Millis)
    requires Distinct(t.s.grant.channels)
    ensures Ordinary(peer, t, OnTick(cfg, peer, t, now), now)
    ensures Clear(OnTick(cfg, peer, t, now).s.grant.channels, now, cfg.node.SettleLeadMs())
  {
    var expired := t.(s := t.s.(grant := t.s.grant.ExpireIfDue(now)));
    SameChannelsAccounted(peer, t.s.grant.channels, t.out);
    assert Ordinary(peer, t, expired, now);
    SettleExpiringIsOrdinary(cfg, peer, expired, now);
    var settled := SettleExpiring(cfg, peer, expired, now);
    OrdinaryThen(peer, t, expired, settled, now);
    RefreshIsOrdinary(cfg, peer, settled, now);
    var shown := Refresh(cfg, peer, settled, now);
    hide SettleExpiring, Refresh, PollBuyer, PollRollover, PollOpening;
    OrdinaryThen(peer, t, settled, shown, now);
    TickPollsLeaveGrant(cfg, peer, shown, now);
    LeavingIsOrdinary(peer, shown, OnTick(cfg, peer, t, now), now);
    OrdinaryThen(peer, t, shown, OnTick(cfg, peer, t, now), now);
  }

  lemma TickPollsLeaveGrant(cfg: Config, peer: PubKey, t: Turn, now: Millis)
    ensures LeavesGrant(peer, t, PollOpening(cfg, peer, PollRollover(cfg, peer, PollBuyer(cfg, peer, t, now), now), now))
  {
    var bought := PollBuyer(cfg, peer, t, now);
    var rolled := PollRollover(cfg, peer, bought, now);
    PollBuyerLeavesGrant(cfg, peer, t, now);
    PollRolloverLeavesGrant(cfg, peer, bought, now);
    PollOpeningLeavesGrant(cfg, peer, rolled, now);
    hide PollBuyer, PollRollover, PollOpening;
  }

  /**
    What is shown follows what is held: a peer is carried and metered exactly when it is charged and
    has a channel open or a budget left, and showing it again at once asks for nothing.
   */
  lemma ShownOnce(cfg: Config, peer: PubKey, t: Turn, now: Millis)
    ensures var shown := Refresh(cfg, peer, t, now);
      && (shown.s.access == Active <==> !t.s.policy.noCharge && (t.s.grant.channels != [] || t.s.grant.IsLive(now)))
      && (shown.s.access == Free <==> t.s.policy.noCharge)
      && Refresh(cfg, peer, shown, now) == shown
  {
    hide BalanceOf, Grant.ShapingRate;
    var shown := Refresh(cfg, peer, t, now);
    assert shown.out + [] + [] + [] == shown.out;
  }

  /** The actions that show a session: its gate, that its budget has gone, and its speed. */
  ghost function GateActions(peer: PubKey, s: PeerSession, now: Millis): seq<Action> {
    if AccessOf(s, now) != s.access then [SetAccess(peer, AccessOf(s, now))] else []
  }

  ghost function GoneActions(peer: PubKey, s: PeerSession, now: Millis): seq<Action> {
    if s.budgetLive && !s.grant.IsLive(now) && !s.policy.noCharge then [Send(peer, BalanceOf(s, now)), SaveBudget(peer, NO_BUDGET)] else []
  }

  ghost function SpeedActions(cfg: Config, peer: PubKey, s: PeerSession, now: Millis): seq<Action> {
    if s.appliedRate != Some(RateOf(cfg, s, now)) then [SetShapingRate(peer, RateOf(cfg, s, now))] else []
  }

  lemma RefreshActs(cfg: Config, peer: PubKey, t: Turn, now: Millis)
    ensures Refresh(cfg, peer, t, now).out == t.out + (GateActions(peer, t.s, now) + GoneActions(peer, t.s, now) + SpeedActions(cfg, peer, t.s, now))
  {
    hide RateOf, BalanceOf;
  }
}
