/**
  When a channel is settled, and that it is settled once. Every settlement the node asks for of a channel
  it is paid on lets the channel go with it, so nothing more is sold on it, but for the ones that answer
  the peer's own ChannelClose or CloseAck: those leave it where it is.
 */
module NodeClosings {
  import opened Numbers
  import opened Wrappers
  import opened Wire
  import opened Grants
  import opened GrantChannels
  import opened Buyers
  import opened Sessions
  import opened SessionFrames
  import opened SessionPurchases
  import opened Nodes
  import opened NodeFrames
  import opened NodeEarnings
  import opened NodeSettlements
  import NodeCapacity
  import GrantProperties

  // ------------------------------------------------------------------------
  // One turn of a session
  // ------------------------------------------------------------------------

  /** The host is asked to settle this channel. */
  predicate Settles(a: Action, p: PubKey, id: ChannelId) {
    a.SettleChannel? && a.peer == p && a.channelId == id
  }

  predicate Holds(cs: seq<IncomingChannel>, id: ChannelId) {
    Find(cs, id).Some?
  }

  /** No such settlement but with the channel let go, and no channel of this id taken up. */
  ghost predicate LetsGo(p: PubKey, id: ChannelId, cs: seq<IncomingChannel>, out: seq<Action>, cs': seq<IncomingChannel>, out': seq<Action>) {
    && (forall a :: a in out' && Settles(a, p, id) ==> a in out || (Holds(cs, id) && !Holds(cs', id)))
    && (Holds(cs', id) ==> Holds(cs, id))
  }

  ghost predicate Turns(p: PubKey, id: ChannelId, t: Turn, t': Turn) {
    LetsGo(p, id, t.s.grant.channels, t.out, t'.s.grant.channels, t'.out)
  }

  lemma TurnsThen(p: PubKey, id: ChannelId, t: Turn, u: Turn, v: Turn)
    requires Turns(p, id, t, u) && Turns(p, id, u, v)
    ensures Turns(p, id, t, v)
  {
  }

  /** The ids the payer's own channels with this peer go by, or went by before the last purchase. */
  predicate Ours(b: Buyer, id: ChannelId) {
    || Named(b.active, id) || Named(b.next, id) || Named(b.pending, id)
    || (b.prior.Some? && (Named(b.prior.value.active, id) || Named(b.prior.value.next, id)))
  }

  predicate Named(c: Option<ChannelBuyer>, id: ChannelId) {
    c.Some? && c.value.id == id
  }

  lemma RefreshTurns(cfg: Config, peer: PubKey, id: ChannelId, t: Turn, now: Millis)
    ensures Turns(peer, id, t, Refresh(cfg, peer, t, now))
  {
    hide RateOf, AccessOf, BalanceOf, Find;
  }

  lemma PollBuyerTurns(cfg: Config, peer: PubKey, id: ChannelId, t: Turn, now: Millis)
    requires !Ours(t.s.buyer, id)
    ensures Turns(peer, id, t, PollBuyer(cfg, peer, t, now))
  {
    hide Poll, DemandOf, Find;
    var b := t.s.buyer.RetireExpiring(now, cfg.node.safetyMarginMs, cfg.node.SettleLeadMs());
    assert !Named(b.active, id) && !Named(b.next, id);
    if t.s.offer.Some? {
      var purchase := Poll(b, cfg.buying, DemandOf(t.s, t.s.offer.value.terms), now);
      if purchase.Some? {
        RetiresActive(b, purchase.value, now);
      }
    }
    hide Buyer.Record, Buyer.RetireExpiring;
  }

  lemma RetiresActive(b: Buyer, p: Purchase, now: Millis)
    ensures b.Record(p, now).1.Some? ==> b.active.Some? && b.Record(p, now).1.value == b.active.value.id
  {
    hide Buyer.Snapshot, SatAdd;
  }

  lemma RequestTurns(peer: PubKey, id: ChannelId, t: Turn, mintUrl: Text, capacity: u64, now: Millis)
    ensures Turns(peer, id, t, RequestFunding(peer, t, mintUrl, capacity, now))
  {
    hide Find;
  }

  lemma PollsTurn(cfg: Config, peer: PubKey, id: ChannelId, t: Turn, now: Millis)
    ensures Turns(peer, id, t, PollRollover(cfg, peer, t, now)) && Turns(peer, id, t, PollOpening(cfg, peer, t, now))
  {
    hide Buyer.RolloverDue, NodePolicy.GrownCapacity, Find;
  }

  // -- settling ---------------------------------------------------------------

  lemma {:induction false} SettlesOnlyNamed(p: PubKey, cs: seq<IncomingChannel>, ids: seq<ChannelId>)
    ensures forall a :: a in SettleEach(p, cs, ids).1 ==> a.SettleChannel? && a.channelId in ids
    decreases |ids|
  {
    if ids != [] {
      SettlesOnlyNamed(p, Remove(cs, ids[0]), ids[1..]);
      var out := SettleEach(p, cs, ids).1;
      assert forall a :: a in out ==> a == out[0] || a in out[1..];
      assert out[1..] == SettleEach(p, Remove(cs, ids[0]), ids[1..]).1;
    }
  }

  /** Channels settled are channels held, and are held no more. */
  lemma SettleTurns(peer: PubKey, id: ChannelId, t: Turn, ids: seq<ChannelId>)
    requires Distinct(t.s.grant.channels) && (id in ids ==> Holds(t.s.grant.channels, id))
    ensures Turns(peer, id, t, Settle(peer, t, ids))
    ensures Distinct(Settle(peer, t, ids).s.grant.channels)
  {
    var cs := t.s.grant.channels;
    SettlesOnlyNamed(peer, cs, ids);
    SettleEachAccounts(peer, cs, ids);
    hide SettleEach, Held, Settled;
  }

  lemma {:induction false} NamedAreHeld(cs: seq<IncomingChannel>, id: ChannelId, now: Millis, leadMs: u64)
    ensures id in Ids(cs) ==> Holds(cs, id)
    ensures id in ExpiringIds(cs, now, leadMs) ==> Holds(cs, id)
    ensures id in ExhaustedIds(cs) ==> Holds(cs, id)
  {
    if cs != [] {
      NamedAreHeld(cs[1..], id, now, leadMs);
    }
  }

  lemma DiscardTurns(peer: PubKey, id: ChannelId, t: Turn)
    requires Distinct(t.s.grant.channels)
    ensures Turns(peer, id, t, Discard(peer, t))
  {
    NamedAreHeld(t.s.grant.channels, id, 0, 0);
    SettleTurns(peer, id, t, Ids(t.s.grant.channels));
  }

  lemma SettleExpiringTurns(cfg: Config, peer: PubKey, id: ChannelId, t: Turn, now: Millis)
    requires Distinct(t.s.grant.channels)
    ensures Turns(peer, id, t, SettleExpiring(cfg, peer, t, now))
    ensures Distinct(SettleExpiring(cfg, peer, t, now).s.grant.channels)
  {
    NamedAreHeld(t.s.grant.channels, id, now, cfg.node.SettleLeadMs());
    SettleTurns(peer, id, t, ExpiringIds(t.s.grant.channels, now, cfg.node.SettleLeadMs()));
  }

  lemma {:induction false} CountingTurns(peer: PubKey, id: ChannelId, t: Turn, ids: seq<ChannelId>)
    requires Distinct(t.s.grant.channels)
    ensures Turns(peer, id, t, CountFailures(peer, t, ids)) && Distinct(CountFailures(peer, t, ids).s.grant.channels)
    decreases |ids|
  {
    if ids != [] {
      hide Find, Put, Settle, Distinct, LetsGo;
      var next := OneCountedTurns(peer, id, t, ids);
      CountingTurns(peer, id, next, ids[1..]);
      TurnsThen(peer, id, t, next, CountFailures(peer, t, ids));
    }
  }

  lemma OneCountedTurns(peer: PubKey, id: ChannelId, t: Turn, ids: seq<ChannelId>) returns (next: Turn)
    requires Distinct(t.s.grant.channels) && ids != []
    ensures CountFailures(peer, t, ids) == CountFailures(peer, next, ids[1..])
    ensures Turns(peer, id, t, next) && Distinct(next.s.grant.channels)
  {
    hide Find, Put, Settle, Distinct;
    var cs := t.s.grant.channels;
    var found := Find(cs, ids[0]);
    next := t;
    if found.Some? {
      var counted := found.value.(failures := Min(found.value.failures + 1, 0xFFFF_FFFF));
      PutKeepsDistinct(cs, counted);
      PutReads(cs, counted, id);
      PutReads(cs, counted, ids[0]);
      var raised := t.(s := t.s.(grant := t.s.grant.(channels := Put(cs, counted))));
      next := raised;
      if counted.failures >= MAX_VERIFICATION_FAILURES {
        SettleTurns(peer, id, raised, [ids[0]]);
        next := Settle(peer, raised, [ids[0]]);
        TurnsThen(peer, id, t, raised, next);
      }
    }
  }

  lemma OnUnverifiedTurns(cfg: Config, peer: PubKey, id: ChannelId, t: Turn, ids: seq<ChannelId>, now: Millis)
    requires Distinct(t.s.grant.channels)
    ensures Turns(peer, id, t, OnUnverified(cfg, peer, t, ids, now))
  {
    hide CountFailures, Refresh, Find, Distinct;
    var told := t.Does(Send(peer, MReject(TOPUP, GrantInvalid, None)));
    CountingTurns(peer, id, told, ids);
    RefreshTurns(cfg, peer, id, CountFailures(peer, told, ids), now);
    assert Turns(peer, id, t, told);
    TurnsThen(peer, id, t, told, CountFailures(peer, told, ids));
    TurnsThen(peer, id, t, CountFailures(peer, told, ids), OnUnverified(cfg, peer, t, ids, now));
  }

  // -- purchases ----------------------------------------------------------------

  lemma {:induction false} TurningHolds(cs: seq<IncomingChannel>, rs: seq<Ratchet>, id: ChannelId)
    ensures Holds(TurnRatchets(cs, rs), id) <==> Holds(cs, id)
    decreases |rs|
  {
    if rs != [] {
      hide Find, Put;
      var found := Find(cs, rs[0].id);
      if found.Some? {
        var turned := found.value.(signed := rs[0].cumulative, failures := 0);
        PutReads(cs, turned, id);
        TurningHolds(Put(cs, turned), rs[1..], id);
      } else {
        TurningHolds(cs, rs[1..], id);
      }
    }
  }

  lemma HonorTurns(peer: PubKey, id: ChannelId, t: Turn, m: TopUp, ratchets: seq<Ratchet>, grant: u64, now: Millis)
    requires Distinct(t.s.grant.channels)
    ensures Turns(peer, id, t, Honor(peer, t, m, ratchets, grant, now))
  {
    var applied := t.s.grant.Apply(ratchets, grant, m.windowMs, m.reservedRate, now);
    GrantProperties.ApplyChannels(t.s.grant, ratchets, grant, m.windowMs, m.reservedRate, now);
    TurnHolds(t.s.grant.channels, ratchets);
    TurningHolds(t.s.grant.channels, ratchets, id);
    hide Grant.Apply, TurnRatchets, Find, Distinct, BalanceOf, Grant.BudgetAt, Grant.IsLive, ExhaustedIds, Settle, Held;
    var recorded := t.(s := t.s.(grant := applied)).Does(RecordUpdates(peer, m.updates));
    NamedAreHeld(applied.channels, id, 0, 0);
    SettleTurns(peer, id, recorded, ExhaustedIds(applied.channels));
    assert Turns(peer, id, t, recorded);
    TurnsThen(peer, id, t, recorded, Settle(peer, recorded, ExhaustedIds(applied.channels)));
    assert Turns(peer, id, Settle(peer, recorded, ExhaustedIds(applied.channels)), Honor(peer, t, m, ratchets, grant, now));
    TurnsThen(peer, id, t, Settle(peer, recorded, ExhaustedIds(applied.channels)), Honor(peer, t, m, ratchets, grant, now));
  }

  lemma OnTopUpTurns(cfg: Config, peer: PubKey, id: ChannelId, t: Turn, m: TopUp, elsewhere: u64, now: Millis)
    requires Distinct(t.s.grant.channels)
    ensures Turns(peer, id, t, OnTopUp(cfg, peer, t, m, elsewhere, now))
  {
    hide Evaluate, Honor, OnUnverified, Refresh, NotIncreasing, Distinct, Find;
    if !t.s.grant.TooSoon(now, cfg.node.grants.minTopupGapMs) {
      var checked := t.(s := t.s.(grant := t.s.grant.TopupChecked(now)));
      var after := OnTopUp(cfg, peer, t, m, elsewhere, now);
      assert Turns(peer, id, t, checked);
      match Evaluate(checked.s.grant, Admission(cfg.node.grants, elsewhere), m.updates, m.windowMs, m.reservedRate)
      case Accept(ratchets, grant) =>
        HonorTurns(peer, id, checked, m, ratchets, grant, now);
        RefreshTurns(cfg, peer, id, Honor(peer, checked, m, ratchets, grant, now), now);
        TurnsThen(peer, id, checked, Honor(peer, checked, m, ratchets, grant, now), after);
        TurnsThen(peer, id, t, checked, after);
      case Refuse(reason, available) =>
        OnUnverifiedTurns(cfg, peer, id, checked, NotIncreasing(checked.s.grant.channels, m.updates, [], []), now);
        var told := checked.Does(Send(peer, MTopUpReject(TopUpReject(RefusedUpdates(m.updates), available, reason))));
        assert Turns(peer, id, checked, told);
        RefreshTurns(cfg, peer, id, told, now);
        TurnsThen(peer, id, checked, told, Refresh(cfg, peer, told, now));
        TurnsThen(peer, id, t, checked, after);
    }
  }

  // -- messages -----------------------------------------------------------------

  lemma OnOfferTurns(cfg: Config, peer: PubKey, id: ChannelId, t: Turn, m: Offer, now: Millis)
    requires !Ours(t.s.buyer, id)
    ensures Turns(peer, id, t, OnOffer(cfg, peer, t, m, now))
  {
    hide PollBuyer, Refresh, PollOpening, RequestFunding, Find;
    var taken := t.(s := TakeOffer(t.s, m));
    PollsTurn(cfg, peer, id, taken, now);
    if t.s.offer.None? {
      OpeningOfferTurns(cfg, peer, id, taken, m, now);
    }
    hide OnOpeningOffer;
    assert Turns(peer, id, t, taken);
    TurnsThen(peer, id, t, taken, OnOffer(cfg, peer, t, m, now));
  }

  lemma OpeningOfferTurns(cfg: Config, peer: PubKey, id: ChannelId, taken: Turn, m: Offer, now: Millis)
    requires !Ours(taken.s.buyer, id)
    ensures Turns(peer, id, taken, OnOpeningOffer(cfg, peer, taken, m, now))
  {
    hide PollBuyer, Refresh, RequestFunding, Find, Buyer.StartOver;
    var after := OnOpeningOffer(cfg, peer, taken, m, now);
    var refused := !m.noCharge && !cfg.buying.AcceptsWeight(m.fromPayerWeight);
    var u := if refused then
        taken.(s := taken.s.(refusedTerms := true)).Does(Send(peer, MReject(OFFER, FromPayerWeightUnacceptable, None)))
      else taken;
    var buying := !m.noCharge && !u.s.refusedTerms && cfg.buying.Buying();
    assert Turns(peer, id, taken, u);
    if u.s.buyer.active.Some? && u.s.keptByPeer && buying {
      var resumed := u.(s := u.s.(buyer := u.s.buyer.ForgetPending(), phase := Established));
      assert Turns(peer, id, u, resumed);
      RefreshTurns(cfg, peer, id, resumed, now);
      RefreshKeepsBuyer(cfg, peer, resumed, now);
      PollBuyerTurns(cfg, peer, id, Refresh(cfg, peer, resumed, now), now);
      TurnsThen(peer, id, taken, u, resumed);
      TurnsThen(peer, id, taken, resumed, Refresh(cfg, peer, resumed, now));
      TurnsThen(peer, id, taken, Refresh(cfg, peer, resumed, now), after);
    } else {
      var anew := u.(s := u.s.(buyer := u.s.buyer.StartOver()));
      var asked := if u.s.refusedTerms then anew
        else if m.acceptedMints != [] && buying then
          RequestFunding(peer, anew, m.acceptedMints[0], cfg.node.FirstChannelCapacity(), now)
        else anew.Does(Send(peer, MAccept([])));
      if m.acceptedMints != [] {
        RequestTurns(peer, id, anew, m.acceptedMints[0], cfg.node.FirstChannelCapacity(), now);
      }
      assert Turns(peer, id, u, anew) && Turns(peer, id, anew, asked);
      RefreshTurns(cfg, peer, id, asked, now);
      TurnsThen(peer, id, taken, u, anew);
      TurnsThen(peer, id, taken, anew, asked);
      TurnsThen(peer, id, taken, asked, after);
    }
  }

  lemma RefreshKeepsBuyer(cfg: Config, peer: PubKey, t: Turn, now: Millis)
    ensures Refresh(cfg, peer, t, now).s.buyer == t.s.buyer
  {
    hide RateOf, AccessOf, BalanceOf;
  }

  /** Confirms a channel of ours under this id. */
  predicate Confirms(msg: Message, id: ChannelId) {
    (msg.MChannelReady? && msg.channelId == id) || (msg.MRolloverReady? && msg.newChannelId == id)
  }

  /** The peer's own word that a channel is closed, or is to be. */
  predicate Closes(msg: Message, id: ChannelId) {
    (msg.MChannelClose? || msg.MCloseAck?) && msg.channelId == id
  }

  lemma OthersConfirmed(b: Buyer, other: ChannelId, id: ChannelId)
    requires !Ours(b, id) && other != id
    ensures !Ours(b.Confirmed(other), id)
  {
  }

  lemma RejectedNotOurs(b: Buyer, refused: seq<Ratchet>, reason: ReasonCode, rate: u64, now: Millis, holdMs: u64, id: ChannelId)
    requires !Ours(b, id)
    ensures !Ours(b.RecordReject(refused, reason, rate, now, holdMs), id)
  {
    hide Buyers.Holds;
  }

  lemma PolledMessageTurns(cfg: Config, peer: PubKey, id: ChannelId, t: Turn, msg: Message, elsewhere: u64, now: Millis)
    requires !Ours(t.s.buyer, id) && !Confirms(msg, id) && (msg.MChannelReady? || msg.MTopUpReject? || msg.MRolloverReady?)
    ensures Turns(peer, id, t, OnMessage(cfg, peer, t, msg, elsewhere, now))
  {
    hide PollBuyer, Buyer.RecordReject, Buyer.Confirmed, Ours, Find;
    var heard := t.(s := t.s.(lastSeen := now));
    match msg
    case MChannelReady(other) =>
      OthersConfirmed(t.s.buyer, other, id);
      var b := if heard.s.buyer.IsActive(other) then heard.s.buyer else heard.s.buyer.Confirmed(other);
      PollBuyerTurns(cfg, peer, id, heard.(s := heard.s.(buyer := b, keptByPeer := heard.s.keptByPeer || b.IsActive(other))), now);
    case MTopUpReject(m) =>
      RejectedNotOurs(t.s.buyer, ToRefused(m.refused), m.reason, m.maxReservedRate, now, cfg.buying.capHoldMs, id);
      PollBuyerTurns(cfg, peer, id, heard.(s := heard.s.(buyer :=
        heard.s.buyer.RecordReject(ToRefused(m.refused), m.reason, m.maxReservedRate, now, cfg.buying.capHoldMs))), now);
    case MRolloverReady(_, other) =>
      OthersConfirmed(t.s.buyer, other, id);
      PollBuyerTurns(cfg, peer, id, heard.(s := heard.s.(buyer := heard.s.buyer.Confirmed(other))), now);
  }

  lemma OnAcceptTurns(cfg: Config, peer: PubKey, id: ChannelId, t: Turn, funding: Bytes, now: Millis)
    requires Distinct(t.s.grant.channels)
    ensures Turns(peer, id, t, OnAccept(cfg, peer, t, funding, now))
  {
    hide Discard, Refresh, Find, Distinct;
    DiscardTurns(peer, id, t);
    RefreshTurns(cfg, peer, id, Discard(peer, t), now);
    assert Turns(peer, id, Discard(peer, t), OnAccept(cfg, peer, t, funding, now));
    TurnsThen(peer, id, t, Discard(peer, t), OnAccept(cfg, peer, t, funding, now));
  }

  lemma OnMessageTurns(cfg: Config, peer: PubKey, id: ChannelId, t: Turn, msg: Message, elsewhere: u64, now: Millis)
    requires Distinct(t.s.grant.channels) && !Ours(t.s.buyer, id) && !Confirms(msg, id) && !Closes(msg, id)
    ensures Turns(peer, id, t, OnMessage(cfg, peer, t, msg, elsewhere, now))
  {
    hide PollBuyer, Refresh, OnOffer, OnTopUp, OnAccept, Buyer.Confirmed, Buyer.RecordReject, Buyer.NoteBalance, ExpiryOf, Find, Distinct, Ours;
    var heard := t.(s := t.s.(lastSeen := now));
    match msg
    case MOffer(m) => OnOfferTurns(cfg, peer, id, heard, m, now);
    case MTopUp(m) => OnTopUpTurns(cfg, peer, id, heard, m, elsewhere, now);
    case MAccept(funding) => OnAcceptTurns(cfg, peer, id, heard, funding, now);
    case MChannelReady(_) => PolledMessageTurns(cfg, peer, id, t, msg, elsewhere, now);
    case MTopUpReject(_) => PolledMessageTurns(cfg, peer, id, t, msg, elsewhere, now);
    case MRolloverReady(_, _) => PolledMessageTurns(cfg, peer, id, t, msg, elsewhere, now);
    case _ =>
  }

  // -- everything else a session hears --------------------------------------------

  /** The id is none of our own channels with this peer, and this does not make it one. */
  predicate Apart(s: PeerSession, e: Event, id: ChannelId) {
    !Ours(s.buyer, id) && !(e.MessageReceived? && Confirms(e.msg, id))
  }

  lemma VerifiedTurns(cfg: Config, peer: PubKey, id: ChannelId, t: Turn, other: ChannelId, capacity: u64, expiresAt: Option<Millis>, now: Millis)
    requires other != id
    ensures Turns(peer, id, t, OnIncomingVerified(cfg, peer, t, other, capacity, expiresAt, now))
  {
    hide Refresh, FirstBesides, Find, Put;
    var replacing := FirstBesides(t.s.grant.channels, other);
    var msg := if replacing.Some? then MRolloverReady(replacing.value, other) else MChannelReady(other);
    var told := t.(s := t.s.(grant := t.s.grant.OpenChannel(other, capacity, expiresAt), phase := Established)).Does(Send(peer, msg));
    var found := Find(t.s.grant.channels, other);
    if found.Some? {
      PutReads(t.s.grant.channels, found.value.(capacity := capacity, expiresAt := expiresAt), id);
    } else {
      AppendReads(t.s.grant.channels, IncomingChannel(other, capacity, 0, 0, expiresAt), id);
    }
    assert Turns(peer, id, t, told);
    RefreshTurns(cfg, peer, id, told, now);
    TurnsThen(peer, id, t, told, Refresh(cfg, peer, told, now));
  }

  /** Only channels and actions matter to this. */
  lemma AsideTurns(peer: PubKey, id: ChannelId, t: Turn, u: Turn, v: Turn)
    requires u.s.grant.channels == t.s.grant.channels && Turns(peer, id, u, v)
    requires forall a :: a in u.out && Settles(a, peer, id) ==> a in t.out
    ensures Turns(peer, id, t, v)
  {
    hide Find;
  }

  lemma PolicyTurns(cfg: Config, peer: PubKey, id: ChannelId, t: Turn, policy: PeerPolicy, now: Millis)
    ensures Turns(peer, id, t, OnPolicy(cfg, peer, t, policy, now))
  {
    hide Refresh, OfferFor, Find;
    var changed := t.(s := t.s.(policy := policy));
    var told := if t.s.offerSent.Some? && t.s.offerSent.value != OfferFor(cfg, policy, t.s.weight)
      then SendOffer(peer, changed, OfferFor(cfg, policy, t.s.weight)) else changed;
    RefreshTurns(cfg, peer, id, told, now);
    AsideTurns(peer, id, t, told, Refresh(cfg, peer, told, now));
  }

  lemma FundedTurns(cfg: Config, peer: PubKey, id: ChannelId, t: Turn, e: Event, now: Millis)
    requires e.OutgoingChannelFunded?
    ensures Turns(peer, id, t, OnOutgoingFunded(cfg, peer, t, e.channelId, e.capacity, e.expiresAt, e.funding, now))
  {
    hide Refresh, Buyer.FundedWith, Find;
    var b := t.s.buyer.FundedWith(e.channelId, e.capacity, e.expiresAt);
    var msg := if b.active.Some? then MRolloverInit(b.active.value.id, e.funding) else MAccept(e.funding);
    var told := t.(s := t.s.(buyer := b)).Does(Send(peer, msg));
    RefreshTurns(cfg, peer, id, told, now);
    AsideTurns(peer, id, t, told, Refresh(cfg, peer, told, now));
  }

  lemma MeteredTurns(cfg: Config, peer: PubKey, id: ChannelId, t: Turn, counters: Counters, carried: bool, now: Millis)
    ensures Turns(peer, id, t, Refresh(cfg, peer, t.(s := OnMetered(t.s, counters, carried, now)), now))
  {
    hide Refresh, Grant.Draw, Grant.Pause, Buyer.Draw, Counters.Weighted, Find;
    var metered := t.(s := OnMetered(t.s, counters, carried, now));
    GrantProperties.DrawChannels(t.s.grant, counters.DeltaSince(t.s.meter).Weighted(t.s.weight), now);
    RefreshTurns(cfg, peer, id, metered, now);
    AsideTurns(peer, id, t, metered, Refresh(cfg, peer, metered, now));
  }

  /** Every event about a session, but a verification of this channel and the peer's word that it is closed. */
  lemma SessionTurns(n: Node, t: Turn, e: Event, elsewhere: u64, id: ChannelId, now: Millis)
    requires AboutOne(e) && Distinct(t.s.grant.channels) && Apart(t.s, e, id)
    requires !(e.MessageReceived? && Closes(e.msg, id)) && !(Verifies(n, e) && e.channelId == id)
    ensures Turns(e.peer, id, t, OnSession(n, t, e, elsewhere, now))
  {
    hide OnMessage, OnUnverified, OnOutgoingFunded, OnIncomingVerified, Refresh, PollBuyer, OnMetered, OnPolicy, Find, Distinct, Ours, Confirms, Closes;
    var cfg, peer := n.cfg, e.peer;
    match e
    case MessageReceived(_, msg) => OnMessageTurns(cfg, peer, id, t, msg, elsewhere, now);
    case TopUpSignatureInvalid(_, other) =>
      var heard := t.(s := t.s.(lastSeen := now, grant := t.s.grant.TopupChecked(now)));
      OnUnverifiedTurns(cfg, peer, id, heard, [other], now);
      AsideTurns(peer, id, t, heard, OnUnverified(cfg, peer, heard, [other], now));
    case OutgoingChannelFunded(_, request, other, capacity, expiresAt, funding) => FundedTurns(cfg, peer, id, t, e, now);
    case OutgoingFundingFailed(_, request) =>
    case IncomingFundingVerified(_, other, capacity, expiresAt, mintUrl) =>
      if Verifies(n, e) {
        VerifiedTurns(cfg, peer, id, t, other, capacity, expiresAt, now);
      }
    case IncomingFundingRejected(_, reason) =>
    case Metered(_, counters, carried) => MeteredTurns(cfg, peer, id, t, counters, carried, now);
    case DemandObserved(_, rate) => PollBuyerTurns(cfg, peer, id, t.(s := t.s.(demand := rate)), now);
    case PeerPolicySet(_, policy) => PolicyTurns(cfg, peer, id, t, policy, now);
  }

  lemma OnTickTurns(cfg: Config, peer: PubKey, id: ChannelId, t: Turn, now: Millis)
    requires Distinct(t.s.grant.channels) && !Ours(t.s.buyer, id)
    ensures Turns(peer, id, t, OnTick(cfg, peer, t, now))
  {
    hide SettleExpiring, Refresh, PollBuyer, PollRollover, PollOpening, Find, Distinct, Ours;
    var expired := t.(s := t.s.(grant := t.s.grant.ExpireIfDue(now)));
    var settled := SettleExpiring(cfg, peer, expired, now);
    SettleExpiringTurns(cfg, peer, id, expired, now);
    AsideTurns(peer, id, t, expired, settled);
    RefreshTurns(cfg, peer, id, settled, now);
    var shown := Refresh(cfg, peer, settled, now);
    TurnsThen(peer, id, t, settled, shown);
    RefreshKeepsBuyer(cfg, peer, settled, now);
    assert settled.s.buyer == t.s.buyer by { SettlingKeepsBuyer(cfg, peer, expired, now); }
    PollBuyerTurns(cfg, peer, id, shown, now);
    var bought := PollBuyer(cfg, peer, shown, now);
    TurnsThen(peer, id, t, shown, bought);
    PollsTurn(cfg, peer, id, bought, now);
    TurnsThen(peer, id, t, bought, PollRollover(cfg, peer, bought, now));
    PollsTurn(cfg, peer, id, PollRollover(cfg, peer, bought, now), now);
    TurnsThen(peer, id, t, PollRollover(cfg, peer, bought, now), OnTick(cfg, peer, t, now));
  }

  lemma SettlingKeepsBuyer(cfg: Config, peer: PubKey, t: Turn, now: Millis)
    ensures SettleExpiring(cfg, peer, t, now).s.buyer == t.s.buyer
  {
    hide SettleEach, ExpiringIds;
  }

  // ------------------------------------------------------------------------
  // Every event
  // ------------------------------------------------------------------------

  ghost predicate Courses(p: PubKey, id: ChannelId, c: Course, c': Course) {
    LetsGo(p, id, ChannelsOf(c.n, p), c.out, ChannelsOf(c'.n, p), c'.out)
  }

  lemma CoursesThen(p: PubKey, id: ChannelId, c: Course, d: Course, e: Course)
    requires Courses(p, id, c, d) && Courses(p, id, d, e)
    ensures Courses(p, id, c, e)
  {
  }

  /** Settlements only about another peer, and this one's channels as they were. */
  lemma OthersCourse(p: PubKey, id: ChannelId, c: Course, c': Course)
    requires ChannelsOf(c'.n, p) == ChannelsOf(c.n, p)
    requires forall a :: a in c'.out && a.SettleChannel? && a.peer == p ==> a in c.out
    ensures Courses(p, id, c, c')
  {
    hide Find;
  }

  lemma InstallCourse(p: PubKey, id: ChannelId, c: Course, t: Turn)
    requires p !in c.n.parked && LetsGo(p, id, ChannelsOf(c.n, p), [], t.s.grant.channels, t.out)
    ensures Courses(p, id, c, Install(c, p, t))
  {
    hide Find;
  }

  lemma NotingCourse(p: PubKey, id: ChannelId, c: Course, now: Millis)
    requires NodeSound(c.n)
    ensures Courses(p, id, c, NoteSent(c, now))
  {
    NoteSentCarries(c, now);
    OthersCourse(p, id, c, NoteSent(c, now));
  }

  lemma OnPeerCourse(n: Node, e: Event, p: PubKey, id: ChannelId, now: Millis)
    requires NodeSound(n) && AboutOne(e)
    requires e.peer == p && p in n.peers ==> Apart(n.peers[p], e, id) && !(e.MessageReceived? && Closes(e.msg, id)) && !(Verifies(n, e) && e.channelId == id)
    ensures Courses(p, id, Course(n, []), OnPeer(n, e.peer, e, now))
  {
    hide OnSession, ReservedElsewhere, Find, Apart, Closes;
    var start, c := Course(n, []), OnPeer(n, e.peer, e, now);
    if e.peer !in n.peers {
      OthersCourse(p, id, start, c);
    } else {
      SoundPeer(n, e.peer);
      var t, elsewhere := Nodes.Enter(n, e.peer), ReservedElsewhere(n, e.peer);
      if e.peer == p {
        SessionTurns(n, t, e, elsewhere, id, now);
        InstallCourse(p, id, start, OnSession(n, t, e, elsewhere, now));
      } else {
        AboutThatPeer(n, t, e, elsewhere, now);
        OthersCourse(p, id, start, c);
      }
    }
  }

  // -- letting a session go ---------------------------------------------------------

  lemma LetGoSettles(p: PubKey, id: ChannelId, s: PeerSession, now: Millis)
    requires Sound(s)
    ensures forall a :: a in LetGo(p, s, now) && a.SettleChannel? ==> a.peer == p
    ensures forall a :: a in LetGo(p, s, now) && Settles(a, p, id) ==> Holds(s.grant.channels, id)
  {
    var saved := Save(p, Turn(s, 0, []), now);
    hide Find;
    DiscardTurns(p, id, saved);
    DiscardIsOrdinary(p, saved, now);
  }

  lemma DiscardSettles(p: PubKey, id: ChannelId, t: Turn, now: Millis)
    requires Distinct(t.s.grant.channels)
    ensures Discard(p, t).s.grant.channels == []
    ensures forall a :: a in Discard(p, t).out && a.SettleChannel? && a !in t.out ==> a.peer == p
    ensures forall a :: a in Discard(p, t).out && Settles(a, p, id) ==> a in t.out || Holds(t.s.grant.channels, id)
  {
    DiscardTurns(p, id, t);
    DiscardIsOrdinary(p, t, now);
    hide Discard, Find;
  }

  lemma ParkCourse(c: Course, peer: PubKey, p: PubKey, id: ChannelId, now: Millis)
    requires NodeSound(c.n) && peer in c.n.peers
    ensures Courses(p, id, c, ParkPeer(c, peer, now))
  {
    var s := c.n.peers[peer];
    var t := Park(peer, Turn(s, c.n.nextRequest, []), now);
    SoundPeer(c.n, peer);
    EndReservationRests(s);
    hide Grant.EndReservation, Find, Grant.BudgetAt;
    DiscardSettles(peer, id, t, now);
    hide Discard;
    if peer != p {
      OthersCourse(p, id, c, ParkPeer(c, peer, now));
    }
  }

  lemma DisconnectCourse(n: Node, peer: PubKey, p: PubKey, id: ChannelId, now: Millis)
    requires NodeSound(n)
    ensures Courses(p, id, Course(n, []), Disconnect(n, peer, now))
  {
    hide Find, LetGo, ParkPeer;
    if peer in n.peers {
      SoundPeer(n, peer);
      if n.peers[peer].phase.Closing? {
        LetGoSettles(peer, id, n.peers[peer], now);
      } else {
        ParkCourse(Course(n, []), peer, p, id, now);
      }
    }
  }

  lemma ForgetCourse(n: Node, peer: PubKey, p: PubKey, id: ChannelId, now: Millis)
    requires NodeSound(n)
    ensures Courses(p, id, Course(n, []), Forget(n, peer, now))
  {
    hide Find, LetGo;
    if peer in n.peers {
      SoundPeer(n, peer);
      LetGoSettles(peer, id, n.peers[peer], now);
    }
    if peer in n.parked {
      assert Resting(n.parked[peer].session);
      LetGoSettles(peer, id, n.parked[peer].session, now);
    }
  }

  // -- connecting -------------------------------------------------------------------

  lemma {:induction false} ClearingHolds(cs: seq<IncomingChannel>, id: ChannelId)
    ensures Holds(ClearFailures(cs), id) <==> Holds(cs, id)
  {
    GrantProperties.ClearedReads(cs, id);
  }

  lemma BeginSettles(cfg: Config, p: PubKey, id: ChannelId, policy: PeerPolicy, kept: Option<PeerSession>, budget: Option<Budget>, now: Millis, next: u64)
    requires kept.Some? ==> Sound(kept.value)
    ensures var t := Begin(cfg, p, policy, kept, budget, now, next);
      && LetsGo(p, id, if kept.Some? then kept.value.grant.channels else [], [], t.s.grant.channels, t.out)
      && forall a :: a in t.out && a.SettleChannel? ==> a.peer == p
  {
    if kept.Some? {
      var resumed := Turn(kept.value.Resume(policy, now), next, []);
      RestartIsSound(kept.value.grant, now);
      GrantProperties.RestartChannels(kept.value.grant, now);
      ClearingHolds(kept.value.grant.channels, id);
      hide Grant.Restart, Buyer.Restart, Find, ClearFailures;
      SettleExpiringTurns(cfg, p, id, resumed, now);
      SettleExpiringIsOrdinary(cfg, p, resumed, now);
      hide SettleExpiring;
    }
  }

  lemma GreetSettlesNone(cfg: Config, peer: PubKey, policy: PeerPolicy, t: Turn, now: Millis)
    ensures forall a :: a in Greet(cfg, peer, policy, t, now).out && a.SettleChannel? ==> a in t.out
  {
    ReadiesAreSent(peer, Ids(t.s.grant.channels));
    hide Readies, BalanceOf, OfferFor, AccessOf, RateOf, Ids;
  }

  lemma EndedSettles(n: Node, peer: PubKey, id: ChannelId, now: Millis)
    requires NodeSound(n)
    ensures var (kept, ended) := Kept(n, peer, now);
      && (forall a :: a in ended && a.SettleChannel? ==> a.peer == peer)
      && (kept.Some? ==> forall a :: a in ended ==> !Settles(a, peer, id))
      && forall a :: a in ended && Settles(a, peer, id) ==> Holds(ChannelsOf(n, peer), id)
  {
    hide Find, LetGo, Discard;
    if peer in n.peers {
      SoundPeer(n, peer);
      LetGoSettles(peer, id, n.peers[peer], now);
    } else if peer in n.parked {
      assert Resting(n.parked[peer].session);
      DiscardSettles(peer, id, Turn(n.parked[peer].session, 0, []), now);
    }
  }

  lemma ConnectCourse(n: Node, peer: PubKey, budget: Option<Budget>, p: PubKey, id: ChannelId, now: Millis)
    requires NodeSound(n)
    ensures Courses(p, id, Course(n, []), Connect(n, peer, budget, now))
  {
    hide Kept, Begin, Greet, Find, Held, Settled;
    var policy := PolicyFor(n, peer);
    if !policy.blocked {
      var (kept, ended) := Kept(n, peer, now);
      var begun := Begin(n.cfg, peer, policy, kept, budget, now, n.nextRequest);
      var greeted := Greet(n.cfg, peer, policy, begun, now);
      var c := Connect(n, peer, budget, now);
      assert c == Install(Course(Cleared(n, peer), ended), peer, greeted);
      KeptAccounts(n, peer, now);
      EndedSettles(n, peer, id, now);
      BeginSettles(n.cfg, peer, id, policy, kept, budget, now, n.nextRequest);
      GreetLeavesGrant(n.cfg, peer, policy, begun, now);
      GreetSettlesNone(n.cfg, peer, policy, begun, now);
      hide Connect;
      if peer != p {
        OthersCourse(p, id, Course(n, []), c);
      } else if kept.None? {
        NothingHeld(id);
      }
    }
  }

  lemma NothingHeld(id: ChannelId)
    ensures !Holds([], id)
  {
  }

  // -- every peer in turn -------------------------------------------------------------

  ghost predicate NotOurs(n: Node, p: PubKey, id: ChannelId) {
    p in n.peers ==> !Ours(n.peers[p].buyer, id)
  }

  lemma TickPeerCourse(c: Course, peer: PubKey, p: PubKey, id: ChannelId, now: Millis)
    requires NodeSound(c.n) && (peer == p ==> NotOurs(c.n, p, id))
    ensures Courses(p, id, c, TickPeer(c, peer, now))
    ensures peer != p ==> (NotOurs(c.n, p, id) ==> NotOurs(TickPeer(c, peer, now).n, p, id))
  {
    hide OnTick, Find, Ours, Park, Discard;
    if peer in c.n.peers {
      SoundPeer(c.n, peer);
      if Stale(c.n.cfg, c.n.peers[peer], now) {
        ParkCourse(c, peer, p, id, now);
      } else if peer == p {
        OnTickTurns(c.n.cfg, p, id, Nodes.Enter(c.n, p), now);
        InstallCourse(p, id, c, OnTick(c.n.cfg, p, Nodes.Enter(c.n, p), now));
      } else {
        OnTickIsOrdinary(c.n.cfg, peer, Nodes.Enter(c.n, peer), now);
        OthersCourse(p, id, c, TickPeer(c, peer, now));
      }
    }
  }

  lemma {:induction false} TickPeersCourse(c: Course, order: seq<PubKey>, p: PubKey, id: ChannelId, now: Millis)
    requires NodeSound(c.n) && (p in order ==> NotOurs(c.n, p, id))
    requires forall i, j :: 0 <= i < j < |order| ==> order[i] != order[j]
    ensures Courses(p, id, c, TickPeers(c, order, now))
    decreases |order|
  {
    if order != [] {
      var d := TickPeer(c, order[0], now);
      TickPeerCourse(c, order[0], p, id, now);
      TickPeerCarries(c, order[0], now);
      CarriesIsSound(c, d);
      assert order[0] !in order[1..];
      hide TickPeer, NodeSound, Carries, Courses, NotOurs;
      TickPeersCourse(d, order[1..], p, id, now);
      CoursesThen(p, id, c, d, TickPeers(c, order, now));
    } else {
      OthersCourse(p, id, c, c);
    }
  }

  lemma ParkedOneCourse(c: Course, peer: PubKey, p: PubKey, id: ChannelId, now: Millis)
    requires NodeSound(c.n)
    ensures Courses(p, id, c, ExpireParked(c, peer, now)) && Courses(p, id, c, SettleParked(c, peer, now))
    ensures Courses(p, id, c, WindDownParked(c, peer, now))
  {
    hide Find, Discard, SettleExpiring, LetGo;
    if peer in c.n.parked {
      var s := c.n.parked[peer].session;
      assert Resting(s);
      DiscardSettles(peer, id, Turn(s, 0, []), now);
      SettleExpiringTurns(c.n.cfg, peer, id, Turn(s, 0, []), now);
      SettleExpiringIsOrdinary(c.n.cfg, peer, Turn(s, 0, []), now);
      LetGoSettles(peer, id, s, now);
      NothingHeld(id);
      if peer != p {
        OthersCourse(p, id, c, ExpireParked(c, peer, now));
        OthersCourse(p, id, c, SettleParked(c, peer, now));
        OthersCourse(p, id, c, WindDownParked(c, peer, now));
      }
    } else {
      OthersCourse(p, id, c, c);
    }
  }

  lemma {:induction false} ExpireAllCourse(c: Course, order: seq<PubKey>, p: PubKey, id: ChannelId, now: Millis)
    requires NodeSound(c.n)
    ensures Courses(p, id, c, ExpireAllParked(c, order, now))
    decreases |order|
  {
    if order == [] {
      OthersCourse(p, id, c, c);
    } else {
      var d := ExpireParked(c, order[0], now);
      ParkedOneCourse(c, order[0], p, id, now);
      ExpireParkedCarries(c, order[0], now);
      CarriesIsSound(c, d);
      hide ExpireParked, NodeSound, Carries, Courses;
      ExpireAllCourse(d, order[1..], p, id, now);
      CoursesThen(p, id, c, d, ExpireAllParked(c, order, now));
    }
  }

  lemma {:induction false} SettleAllCourse(c: Course, order: seq<PubKey>, p: PubKey, id: ChannelId, now: Millis)
    requires NodeSound(c.n)
    ensures Courses(p, id, c, SettleAllParked(c, order, now))
    decreases |order|
  {
    if order == [] {
      OthersCourse(p, id, c, c);
    } else {
      var d := SettleParked(c, order[0], now);
      ParkedOneCourse(c, order[0], p, id, now);
      SettleParkedCarries(c, order[0], now);
      CarriesIsSound(c, d);
      hide SettleParked, NodeSound, Carries, Courses;
      SettleAllCourse(d, order[1..], p, id, now);
      CoursesThen(p, id, c, d, SettleAllParked(c, order, now));
    }
  }

  lemma {:induction false} KeepAllAliveCourse(c: Course, order: seq<PubKey>, p: PubKey, id: ChannelId, now: Millis)
    requires NodeSound(c.n)
    ensures Courses(p, id, c, KeepAllAlive(c, order, now))
    decreases |order|
  {
    if order == [] {
      OthersCourse(p, id, c, c);
    } else {
      var d := KeepAlive(c, order[0], now);
      OthersCourse(p, id, c, d);
      assert NodeSound(d.n);
      hide KeepAlive, NodeSound, Courses;
      KeepAllAliveCourse(d, order[1..], p, id, now);
      CoursesThen(p, id, c, d, KeepAllAlive(c, order, now));
    }
  }

  lemma TickCourse(n: Node, order: seq<PubKey>, p: PubKey, id: ChannelId, now: Millis)
    requires NodeSound(n) && Visits(order, n) && NotOurs(n, p, id)
    ensures Courses(p, id, Course(n, []), Ticked(n, order, now))
  {
    var start := Course(n, []);
    var ticked := TickPeers(start, order, now);
    var expired := ExpireAllParked(ticked, order, now);
    var settled := SettleAllParked(expired, order, now);
    var noted := NoteSent(settled, now);
    hide NodeSound, Carries, Courses, TickPeers, ExpireAllParked, SettleAllParked, NoteSent, KeepAllAlive, NotOurs;
    TickPeersCourse(start, order, p, id, now);
    TickPeersCarry(start, order, now);
    CarriesIsSound(start, ticked);
    ExpireAllCourse(ticked, order, p, id, now);
    ExpireAllParkedCarries(ticked, order, now);
    CarriesIsSound(ticked, expired);
    SettleAllCourse(expired, order, p, id, now);
    SettleAllParkedCarries(expired, order, now);
    CarriesIsSound(expired, settled);
    NotingCourse(p, id, settled, now);
    NoteSentCarries(settled, now);
    CarriesIsSound(settled, noted);
    KeepAllAliveCourse(noted, order, p, id, now);
    CoursesThen(p, id, start, ticked, expired);
    CoursesThen(p, id, start, expired, settled);
    CoursesThen(p, id, start, settled, noted);
    CoursesThen(p, id, start, noted, KeepAllAlive(noted, order, now));
  }

  lemma WindDownOneCourse(c: Course, peer: PubKey, p: PubKey, id: ChannelId, now: Millis)
    requires NodeSound(c.n)
    ensures Courses(p, id, c, WindDownPeer(c, peer, now))
  {
    hide Find, Discard, Grant.BudgetAt;
    if peer in c.n.peers {
      SoundPeer(c.n, peer);
      var saved := Save(peer, Close(Nodes.Enter(c.n, peer)), now);
      DiscardSettles(peer, id, saved, now);
      NothingHeld(id);
      if peer != p {
        OthersCourse(p, id, c, WindDownPeer(c, peer, now));
      }
    } else {
      OthersCourse(p, id, c, c);
    }
  }

  lemma {:induction false} WindDownCourse(c: Course, order: seq<PubKey>, p: PubKey, id: ChannelId, now: Millis)
    requires NodeSound(c.n)
    ensures Courses(p, id, c, WindDownPeers(c, order, now))
    decreases |order|
  {
    if order == [] {
      OthersCourse(p, id, c, c);
    } else {
      var d := WindDownPeer(c, order[0], now);
      WindDownOneCourse(c, order[0], p, id, now);
      WindDownPeerCarries(c, order[0], now);
      CarriesIsSound(c, d);
      hide WindDownPeer, NodeSound, Carries, Courses;
      WindDownCourse(d, order[1..], p, id, now);
      CoursesThen(p, id, c, d, WindDownPeers(c, order, now));
    }
  }

  lemma {:induction false} WindDownParkedCourse(c: Course, order: seq<PubKey>, p: PubKey, id: ChannelId, now: Millis)
    requires NodeSound(c.n)
    ensures Courses(p, id, c, WindDownAllParked(c, order, now))
    decreases |order|
  {
    if order == [] {
      OthersCourse(p, id, c, c);
    } else {
      var d := WindDownParked(c, order[0], now);
      ParkedOneCourse(c, order[0], p, id, now);
      assert NodeSound(d.n) by { hide LetGo; }
      hide WindDownParked, NodeSound, Courses;
      WindDownParkedCourse(d, order[1..], p, id, now);
      CoursesThen(p, id, c, d, WindDownAllParked(c, order, now));
    }
  }

  // ------------------------------------------------------------------------
  // Settled once
  // ------------------------------------------------------------------------

  ghost predicate HeldBy(n: Node, p: PubKey, id: ChannelId) {
    Holds(ChannelsOf(n, p), id)
  }

  ghost predicate SettledIn(out: seq<Action>, p: PubKey, id: ChannelId) {
    exists a :: a in out && Settles(a, p, id)
  }

  /** A live peer says that this channel is closed, or is to be. */
  ghost predicate SaysClosed(n: Node, e: Event, p: PubKey, id: ChannelId) {
    e.MessageReceived? && e.peer == p && p in n.peers && Closes(e.msg, id)
  }

  /** The id names one channel: none of our own with this peer, and none of those being confirmed. */
  ghost predicate OneChannel(n: Node, e: Event, p: PubKey, id: ChannelId) {
    NotOurs(n, p, id) && !(e.MessageReceived? && e.peer == p && Confirms(e.msg, id))
  }

  ghost predicate Opens(n: Node, e: Event, p: PubKey, id: ChannelId) {
    VerifiesFor(n, e, p) && e.channelId == id
  }

  lemma StepCourse(n: Node, e: Event, p: PubKey, id: ChannelId, now: Millis)
    requires NodeSound(n) && Possible(n, e) && OneChannel(n, e, p, id) && !SaysClosed(n, e, p, id) && !Opens(n, e, p, id)
    ensures Courses(p, id, Course(n, []), Step(n, e, now))
  {
    var start := Course(n, []);
    hide NodeSound, Courses, NoteSent, OnPeer, Connect, Disconnect, Forget, Ticked, WindDownPeers, WindDownAllParked, ChannelsOf, Ours, Closes, Confirms, Carries;
    match e
    case PeerConnected(peer, budget) =>
      ConnectCourse(n, peer, budget, p, id, now);
      ConnectCarries(n, peer, budget, now);
      NotedCourse(p, id, start, Connect(n, peer, budget, now), now);
    case PeerDisconnected(peer) =>
      DisconnectCourse(n, peer, p, id, now);
      DisconnectCarries(n, peer, now);
      NotedCourse(p, id, start, Disconnect(n, peer, now), now);
    case Tick(order) => TickCourse(n, order, p, id, now);
    case Forgotten(peer) => ForgetCourse(n, peer, p, id, now);
    case ShutDown(order) =>
      var c := WindDownPeers(start, order, now);
      WindDownCourse(start, order, p, id, now);
      WindDownPeersCarry(start, order, now);
      CarriesIsSound(start, c);
      WindDownParkedCourse(c, order, p, id, now);
      CoursesThen(p, id, start, c, WindDownAllParked(c, order, now));
    case BuyerPolicySet(buying) => SameChannelsCourse(n, Step(n, e, now), p, id);
    case PeerPolicySet(peer, policy) =>
      var m := n.(overrides := n.overrides[peer := policy]);
      OverridesKeepSound(n, m);
      OnPeerCourse(m, e, p, id, now);
      OnPeerSound(m, e, now);
      SameStart(p, id, m, n, OnPeer(m, peer, e, now));
      NotedCourse(p, id, start, OnPeer(m, peer, e, now), now);
    case _ =>
      OnPeerCourse(n, e, p, id, now);
      OnPeerSound(n, e, now);
      NotedCourse(p, id, start, OnPeer(n, e.peer, e, now), now);
  }

  lemma NotedCourse(p: PubKey, id: ChannelId, start: Course, c: Course, now: Millis)
    requires Courses(p, id, start, c) && (NodeSound(c.n) || Carries(start, c))
    ensures Courses(p, id, start, NoteSent(c, now))
  {
    hide Courses, NoteSent;
    NotingCourse(p, id, c, now);
    CoursesThen(p, id, start, c, NoteSent(c, now));
  }

  lemma SameChannelsCourse(n: Node, c: Course, p: PubKey, id: ChannelId)
    requires c.n.peers == n.peers && c.n.parked == n.parked && c.out == []
    ensures Courses(p, id, Course(n, []), c)
  {
  }

  lemma SameStart(p: PubKey, id: ChannelId, m: Node, n: Node, c: Course)
    requires m.peers == n.peers && m.parked == n.parked && Courses(p, id, Course(m, []), c)
    ensures Courses(p, id, Course(n, []), c)
  {
  }

  /** The peer's word has the host settle, and changes nothing that is held. */
  lemma SaysClosedCourse(n: Node, e: Event, p: PubKey, id: ChannelId, now: Millis)
    requires NodeSound(n) && SaysClosed(n, e, p, id)
    ensures var c := Step(n, e, now); ChannelsOf(c.n, p) == ChannelsOf(n, p) && SettledIn(c.out, p, id)
  {
    hide NoteSent, ReservedElsewhere, Find, ExpiryOf;
    var t := Nodes.Enter(n, p);
    var after := OnSession(n, t, e, ReservedElsewhere(n, p), now);
    var c := Install(Course(n, []), p, after);
    assert after.s.grant == t.s.grant && after.out[|after.out| - 1] == SettleChannel(p, id, ExpiryOf(t.s.(lastSeen := now), id));
    assert c.out == after.out && Settles(after.out[|after.out| - 1], p, id);
    assert NodeSound(c.n) by { SoundPeer(n, p); }
    NoteSentCarries(c, now);
    assert NoteSent(c, now).out == c.out by { NotedOut(c, now); }
  }

  lemma NotedOut(c: Course, now: Millis)
    ensures NoteSent(c, now).out == c.out
  {
  }

  /** A verification settles nothing. */
  lemma OpeningSettlesNone(n: Node, e: Event, p: PubKey, id: ChannelId, now: Millis)
    requires Opens(n, e, p, id)
    ensures !SettledIn(Step(n, e, now).out, p, id)
  {
    hide NoteSent, ReservedElsewhere, Find, Refresh, FirstBesides, Put;
    var t := Nodes.Enter(n, p);
    var replacing := FirstBesides(t.s.grant.channels, id);
    var msg := if replacing.Some? then MRolloverReady(replacing.value, id) else MChannelReady(id);
    var told := t.(s := t.s.(grant := t.s.grant.OpenChannel(id, e.capacity, e.expiresAt), phase := Established)).Does(Send(p, msg));
    RefreshSettlesNone(n.cfg, p, told, now);
    var after := Refresh(n.cfg, p, told, now);
    assert OnSession(n, t, e, ReservedElsewhere(n, p), now) == after;
    var c := Install(Course(n, []), p, after);
    assert c.out == after.out;
    NotedOut(c, now);
  }

  lemma RefreshSettlesNone(cfg: Config, peer: PubKey, t: Turn, now: Millis)
    ensures forall a :: a in Refresh(cfg, peer, t, now).out && a.SettleChannel? ==> a in t.out
  {
    hide RateOf, AccessOf, BalanceOf;
  }

  /**
    A channel the node is paid on and asks the host to settle is let go with it, exactly unless that
    answers the peer's own ChannelClose or CloseAck.
   */
  lemma SettledIsGoneIff(n: Node, e: Event, p: PubKey, id: ChannelId, now: Millis)
    requires NodeSound(n) && Possible(n, e) && OneChannel(n, e, p, id)
    requires HeldBy(n, p, id) && SettledIn(Step(n, e, now).out, p, id)
    ensures HeldBy(Step(n, e, now).n, p, id) <==> SaysClosed(n, e, p, id)
  {
    hide Step, NodeSound, OneChannel, SaysClosed, Opens, Find;
    if SaysClosed(n, e, p, id) {
      SaysClosedCourse(n, e, p, id, now);
    } else if Opens(n, e, p, id) {
      OpeningSettlesNone(n, e, p, id, now);
      assert false;
    } else {
      StepCourse(n, e, p, id, now);
    }
  }

  // -- and never again ------------------------------------------------------------

  ghost predicate Names(e: Event, id: ChannelId) {
    e.MessageReceived? && e.msg.MTopUp? && exists u :: u in e.msg.topup.updates && u.channelId == id
  }

  /** A run in which the id goes on naming one channel, and the host does not verify it again. */
  ghost predicate NotReopened(n: Node, es: seq<(Event, Millis)>, p: PubKey, id: ChannelId)
    decreases |es|
  {
    es == [] ||
    var (e, now) := es[0];
    Possible(n, e) && OneChannel(n, e, p, id) && !Opens(n, e, p, id) && NotReopened(Step(n, e, now).n, es[1..], p, id)
  }

  /** Nothing more is sold on the channel, and nothing settles it but the peer's own word. */
  ghost predicate DoneWith(n: Node, es: seq<(Event, Millis)>, p: PubKey, id: ChannelId)
    decreases |es|
  {
    es == [] ||
    var (e, now) := es[0];
    var c := Step(n, e, now);
    && !(Purchases(n, e, p, now) && Names(e, id))
    && (SettledIn(c.out, p, id) <==> SaysClosed(n, e, p, id))
    && DoneWith(c.n, es[1..], p, id)
  }

  lemma PurchaseNamesHeld(n: Node, e: Event, p: PubKey, id: ChannelId, now: Millis)
    requires Purchases(n, e, p, now) && Names(e, id)
    ensures HeldBy(n, p, id)
  {
    PurchaseRatchets(n, e, p, now);
    GrantProperties.RatchetsWithin(ChannelsOf(n, p), e.msg.topup.updates);
    hide Find, Purchases;
    var u :| u in e.msg.topup.updates && u.channelId == id;
    RatchetRaises(ChannelsOf(n, p), u);
  }

  lemma GoneStaysGone(n: Node, e: Event, p: PubKey, id: ChannelId, now: Millis)
    requires NodeSound(n) && Possible(n, e) && OneChannel(n, e, p, id) && !Opens(n, e, p, id) && !HeldBy(n, p, id)
    ensures !HeldBy(Step(n, e, now).n, p, id)
    ensures SettledIn(Step(n, e, now).out, p, id) <==> SaysClosed(n, e, p, id)
    ensures !(Purchases(n, e, p, now) && Names(e, id))
  {
    hide Step, NodeSound, OneChannel, SaysClosed, Opens, Find, Purchases;
    if SaysClosed(n, e, p, id) {
      SaysClosedCourse(n, e, p, id, now);
    } else {
      StepCourse(n, e, p, id, now);
    }
    if Purchases(n, e, p, now) && Names(e, id) {
      PurchaseNamesHeld(n, e, p, id, now);
    }
  }

  /** The book on a channel that is not held does not move. */
  lemma BookStays(book: Book, n: Node, e: Event, p: PubKey, id: ChannelId, now: Millis)
    requires NodeSound(n) && Possible(n, e) && !(Purchases(n, e, p, now) && Names(e, id))
    ensures At(Recorded(book, Step(n, e, now).out, p), id) == At(book, id)
  {
    hide Step, NodeSound, Purchases, Recorded, Entered;
    StepSigns(n, e, p, now);
    if Purchases(n, e, p, now) {
      PurchaseRatchets(n, e, p, now);
      OneForHim(book, Step(n, e, now).out, p, e.msg.topup.updates);
      EnterReads(book, e.msg.topup.updates, id);
    } else {
      NoneForHim(book, Step(n, e, now).out, p);
    }
  }

  lemma {:induction false} GoneForGood(book: Book, n: Node, es: seq<(Event, Millis)>, p: PubKey, id: ChannelId)
    requires NodeSound(n) && !HeldBy(n, p, id) && NotReopened(n, es, p, id)
    ensures DoneWith(n, es, p, id) && !HeldBy(NodeCapacity.Run(n, es), p, id)
    ensures At(BookAfter(book, n, es, p), id) == At(book, id)
    decreases |es|
  {
    if es != [] {
      var (e, now) := es[0];
      hide Step, NodeSound, HeldBy, Purchases, Names, SettledIn, SaysClosed, OneChannel, Opens, Recorded, NoneDropped;
      GoneStaysGone(n, e, p, id, now);
      BookStays(book, n, e, p, id, now);
      NoEarningsDropped(n, e, now);
      GoneForGood(Recorded(book, Step(n, e, now).out, p), Step(n, e, now).n, es[1..], p, id);
    }
  }

  /**
    So a channel is settled for good. Once the host is asked to settle it, but for the peer's own word,
    then over any run nothing more is sold on it, what is on record for it stays what it was, and nothing
    but that word has it settled again: what the host claims by the first settlement is all that was sold.
   */
  lemma SettledForGood(book: Book, n: Node, e: Event, now: Millis, es: seq<(Event, Millis)>, p: PubKey, id: ChannelId)
    requires NodeSound(n) && Possible(n, e) && OneChannel(n, e, p, id) && HeldBy(n, p, id)
    requires SettledIn(Step(n, e, now).out, p, id) && !SaysClosed(n, e, p, id)
    requires NotReopened(Step(n, e, now).n, es, p, id)
    ensures DoneWith(Step(n, e, now).n, es, p, id)
    ensures At(BookAfter(book, Step(n, e, now).n, es, p), id) == At(book, id)
  {
    hide Step, NodeSound, HeldBy, SettledIn, SaysClosed, OneChannel, NotReopened, DoneWith, BookAfter;
    SettledIsGoneIff(n, e, p, id, now);
    NoEarningsDropped(n, e, now);
    GoneForGood(book, Step(n, e, now).n, es, p, id);
  }
}
