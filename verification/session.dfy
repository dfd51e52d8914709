/**
  One peer's session: everything held about it, and what each thing that happens to it does, as a
  function from the session to the session after and the actions the host is asked to carry out.
 */
module Sessions {
  import opened Numbers
  import opened Wrappers
  import opened Wire
  import opened Limits
  import opened Grants
  import opened Buyers

  // ------------------------------------------------------------------------
  // Policy
  // ------------------------------------------------------------------------

  datatype NodePolicy = NodePolicy(unit: Text, acceptedMints: seq<Text>, fromPayerWeight: u16, minimumFlow: u64,
                                   grants: GrantPolicy, burst: BurstPolicy, tickMs: u64, initialChannelCapacity: u64,
                                   minChannelCapacity: u64, maxChannelCapacity: u64, capacityGrowthPct: u32,
                                   safetyMarginMs: u64, staleTimeoutMs: u64, rolloverThresholdPct: byte)
  {
    function ClampCapacity(capacity: u64): u64 {
      Min(Max(capacity, minChannelCapacity), maxChannelCapacity)
    }

    function FirstChannelCapacity(): u64 {
      ClampCapacity(initialChannelCapacity)
    }

    function GrownCapacity(capacity: u64): u64 {
      ClampCapacity(Saturate(capacity * capacityGrowthPct / 100))
    }

    function KeepaliveIntervalMs(): u64 {
      Max((if staleTimeoutMs == 0 then 60_000 else staleTimeoutMs) / 3, 1)
    }

    function SettleLeadMs(): u64 {
      safetyMarginMs / 2
    }
  }

  datatype PeerPolicy = PeerPolicy(noCharge: bool, blocked: bool, fromPayerWeight: Option<u16>, burstRate: Option<u64>,
                                   unreservedRate: Option<u64>)
  {
    function Weight(node: NodePolicy): u16 {
      if fromPayerWeight.Some? then fromPayerWeight.value else node.fromPayerWeight
    }

    function Burst(node: NodePolicy): BurstPolicy {
      BurstPolicy(if burstRate.Some? then burstRate.value else node.burst.rate,
                  if unreservedRate.Some? then unreservedRate.value else node.burst.unreservedRate)
    }
  }

  const DEFAULT_POLICY := PeerPolicy(false, false, None, None, None)

  datatype Config = Config(local: PubKey, node: NodePolicy, buying: BuyerPolicy)

  // ------------------------------------------------------------------------
  // Actions
  // ------------------------------------------------------------------------

  datatype AccessLevel = Nothing | Active | Free

  datatype Action =
    | Send(peer: PubKey, msg: Message)
    | SignAndSendTopUp(peer: PubKey, ratchets: seq<Ratchet>, windowMs: u64, reservedRate: u64)
    | RecordUpdates(peer: PubKey, updates: seq<ChannelUpdate>)
    | SetAccess(peer: PubKey, access: AccessLevel)
    | SetShapingRate(peer: PubKey, rate: u64)
    | FundChannel(peer: PubKey, request: u64, mintUrl: Text, capacity: u64)
    | VerifyFunding(peer: PubKey, funding: Bytes)
    | SettleChannel(peer: PubKey, channelId: ChannelId, expiresAt: Option<Millis>)
    | ReclaimChannel(peer: PubKey, channelId: ChannelId, capacity: u64, expiresAt: Option<Millis>)
    | SaveBudget(peer: PubKey, budget: Budget)
    | DropPeer(peer: PubKey)

  // ------------------------------------------------------------------------
  // A session
  // ------------------------------------------------------------------------

  datatype Phase = Opening | Establishing | Established | Closing

  datatype PeerOffer = PeerOffer(acceptedMints: seq<Text>, unit: Text, terms: Terms, noCharge: bool)

  /** Cumulative units across a link, by the role of the peer as payer. */
  datatype Counters = Counters(toPayer: u64, fromPayer: u64) {
    function DeltaSince(earlier: Counters): Counters {
      Counters(SatSub(toPayer, earlier.toPayer), SatSub(fromPayer, earlier.fromPayer))
    }

    function Swapped(): Counters {
      Counters(fromPayer, toPayer)
    }

    function Weighted(weight: u16): u64 {
      Saturate(toPayer + fromPayer * weight)
    }
  }

  datatype PeerSession = PeerSession(
    phase: Phase, access: AccessLevel, policy: PeerPolicy, offer: Option<PeerOffer>, offerSent: Option<Offer>,
    grant: Grant, weight: u16, meter: Counters, budgetLive: bool,
    balance: Option<(Balance, Millis)>, refusedTerms: bool, buyer: Buyer, demand: u64, uploadRate: u64,
    lastMeterAt: Millis, appliedRate: Option<u64>, lastSeen: Millis, lastSent: Millis, keptByPeer: bool)
  {
    /** Start a new session over the channels and budgets kept from the last one. */
    function Resume(policy: PeerPolicy, now: Millis): PeerSession {
      NewSession(policy, now).(grant := grant.Restart(now), buyer := buyer.Restart())
    }
  }

  function NewSession(policy: PeerPolicy, now: Millis): PeerSession {
    PeerSession(Opening, Nothing, policy, None, None, NewGrant(),
                if policy.fromPayerWeight.Some? then policy.fromPayerWeight.value else 1,
                Counters(0, 0), false, None, false, NewBuyer(), 0, 0, now, None, now, now, false)
  }

  /** A session part way through an event: how it stands, the next request id, and the actions so far. */
  datatype Turn = Turn(s: PeerSession, nextRequest: u64, out: seq<Action>) {
    function Does(action: Action): Turn {
      this.(out := out + [action])
    }

    function DoAll(actions: seq<Action>): Turn {
      this.(out := out + actions)
    }
  }

  // ------------------------------------------------------------------------
  // Settling and saving
  // ------------------------------------------------------------------------

  /** Settle each channel named, and stop recognising it. */
  function SettleEach(peer: PubKey, cs: seq<IncomingChannel>, ids: seq<ChannelId>): (seq<IncomingChannel>, seq<Action>)
    decreases |ids|
  {
    if ids == [] then (cs, [])
    else
      var found := Find(cs, ids[0]);
      var (rest, out) := SettleEach(peer, Remove(cs, ids[0]), ids[1..]);
      (rest, [SettleChannel(peer, ids[0], if found.Some? then found.value.expiresAt else None)] + out)
  }

  function Settle(peer: PubKey, t: Turn, ids: seq<ChannelId>): Turn {
    var (rest, settled) := SettleEach(peer, t.s.grant.channels, ids);
    t.(s := t.s.(grant := t.s.grant.(channels := rest)), out := t.out + settled)
  }

  function Discard(peer: PubKey, t: Turn): Turn {
    Settle(peer, t, Ids(t.s.grant.channels))
  }

  function SettleExpiring(cfg: Config, peer: PubKey, t: Turn, now: Millis): Turn {
    Settle(peer, t, ExpiringIds(t.s.grant.channels, now, cfg.node.SettleLeadMs()))
  }

  /** Have the host keep a payer's budget; one carried free has none. */
  function Save(peer: PubKey, t: Turn, now: Millis): Turn {
    if t.s.policy.noCharge then t else t.Does(SaveBudget(peer, t.s.grant.BudgetAt(now)))
  }

  function BalanceOf(s: PeerSession, now: Millis): Message {
    var budget := s.grant.BudgetAt(now);
    MBalance(Balance(budget.remaining, budget.ExpiresInMs(now), s.grant.reservedRate))
  }

  // ------------------------------------------------------------------------
  // Gate and shaper
  // ------------------------------------------------------------------------

  function AccessOf(s: PeerSession, now: Millis): AccessLevel {
    if s.policy.noCharge then Free
    else if s.grant.channels != [] || s.grant.IsLive(now) then Active
    else Nothing
  }

  function RateOf(cfg: Config, s: PeerSession, now: Millis): u64 {
    if s.policy.noCharge then U64_MAX
    else s.grant.ShapingRate(now, s.policy.Burst(cfg.node), cfg.node.minimumFlow, cfg.node.tickMs)
  }

  /** Recompute access and speed, asking only for what changed, and notice a budget that has gone. */
  function Refresh(cfg: Config, peer: PubKey, t: Turn, now: Millis): Turn {
    var s := t.s;
    var access, live, rate := AccessOf(s, now), s.grant.IsLive(now), RateOf(cfg, s, now);
    var gone := s.budgetLive && !live && access != Free;
    t.(s := s.(access := access, budgetLive := live, appliedRate := Some(rate)),
       out := t.out
         + (if access != s.access then [SetAccess(peer, access)] else [])
         + (if gone then [Send(peer, BalanceOf(s, now)), SaveBudget(peer, NO_BUDGET)] else [])
         + (if s.appliedRate != Some(rate) then [SetShapingRate(peer, rate)] else []))
  }

  function Close(t: Turn): Turn {
    t.(s := t.s.(phase := Closing))
  }

  function Rejected(peer: PubKey, reason: ReasonCode): seq<Action> {
    [Send(peer, MDisconnect(reason)), DropPeer(peer)]
  }

  // ------------------------------------------------------------------------
  // Paying them
  // ------------------------------------------------------------------------

  function RequestFunding(peer: PubKey, t: Turn, mintUrl: Text, capacity: u64, now: Millis): Turn {
    var request := t.nextRequest;
    Turn(t.s.(buyer := t.s.buyer.FundingRequested(request, now)),
         if request == U64_MAX then 0 else request + 1,
         t.out + [FundChannel(peer, request, mintUrl, capacity)])
  }

  /** Their demand on us to buy: what we pull, and what we push weighted as they will draw it. */
  function DemandOf(s: PeerSession, terms: Terms): Demand {
    Demand(SatAdd(s.demand, Saturate(s.uploadRate * terms.fromPayerWeight)), terms)
  }

  function PollBuyer(cfg: Config, peer: PubKey, t: Turn, now: Millis): Turn {
    if t.s.offer.None? || t.s.offer.value.noCharge || t.s.refusedTerms then t
    else
      var b := t.s.buyer.RetireExpiring(now, cfg.node.safetyMarginMs, cfg.node.SettleLeadMs());
      var purchase := Poll(b, cfg.buying, DemandOf(t.s, t.s.offer.value.terms), now);
      if purchase.None? then t.(s := t.s.(buyer := b))
      else
        var p := purchase.value;
        var (b', retired) := b.Record(p, now);
        t.(s := t.s.(buyer := b'),
           out := t.out + [SignAndSendTopUp(peer, p.Legs(), p.windowMs, p.reservedRate)]
             + (if retired.Some? then
                  [SettleChannel(peer, retired.value, if b.IsActive(retired.value) then b.active.value.expiresAt else None)]
                else []))
  }

  function PollRollover(cfg: Config, peer: PubKey, t: Turn, now: Millis): Turn {
    if t.s.offer.None? then t
    else
      var reason := t.s.buyer.RolloverDue(cfg.node.rolloverThresholdPct, now, cfg.node.safetyMarginMs);
      if reason.None? || t.s.buyer.active.None? || t.s.offer.value.acceptedMints == [] then t
      else
        var capacity := t.s.buyer.active.value.capacity;
        RequestFunding(peer, t, t.s.offer.value.acceptedMints[0],
                       if reason.value.Capacity? then cfg.node.GrownCapacity(capacity) else cfg.node.ClampCapacity(capacity),
                       now)
  }

  function PollOpening(cfg: Config, peer: PubKey, t: Turn, now: Millis): Turn {
    var b := t.s.buyer;
    if t.s.phase.Closing? || t.s.offer.None? || t.s.offer.value.noCharge || t.s.refusedTerms || !cfg.buying.Buying()
       || b.active.Some? || b.next.Some? || b.pending.Some? || b.FundingInFlight(now)
       || t.s.offer.value.acceptedMints == []
    then t
    else RequestFunding(peer, t, t.s.offer.value.acceptedMints[0], cfg.node.FirstChannelCapacity(), now)
  }

  // ------------------------------------------------------------------------
  // Opening
  // ------------------------------------------------------------------------

  function OfferFor(cfg: Config, policy: PeerPolicy, weight: u16): Offer {
    Offer(cfg.node.acceptedMints, cfg.node.unit, cfg.node.grants.minWindowMs, cfg.node.grants.maxWindowMs, weight,
          policy.noCharge, cfg.node.grants.minReservedRate, cfg.node.grants.minTopupGapMs)
  }

  function SendOffer(peer: PubKey, t: Turn, offer: Offer): Turn {
    t.(s := t.s.(offerSent := Some(offer))).Does(Send(peer, MOffer(offer)))
  }

  function OnAnnounce(cfg: Config, peer: PubKey, t: Turn, m: Announce): Turn {
    if m.version != PROTOCOL_VERSION then
      Close(t).DoAll([Send(peer, MReject(ANNOUNCE, VersionUnsupported, None)), DropPeer(peer)])
    else if m.unit != cfg.node.unit then Close(t).DoAll(Rejected(peer, UnitNotAccepted))
    else t

  }

  /** Their terms as we hold them: the weight is the opening Offer's, fixed for the session. */
  function TakeOffer(s: PeerSession, m: Offer): PeerSession {
    var weight := if s.offer.Some? then s.offer.value.terms.fromPayerWeight else m.fromPayerWeight;
    s.(offer := Some(PeerOffer(m.acceptedMints, m.unit,
                               Terms(m.minWindowMs, m.maxWindowMs, m.minReservedRate, m.minTopupGapMs, weight), m.noCharge)),
       phase := if s.phase.Opening? then Establishing else s.phase)
  }

  function OnOffer(cfg: Config, peer: PubKey, t: Turn, m: Offer, now: Millis): Turn {
    var taken := t.(s := TakeOffer(t.s, m));
    if t.s.offer.Some? then PollOpening(cfg, peer, taken, now)
    else OnOpeningOffer(cfg, peer, taken, m, now)
  }

  function OnOpeningOffer(cfg: Config, peer: PubKey, taken: Turn, m: Offer, now: Millis): Turn {
    var refused := !m.noCharge && !cfg.buying.AcceptsWeight(m.fromPayerWeight);
    var t := if refused then
        taken.(s := taken.s.(refusedTerms := true)).Does(Send(peer, MReject(OFFER, FromPayerWeightUnacceptable, None)))
      else taken;
    var buying := !m.noCharge && !t.s.refusedTerms && cfg.buying.Buying();
    if t.s.buyer.active.Some? && t.s.keptByPeer && buying then
      var resumed := t.(s := t.s.(buyer := t.s.buyer.ForgetPending(), phase := Established));
      PollBuyer(cfg, peer, Refresh(cfg, peer, resumed, now), now)
    else
      var anew := t.(s := t.s.(buyer := t.s.buyer.StartOver()));
      Refresh(cfg, peer,
              if t.s.refusedTerms then anew
              else if m.acceptedMints != [] && buying then
                RequestFunding(peer, anew, m.acceptedMints[0], cfg.node.FirstChannelCapacity(), now)
              else anew.Does(Send(peer, MAccept([]))),
              now)
  }

  function OnOutgoingFunded(cfg: Config, peer: PubKey, t: Turn, id: ChannelId, capacity: u64, expiresAt: Option<Millis>,
                            funding: Bytes, now: Millis): Turn {
    var b := t.s.buyer.FundedWith(id, capacity, expiresAt);
    var msg := if b.active.Some? then MRolloverInit(b.active.value.id, funding) else MAccept(funding);
    Refresh(cfg, peer, t.(s := t.s.(buyer := b)).Does(Send(peer, msg)), now)
  }

  function OnAccept(cfg: Config, peer: PubKey, t: Turn, funding: Bytes, now: Millis): Turn {
    var settled := Discard(peer, t);
    if funding == [] then Refresh(cfg, peer, settled, now) else settled.Does(VerifyFunding(peer, funding))
  }

  /** The first channel held under another id, in the order they were opened. */
  function FirstBesides(cs: seq<IncomingChannel>, id: ChannelId): Option<ChannelId> {
    if cs == [] then None else if cs[0].id != id then Some(cs[0].id) else FirstBesides(cs[1..], id)
  }

  function OnIncomingVerified(cfg: Config, peer: PubKey, t: Turn, id: ChannelId, capacity: u64, expiresAt: Option<Millis>,
                              now: Millis): Turn {
    var replacing := FirstBesides(t.s.grant.channels, id);
    var msg := if replacing.Some? then MRolloverReady(replacing.value, id) else MChannelReady(id);
    Refresh(cfg, peer,
            t.(s := t.s.(grant := t.s.grant.OpenChannel(id, capacity, expiresAt), phase := Established)).Does(Send(peer, msg)),
            now)
  }

  // ------------------------------------------------------------------------
  // Being paid
  // ------------------------------------------------------------------------

  /** Count a failure against each channel, and settle one that has failed too often in a row. */
  function CountFailures(peer: PubKey, t: Turn, ids: seq<ChannelId>): Turn
    decreases |ids|
  {
    if ids == [] then t
    else
      var (g, failures) := t.s.grant.RecordFailure(ids[0]);
      var counted := t.(s := t.s.(grant := g));
      CountFailures(peer,
                    if failures.Some? && failures.value >= MAX_VERIFICATION_FAILURES then Settle(peer, counted, [ids[0]]) else counted,
                    ids[1..])
  }

  function OnUnverified(cfg: Config, peer: PubKey, t: Turn, ids: seq<ChannelId>, now: Millis): Turn {
    Refresh(cfg, peer, CountFailures(peer, t.Does(Send(peer, MReject(TOPUP, GrantInvalid, None))), ids), now)
  }

  /** The channels a purchase failed to ratchet, each named once. */
  function NotIncreasing(cs: seq<IncomingChannel>, updates: seq<ChannelUpdate>, seen: seq<ChannelId>, failed: seq<ChannelId>): seq<ChannelId>
    decreases |updates|
  {
    if updates == [] then failed
    else
      var u := updates[0];
      var found := Find(cs, u.channelId);
      if found.None? then NotIncreasing(cs, updates[1..], seen, failed)
      else
        NotIncreasing(cs, updates[1..], seen + [u.channelId],
                      if (u.channelId in seen || u.cumulative <= found.value.signed) && u.channelId !in failed
                      then failed + [u.channelId] else failed)
  }

  function RefusedUpdates(updates: seq<ChannelUpdate>): seq<RefusedUpdate> {
    seq(|updates|, i requires 0 <= i < |updates| => RefusedUpdate(updates[i].channelId, updates[i].cumulative))
  }

  function ToRefused(refused: seq<RefusedUpdate>): seq<Ratchet> {
    seq(|refused|, i requires 0 <= i < |refused| => Ratchet(refused[i].channelId, refused[i].cumulative))
  }

  /** A purchase that is honored: applied, recorded, what it drained settled, and the budget saved. */
  function Honor(peer: PubKey, t: Turn, m: TopUp, ratchets: seq<Ratchet>, grant: u64, now: Millis): Turn {
    var applied := t.s.grant.Apply(ratchets, grant, m.windowMs, m.reservedRate, now);
    var recorded := t.(s := t.s.(grant := applied)).Does(RecordUpdates(peer, m.updates));
    var saved := Save(peer, Settle(peer, recorded, ExhaustedIds(applied.channels)), now);
    saved.(s := saved.s.(budgetLive := saved.s.grant.IsLive(now))).Does(Send(peer, BalanceOf(saved.s, now)))
  }

  /** The answer to a TopUp that comes too soon: the rate still free, and nothing else. */
  function TooSoonReply(peer: PubKey, m: TopUp, admission: Admission): Action {
    Send(peer, MTopUpReject(TopUpReject(RefusedUpdates(m.updates), admission.RateAvailable(), TooSoon)))
  }

  function OnTopUp(cfg: Config, peer: PubKey, t: Turn, m: TopUp, elsewhere: u64, now: Millis): Turn {
    var admission := Admission(cfg.node.grants, elsewhere);
    if t.s.grant.TooSoon(now, cfg.node.grants.minTopupGapMs) then t.Does(TooSoonReply(peer, m, admission))
    else
      var checked := t.(s := t.s.(grant := t.s.grant.TopupChecked(now)));
      match Evaluate(checked.s.grant, admission, m.updates, m.windowMs, m.reservedRate)
      case Accept(ratchets, grant) => Refresh(cfg, peer, Honor(peer, checked, m, ratchets, grant, now), now)
      case Refuse(reason, available) =>
        if reason == GrantInvalid then
          OnUnverified(cfg, peer, checked, NotIncreasing(checked.s.grant.channels, m.updates, [], []), now)
        else
          Refresh(cfg, peer, checked.Does(Send(peer, MTopUpReject(TopUpReject(RefusedUpdates(m.updates), available, reason)))), now)
  }

  function OnMetered(s: PeerSession, counters: Counters, carried: bool, now: Millis): PeerSession {
    var grew := counters.DeltaSince(s.meter);
    var elapsed := SatSub(now, s.lastMeterAt);
    s.(meter := counters,
       uploadRate := if elapsed > 0 then RateFrom(grew.toPayer, elapsed) else s.uploadRate,
       lastMeterAt := if elapsed > 0 then now else s.lastMeterAt,
       grant := if carried && s.access == Active then s.grant.Draw(grew.Weighted(s.weight), now) else s.grant.Pause(),
       buyer := if s.offer.Some? && !s.offer.value.noCharge
                then s.buyer.Draw(grew.Swapped().Weighted(s.offer.value.terms.fromPayerWeight), now) else s.buyer)
  }

  /** When a channel with this peer expires, whichever of us funded it. */
  function ExpiryOf(s: PeerSession, id: ChannelId): Option<Millis> {
    var found := Find(s.grant.channels, id);
    if found.Some? then found.value.expiresAt
    else if s.buyer.active.Some? && s.buyer.active.value.id == id then s.buyer.active.value.expiresAt
    else if s.buyer.next.Some? && s.buyer.next.value.id == id then s.buyer.next.value.expiresAt
    else None
  }

  // ------------------------------------------------------------------------
  // Messages
  // ------------------------------------------------------------------------

  function Confirm(cfg: Config, peer: PubKey, t: Turn, id: ChannelId, now: Millis): Turn {
    PollBuyer(cfg, peer, t.(s := t.s.(buyer := t.s.buyer.Confirmed(id))), now)
  }

  function OnChannelReady(cfg: Config, peer: PubKey, t: Turn, id: ChannelId, now: Millis): Turn {
    var b := if t.s.buyer.IsActive(id) then t.s.buyer else t.s.buyer.Confirmed(id);
    PollBuyer(cfg, peer, t.(s := t.s.(buyer := b, keptByPeer := t.s.keptByPeer || b.IsActive(id))), now)
  }

  function OnTopUpReject(cfg: Config, peer: PubKey, t: Turn, m: TopUpReject, now: Millis): Turn {
    var b := t.s.buyer.RecordReject(ToRefused(m.refused), m.reason, m.maxReservedRate, now, cfg.buying.capHoldMs);
    PollBuyer(cfg, peer, t.(s := t.s.(buyer := b)), now)
  }

  function OnMessage(cfg: Config, peer: PubKey, heard: Turn, msg: Message, elsewhere: u64, now: Millis): Turn {
    var t := heard.(s := heard.s.(lastSeen := now));
    match msg
    case MAnnounce(m) => OnAnnounce(cfg, peer, t, m)
    case MOffer(m) => OnOffer(cfg, peer, t, m, now)
    case MAccept(funding) => OnAccept(cfg, peer, t, funding, now)
    case MChannelReady(id) => OnChannelReady(cfg, peer, t, id, now)
    case MTopUp(m) => OnTopUp(cfg, peer, t, m, elsewhere, now)
    case MTopUpReject(m) => OnTopUpReject(cfg, peer, t, m, now)
    case MRolloverReady(_, id) => Confirm(cfg, peer, t, id, now)
    case _ => Noticed(peer, t, msg, now)
  }

  /** The messages that only inform, or that pass through to the host. */
  function Noticed(peer: PubKey, t: Turn, msg: Message, now: Millis): Turn {
    match msg
    case MBalance(m) => t.(s := t.s.(buyer := t.s.buyer.NoteBalance(m.remaining, m.expiresInMs, now), balance := Some((m, now))))
    case MRolloverInit(_, funding) => t.Does(VerifyFunding(peer, funding))
    case MChannelClose(id, final, _, _) =>
      t.DoAll([Send(peer, MCloseAck(id, final)), SettleChannel(peer, id, ExpiryOf(t.s, id))])
    case MCloseAck(id, _) => t.Does(SettleChannel(peer, id, ExpiryOf(t.s, id)))
    case MDisconnect(_) => Close(t).Does(DropPeer(peer))
    case _ => t
  }

  // ------------------------------------------------------------------------
  // Time
  // ------------------------------------------------------------------------

  predicate Stale(cfg: Config, s: PeerSession, now: Millis) {
    cfg.node.staleTimeoutMs > 0 && SatSub(now, s.lastSeen) > cfg.node.staleTimeoutMs
  }

  function OnTick(cfg: Config, peer: PubKey, t: Turn, now: Millis): Turn {
    var expired := t.(s := t.s.(grant := t.s.grant.ExpireIfDue(now)));
    var shown := Refresh(cfg, peer, SettleExpiring(cfg, peer, expired, now), now);
    PollOpening(cfg, peer, PollRollover(cfg, peer, PollBuyer(cfg, peer, shown, now), now), now)
  }

  /** The transport went away: nothing more is drawn, and the budget is kept. */
  function Park(peer: PubKey, t: Turn, now: Millis): Turn {
    Save(peer, t.(s := t.s.(grant := t.s.grant.EndReservation())), now)
  }
}
