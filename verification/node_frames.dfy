/** What one event does to one session, whichever event it is. */
module NodeFrames {
  import opened Numbers
  import opened Wrappers
  import opened Wire
  import opened Grants
  import opened GrantChannels
  import opened Sessions
  import opened SessionFrames
  import opened SessionPurchases
  import opened Nodes

  ghost predicate Sound(s: PeerSession) {
    Distinct(s.grant.channels) && s.grant.Valid()
  }

  /** A TopUp that is not too soon has its signatures counted as checked, whatever comes of it. */
  ghost predicate ChecksSignatures(n: Node, s: PeerSession, e: Event, now: Millis) {
    || e.TopUpSignatureInvalid?
    || (e.MessageReceived? && e.msg.MTopUp? && !s.grant.TooSoon(now, n.cfg.node.grants.minTopupGapMs))
  }

  ghost predicate Buys(n: Node, t: Turn, e: Event, elsewhere: u64, now: Millis) {
    && e.MessageReceived? && e.msg.MTopUp? && !t.s.grant.TooSoon(now, n.cfg.node.grants.minTopupGapMs)
    && Judged(n.cfg, Checked(t, now), e.msg.topup, elsewhere).Accept?
  }

  /** Funding for a channel in a mint we take, verified for a peer we hold. */
  ghost predicate Verifies(n: Node, e: Event) {
    e.IncomingFundingVerified? && e.mintUrl in n.cfg.node.acceptedMints
  }

  ghost predicate Resuming(n: Node, s: PeerSession, e: Event) {
    e.MessageReceived? && e.msg.MOffer? && Resumes(n.cfg, s, e.msg.offer)
  }

  /** What an event itself changes of the grant's frame: the turn everything else in it starts from. */
  ghost function Basis(n: Node, t: Turn, e: Event, now: Millis): Turn {
    if ChecksSignatures(n, t.s, e, now) then Checked(t, now)
    else if Verifies(n, e) then
      Revived(t).(s := Revived(t).s.(grant := t.s.grant.OpenChannel(e.channelId, e.capacity, e.expiresAt)))
    else if Resuming(n, t.s, e) then Revived(t)
    else if e.PeerPolicySet? then t.(s := t.s.(policy := e.policy))
    else t
  }

  lemma {:induction false} OpenKeepsDistinct(g: Grant, id: ChannelId, capacity: u64, expiresAt: Option<Millis>)
    requires Distinct(g.channels)
    ensures Distinct(g.OpenChannel(id, capacity, expiresAt).channels)
  {
    var found := Find(g.channels, id);
    if found.Some? {
      PutKeepsDistinct(g.channels, found.value.(capacity := capacity, expiresAt := expiresAt));
    } else {
      var added := IncomingChannel(id, capacity, 0, 0, expiresAt);
      assert forall i :: 0 <= i < |g.channels| ==> g.channels[i] in g.channels;
    }
  }

  lemma PolicyIsOrdinary(cfg: Config, peer: PubKey, t: Turn, policy: PeerPolicy, now: Millis)
    requires Distinct(t.s.grant.channels)
    ensures Ordinary(peer, t.(s := t.s.(policy := policy)), OnPolicy(cfg, peer, t, policy, now), now)
  {
    var changed := t.(s := t.s.(policy := policy));
    var after := OnPolicy(cfg, peer, t, policy, now);
    var revised := OfferFor(cfg, policy, t.s.weight);
    var told := if t.s.offerSent.Some? && t.s.offerSent.value != revised then SendOffer(peer, changed, revised) else changed;
    LeavingIsOrdinary(peer, changed, told, now);
    RefreshIsOrdinary(cfg, peer, told, now);
    LeavingIsOrdinary(peer, changed, changed, now);
    hide Refresh, Ordinary;
    OrdinaryThen(peer, changed, told, Refresh(cfg, peer, told, now), now);
  }

  lemma VerifiedIsOrdinary(n: Node, t: Turn, e: Event, now: Millis)
    requires Distinct(t.s.grant.channels) && Verifies(n, e)
    ensures Ordinary(e.peer, Basis(n, t, e, now),
                     OnIncomingVerified(n.cfg, e.peer, t, e.channelId, e.capacity, e.expiresAt, now), now)
    ensures OnIncomingVerified(n.cfg, e.peer, t, e.channelId, e.capacity, e.expiresAt, now).s.grant ==
      t.s.grant.OpenChannel(e.channelId, e.capacity, e.expiresAt)
  {
    var replacing := FirstBesides(t.s.grant.channels, e.channelId);
    var msg := if replacing.Some? then MRolloverReady(replacing.value, e.channelId) else MChannelReady(e.channelId);
    var told := Basis(n, t, e, now).Does(Send(e.peer, msg));
    OpenKeepsDistinct(t.s.grant, e.channelId, e.capacity, e.expiresAt);
    hide Grant.OpenChannel, Refresh, Ordinary;
    LeavingIsOrdinary(e.peer, Basis(n, t, e, now), told, now);
    RefreshIsOrdinary(n.cfg, e.peer, told, now);
    OrdinaryThen(e.peer, Basis(n, t, e, now), told, Refresh(n.cfg, e.peer, told, now), now);
  }

  lemma SignatureInvalidIsOrdinary(n: Node, t: Turn, e: Event, elsewhere: u64, now: Millis)
    requires Distinct(t.s.grant.channels) && e.TopUpSignatureInvalid?
    ensures Ordinary(e.peer, Checked(t, now), OnSession(n, t, e, elsewhere, now), now)
  {
    var heard := t.(s := t.s.(lastSeen := now, grant := t.s.grant.TopupChecked(now)));
    Aside(e.peer, Checked(t, now), heard, now);
    OnUnverifiedIsOrdinary(n.cfg, e.peer, heard, [e.channelId], now);
    hide OnUnverified, Ordinary;
    OrdinaryThen(e.peer, Checked(t, now), heard, OnUnverified(n.cfg, e.peer, heard, [e.channelId], now), now);
  }

  lemma MessageMoves(n: Node, t: Turn, e: Event, elsewhere: u64, now: Millis)
    requires Sound(t.s) && e.MessageReceived?
    ensures var after := OnSession(n, t, e, elsewhere, now);
      if Buys(n, t, e, elsewhere, now) then Honored(e.peer, Basis(n, t, e, now), after, e.msg.topup, now)
      else Ordinary(e.peer, Basis(n, t, e, now), after, now)
  {
    var after := OnSession(n, t, e, elsewhere, now);
    hide Ordinary, Honored;
    if e.msg.MTopUp? {
      var heard := t.(s := t.s.(lastSeen := now));
      var m := e.msg.topup;
      hide OnTopUp, Evaluate;
      if t.s.grant.TooSoon(now, n.cfg.node.grants.minTopupGapMs) {
        TooSoonTopUp(n.cfg, e.peer, heard, m, elsewhere, now);
        Aside(e.peer, t, heard, now);
        OrdinaryThen(e.peer, t, heard, after, now);
      } else if Judged(n.cfg, Checked(heard, now), m, elsewhere).Accept? {
        AcceptedTopUp(n.cfg, e.peer, heard, m, elsewhere, now);
        HonoredFrom(e.peer, Checked(t, now), Checked(heard, now), after, m, now);
      } else {
        RefusedTopUp(n.cfg, e.peer, heard, m, elsewhere, now);
        Aside(e.peer, Checked(t, now), Checked(heard, now), now);
        OrdinaryThen(e.peer, Checked(t, now), Checked(heard, now), after, now);
      }
    } else {
      OnMessageIsOrdinary(n.cfg, e.peer, t, e.msg, elsewhere, now);
      hide OnMessage;
    }
  }

  lemma HonoredFrom(peer: PubKey, t: Turn, u: Turn, v: Turn, m: TopUp, now: Millis)
    requires Honored(peer, u, v, m, now)
    requires u.s.grant == t.s.grant && u.s.policy == t.s.policy && u.s.phase == t.s.phase && u.out == t.out
    ensures Honored(peer, t, v, m, now)
  {
  }

  /** Every event, on the session it names: a purchase honored, or an ordinary turn from its basis. */
  lemma EventMoves(n: Node, t: Turn, e: Event, elsewhere: u64, now: Millis)
    requires Sound(t.s) && !e.PeerConnected? && !e.PeerDisconnected? && !e.Tick? && !e.BuyerPolicySet? && !e.Forgotten? && !e.ShutDown?
    ensures var after := OnSession(n, t, e, elsewhere, now);
      if Buys(n, t, e, elsewhere, now) then Honored(e.peer, Basis(n, t, e, now), after, e.msg.topup, now)
      else Ordinary(e.peer, Basis(n, t, e, now), after, now)
  {
    hide Ordinary, Honored, OnMessage, OnUnverified, OnOutgoingFunded, OnIncomingVerified, Refresh, OnMetered, PollBuyer, OnPolicy, Evaluate,
      Grant.OpenChannel, Resumes, Judged;
    var after := OnSession(n, t, e, elsewhere, now);
    var cfg, peer := n.cfg, e.peer;
    match e
    case MessageReceived(_, _) => MessageMoves(n, t, e, elsewhere, now);
    case TopUpSignatureInvalid(_, _) => SignatureInvalidIsOrdinary(n, t, e, elsewhere, now);
    case OutgoingChannelFunded(_, request, id, capacity, expiresAt, funding) =>
      OnOutgoingFundedIsOrdinary(cfg, peer, t, id, capacity, expiresAt, funding, now);
      LeavingIsOrdinary(peer, t, t.Does(ReclaimChannel(peer, id, capacity, expiresAt)), now);
    case OutgoingFundingFailed(_, request) =>
      Aside(peer, t, after, now);
    case IncomingFundingVerified(_, id, capacity, expiresAt, mintUrl) =>
      if Verifies(n, e) {
        VerifiedIsOrdinary(n, t, e, now);
      } else {
        LeavingIsOrdinary(peer, t, after, now);
      }
    case IncomingFundingRejected(_, reason) =>
      LeavingIsOrdinary(peer, t, after, now);
    case Metered(_, counters, carried) =>
      OnMeteredIsOrdinary(cfg, peer, t, counters, carried, now);
    case DemandObserved(_, rate) =>
      PolledIsOrdinary(cfg, peer, t, t.(s := t.s.(demand := rate)), now);
    case PeerPolicySet(_, policy) =>
      PolicyIsOrdinary(cfg, peer, t, policy, now);
  }

  // ------------------------------------------------------------------------
  // What each setting is changed by: one event, and the node's policy by none
  // ------------------------------------------------------------------------

  lemma StepKeepsSettings(n: Node, e: Event, now: Millis)
    ensures Step(n, e, now).n.overrides == if e.PeerPolicySet? then n.overrides[e.peer := e.policy] else n.overrides
    ensures Step(n, e, now).n.cfg == if e.BuyerPolicySet? then n.cfg.(buying := e.buying) else n.cfg
  {
    hide OnPeer, LetGo, Begin, Greet, Kept, ParkPeer, TickPeers, ExpireAllParked, SettleAllParked, KeepAllAlive, WindDownPeers, WindDownAllParked;
    match e
    case Tick(order) =>
      var c := TickPeers(Course(n, []), order, now);
      TickingKeepsSettings(Course(n, []), order, now);
      ParkedKeepSettings(c, order, now);
      ParkedKeepSettings(ExpireAllParked(c, order, now), order, now);
      ParkedKeepSettings(NoteSent(SettleAllParked(ExpireAllParked(c, order, now), order, now), now), order, now);
    case ShutDown(order) =>
      TickingKeepsSettings(Course(n, []), order, now);
      ParkedKeepSettings(WindDownPeers(Course(n, []), order, now), order, now);
    case PeerDisconnected(peer) => ParkingKeepsSettings(Course(n, []), peer, now);
    case PeerPolicySet(peer, policy) => OnPeerKeepsSettings(n.(overrides := n.overrides[peer := policy]), e, now);
    case PeerConnected(_, _) =>
    case Forgotten(_) =>
    case BuyerPolicySet(_) =>
    case _ => OnPeerKeepsSettings(n, e, now);
  }

  lemma ParkingKeepsSettings(c: Course, peer: PubKey, now: Millis)
    ensures peer in c.n.peers ==> ParkPeer(c, peer, now).n.overrides == c.n.overrides && ParkPeer(c, peer, now).n.cfg == c.n.cfg
  {
    hide Park, Discard;
  }

  lemma OnPeerKeepsSettings(n: Node, e: Event, now: Millis)
    requires !e.PeerConnected? && !e.PeerDisconnected? && !e.Tick? && !e.BuyerPolicySet? && !e.Forgotten? && !e.ShutDown?
    ensures OnPeer(n, e.peer, e, now).n.overrides == n.overrides && OnPeer(n, e.peer, e, now).n.cfg == n.cfg
  {
    hide OnSession, ReservedElsewhere;
  }


  lemma {:induction false} TickingKeepsSettings(c: Course, order: seq<PubKey>, now: Millis)
    ensures TickPeers(c, order, now).n.overrides == c.n.overrides && TickPeers(c, order, now).n.cfg == c.n.cfg
    ensures WindDownPeers(c, order, now).n.overrides == c.n.overrides && WindDownPeers(c, order, now).n.cfg == c.n.cfg
    decreases |order|
  {
    if order != [] {
      hide OnTick, Park, Discard;
      TickingKeepsSettings(TickPeer(c, order[0], now), order[1..], now);
      TickingKeepsSettings(WindDownPeer(c, order[0], now), order[1..], now);
    }
  }

  lemma {:induction false} ParkedKeepSettings(c: Course, order: seq<PubKey>, now: Millis)
    ensures ExpireAllParked(c, order, now).n.overrides == c.n.overrides && ExpireAllParked(c, order, now).n.cfg == c.n.cfg
    ensures SettleAllParked(c, order, now).n.overrides == c.n.overrides && SettleAllParked(c, order, now).n.cfg == c.n.cfg
    ensures WindDownAllParked(c, order, now).n.overrides == c.n.overrides && WindDownAllParked(c, order, now).n.cfg == c.n.cfg
    ensures KeepAllAlive(c, order, now).n.overrides == c.n.overrides && KeepAllAlive(c, order, now).n.cfg == c.n.cfg
    decreases |order|
  {
    if order != [] {
      hide Discard, SettleExpiring, LetGo;
      ParkedKeepSettings(ExpireParked(c, order[0], now), order[1..], now);
      ParkedKeepSettings(SettleParked(c, order[0], now), order[1..], now);
      ParkedKeepSettings(WindDownParked(c, order[0], now), order[1..], now);
      ParkedKeepSettings(KeepAlive(c, order[0], now), order[1..], now);
    }
  }
}
