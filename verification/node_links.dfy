/**
  How a link starts, and how long a live one may be quiet. Two nodes that meet go on exactly when they
  sell in the same unit. A peer that hears nothing for its timeout lets go of us, so every
  live session is one that was sent an Offer, which a tick repeats once nothing else was sent for a third
  of that time; with ticks often enough, over any run, no live peer waits the timeout out.
 */
module NodeLinks {
  import opened Numbers
  import opened Wrappers
  import opened Wire
  import opened Grants
  import opened Buyers
  import opened Sessions
  import opened SessionFrames
  import opened SessionPurchases
  import opened Nodes
  import opened NodeFrames
  import opened NodeEarnings
  import opened NodeTicks
  import opened NodeCapacity

  // ------------------------------------------------------------------------
  // One session
  // ------------------------------------------------------------------------

  /** A turn that leaves the time it was last sent to, and takes back no Offer. */
  ghost predicate KeepsSent(t: Turn, t': Turn) {
    t'.s.lastSent == t.s.lastSent && (t.s.offerSent.Some? ==> t'.s.offerSent.Some?)
  }

  lemma SameClockKeeps(cfg: Config, peer: PubKey, t: Turn, now: Millis)
    ensures KeepsSent(t, PollBuyer(cfg, peer, t, now)) && KeepsSent(t, Refresh(cfg, peer, t, now))
    ensures KeepsSent(t, PollOpening(cfg, peer, t, now))
  {
    PollsKeepClock(cfg, peer, t, now);
    hide PollBuyer, Refresh, PollOpening;
  }

  lemma RequestKeepsSent(peer: PubKey, t: Turn, mintUrl: Text, capacity: u64, now: Millis)
    ensures KeepsSent(t, RequestFunding(peer, t, mintUrl, capacity, now))
  {
  }

  lemma {:induction false} CountingKeepsSent(peer: PubKey, t: Turn, ids: seq<ChannelId>)
    ensures KeepsSent(t, CountFailures(peer, t, ids))
    decreases |ids|
  {
    hide SettleEach, Find, Put;
    if ids != [] {
      var (g, failures) := t.s.grant.RecordFailure(ids[0]);
      var counted := t.(s := t.s.(grant := g));
      CountingKeepsSent(peer, if failures.Some? && failures.value >= MAX_VERIFICATION_FAILURES then Settle(peer, counted, [ids[0]]) else counted, ids[1..]);
    }
  }

  lemma OnUnverifiedKeepsSent(cfg: Config, peer: PubKey, t: Turn, ids: seq<ChannelId>, now: Millis)
    ensures KeepsSent(t, OnUnverified(cfg, peer, t, ids, now))
  {
    hide CountFailures, Refresh;
    var told := t.Does(Send(peer, MReject(TOPUP, GrantInvalid, None)));
    CountingKeepsSent(peer, told, ids);
    SameClockKeeps(cfg, peer, CountFailures(peer, told, ids), now);
  }

  lemma OnTopUpKeepsSent(cfg: Config, peer: PubKey, t: Turn, m: TopUp, elsewhere: u64, now: Millis)
    ensures KeepsSent(t, OnTopUp(cfg, peer, t, m, elsewhere, now))
  {
    hide Evaluate, Honor, OnUnverified, Refresh, NotIncreasing, BalanceOf;
    if !t.s.grant.TooSoon(now, cfg.node.grants.minTopupGapMs) {
      var checked := t.(s := t.s.(grant := t.s.grant.TopupChecked(now)));
      match Evaluate(checked.s.grant, Admission(cfg.node.grants, elsewhere), m.updates, m.windowMs, m.reservedRate)
      case Accept(ratchets, grant) =>
        HonorKeepsSent(peer, checked, m, ratchets, grant, now);
        SameClockKeeps(cfg, peer, Honor(peer, checked, m, ratchets, grant, now), now);
      case Refuse(reason, available) =>
        OnUnverifiedKeepsSent(cfg, peer, checked, NotIncreasing(checked.s.grant.channels, m.updates, [], []), now);
        SameClockKeeps(cfg, peer, checked.Does(Send(peer, MTopUpReject(TopUpReject(RefusedUpdates(m.updates), available, reason)))), now);
    }
  }

  lemma HonorKeepsSent(peer: PubKey, t: Turn, m: TopUp, ratchets: seq<Ratchet>, grant: u64, now: Millis)
    ensures KeepsSent(t, Honor(peer, t, m, ratchets, grant, now))
  {
    hide Grant.Apply, SettleEach, ExhaustedIds, BalanceOf;
  }

  lemma OnOfferKeepsSent(cfg: Config, peer: PubKey, t: Turn, m: Offer, now: Millis)
    ensures KeepsSent(t, OnOffer(cfg, peer, t, m, now))
  {
    hide PollBuyer, Refresh, PollOpening, RequestFunding, Buyer.StartOver;
    var taken := t.(s := TakeOffer(t.s, m));
    SameClockKeeps(cfg, peer, taken, now);
    if t.s.offer.None? {
      var refused := !m.noCharge && !cfg.buying.AcceptsWeight(m.fromPayerWeight);
      var u := if refused then
          taken.(s := taken.s.(refusedTerms := true)).Does(Send(peer, MReject(OFFER, FromPayerWeightUnacceptable, None)))
        else taken;
      var resumed := u.(s := u.s.(buyer := u.s.buyer.ForgetPending(), phase := Established));
      var anew := u.(s := u.s.(buyer := u.s.buyer.StartOver()));
      SameClockKeeps(cfg, peer, resumed, now);
      SameClockKeeps(cfg, peer, Refresh(cfg, peer, resumed, now), now);
      SameClockKeeps(cfg, peer, anew, now);
      SameClockKeeps(cfg, peer, anew.Does(Send(peer, MAccept([]))), now);
      if m.acceptedMints != [] {
        RequestKeepsSent(peer, anew, m.acceptedMints[0], cfg.node.FirstChannelCapacity(), now);
        SameClockKeeps(cfg, peer, RequestFunding(peer, anew, m.acceptedMints[0], cfg.node.FirstChannelCapacity(), now), now);
      }
    }
  }

  lemma OnMessageKeepsSent(cfg: Config, peer: PubKey, t: Turn, msg: Message, elsewhere: u64, now: Millis)
    ensures KeepsSent(t, OnMessage(cfg, peer, t, msg, elsewhere, now))
  {
    hide PollBuyer, Refresh, OnOffer, OnTopUp, SettleEach, Buyer.Confirmed, Buyer.RecordReject, Buyer.NoteBalance, ExpiryOf;
    var heard := t.(s := t.s.(lastSeen := now));
    match msg
    case MOffer(m) => OnOfferKeepsSent(cfg, peer, heard, m, now);
    case MTopUp(m) => OnTopUpKeepsSent(cfg, peer, heard, m, elsewhere, now);
    case MAccept(funding) => SameClockKeeps(cfg, peer, Discard(peer, heard), now);
    case MChannelReady(id) =>
      var b := if heard.s.buyer.IsActive(id) then heard.s.buyer else heard.s.buyer.Confirmed(id);
      SameClockKeeps(cfg, peer, heard.(s := heard.s.(buyer := b, keptByPeer := heard.s.keptByPeer || b.IsActive(id))), now);
    case MTopUpReject(m) =>
      SameClockKeeps(cfg, peer, heard.(s := heard.s.(buyer :=
        heard.s.buyer.RecordReject(ToRefused(m.refused), m.reason, m.maxReservedRate, now, cfg.buying.capHoldMs))), now);
    case MRolloverReady(_, id) => SameClockKeeps(cfg, peer, heard.(s := heard.s.(buyer := heard.s.buyer.Confirmed(id))), now);
    case _ =>
  }

  lemma SessionKeepsSent(n: Node, t: Turn, e: Event, elsewhere: u64, now: Millis)
    requires AboutOne(e)
    ensures KeepsSent(t, OnSession(n, t, e, elsewhere, now))
  {
    hide OnMessage, OnUnverified, Refresh, PollBuyer, OnMetered, Grant.OpenChannel, OfferFor, FirstBesides, Buyer.FundedWith;
    var cfg, peer := n.cfg, e.peer;
    match e
    case MessageReceived(_, msg) => OnMessageKeepsSent(cfg, peer, t, msg, elsewhere, now);
    case TopUpSignatureInvalid(_, id) =>
      OnUnverifiedKeepsSent(cfg, peer, t.(s := t.s.(lastSeen := now, grant := t.s.grant.TopupChecked(now))), [id], now);
    case OutgoingChannelFunded(_, request, id, capacity, expiresAt, funding) => FundedKeepsSent(cfg, peer, t, id, capacity, expiresAt, funding, now);
    case OutgoingFundingFailed(_, request) =>
    case IncomingFundingVerified(_, id, capacity, expiresAt, mintUrl) => VerifiedKeepsSent(cfg, peer, t, id, capacity, expiresAt, now);
    case IncomingFundingRejected(_, reason) =>
    case Metered(_, counters, carried) =>
      var metered := t.(s := OnMetered(t.s, counters, carried, now));
      assert KeepsSent(t, metered) by { MeteredKeepsSent(t, counters, carried, now); }
      SameClockKeeps(cfg, peer, metered, now);
    case DemandObserved(_, rate) => SameClockKeeps(cfg, peer, t.(s := t.s.(demand := rate)), now);
    case PeerPolicySet(_, policy) => PolicyKeepsSent(cfg, peer, t, policy, now);
  }

  lemma MeteredKeepsSent(t: Turn, counters: Counters, carried: bool, now: Millis)
    ensures KeepsSent(t, t.(s := OnMetered(t.s, counters, carried, now)))
  {
    hide Grant.Draw, Grant.Pause, Buyer.Draw, Counters.Weighted;
  }

  lemma FundedKeepsSent(cfg: Config, peer: PubKey, t: Turn, id: ChannelId, capacity: u64, expiresAt: Option<Millis>, funding: Bytes, now: Millis)
    ensures KeepsSent(t, OnOutgoingFunded(cfg, peer, t, id, capacity, expiresAt, funding, now))
  {
    hide Refresh, Buyer.FundedWith;
    var b := t.s.buyer.FundedWith(id, capacity, expiresAt);
    var msg := if b.active.Some? then MRolloverInit(b.active.value.id, funding) else MAccept(funding);
    SameClockKeeps(cfg, peer, t.(s := t.s.(buyer := b)).Does(Send(peer, msg)), now);
  }

  lemma VerifiedKeepsSent(cfg: Config, peer: PubKey, t: Turn, id: ChannelId, capacity: u64, expiresAt: Option<Millis>, now: Millis)
    ensures KeepsSent(t, OnIncomingVerified(cfg, peer, t, id, capacity, expiresAt, now))
  {
    hide Refresh, Grant.OpenChannel, FirstBesides;
    var replacing := FirstBesides(t.s.grant.channels, id);
    var msg := if replacing.Some? then MRolloverReady(replacing.value, id) else MChannelReady(id);
    SameClockKeeps(cfg, peer, t.(s := t.s.(grant := t.s.grant.OpenChannel(id, capacity, expiresAt), phase := Established)).Does(Send(peer, msg)), now);
  }

  lemma PolicyKeepsSent(cfg: Config, peer: PubKey, t: Turn, policy: PeerPolicy, now: Millis)
    ensures KeepsSent(t, OnPolicy(cfg, peer, t, policy, now))
  {
    hide Refresh, OfferFor;
    var changed := t.(s := t.s.(policy := policy));
    SameClockKeeps(cfg, peer, changed, now);
    SameClockKeeps(cfg, peer, SendOffer(peer, changed, OfferFor(cfg, policy, t.s.weight)), now);
  }

  // ------------------------------------------------------------------------
  // Every event
  // ------------------------------------------------------------------------

  /**
    Whoever is live after was sent something just then, or is live since before, last sent to when it was,
    and ending still if it was, but for one an event may bring back.
   */
  ghost predicate SentOn(n: Node, n': Node, back: set<PubKey>, now: Millis) {
    && (Offered(n) ==> Offered(n'))
    && forall p :: p in n'.peers ==>
         || n'.peers[p].lastSent == now
         || (p in n.peers && n'.peers[p].lastSent == n.peers[p].lastSent
             && (n.peers[p].phase.Closing? && p !in back ==> n'.peers[p].phase.Closing?))
  }

  lemma SentThen(a: Node, b: Node, c: Node, back: set<PubKey>, now: Millis)
    requires SentOn(a, b, back, now) && SentOn(b, c, {}, now)
    ensures SentOn(a, c, back, now)
  {
  }

  lemma NotingSends(c: Course, now: Millis)
    ensures SentOn(c.n, NoteSent(c, now).n, {}, now)
  {
  }

  lemma GreetSends(cfg: Config, peer: PubKey, policy: PeerPolicy, t: Turn, now: Millis)
    ensures Greet(cfg, peer, policy, t, now).s.lastSent == t.s.lastSent && Greet(cfg, peer, policy, t, now).s.offerSent.Some?
  {
    hide Readies, BalanceOf, OfferFor, AccessOf, RateOf;
  }

  lemma BeginsNow(cfg: Config, peer: PubKey, policy: PeerPolicy, kept: Option<PeerSession>, budget: Option<Budget>, now: Millis, next: u64)
    ensures Begin(cfg, peer, policy, kept, budget, now, next).s.lastSent == now
  {
    hide Grant.Restart, Buyer.Restart, SettleEach, ExpiringIds, Grant.Restore;
  }

  lemma ConnectSends(n: Node, peer: PubKey, budget: Option<Budget>, now: Millis)
    ensures SentOn(n, Connect(n, peer, budget, now).n, {}, now)
  {
    hide Nodes.Kept, Begin, Greet;
    var policy := PolicyFor(n, peer);
    if !policy.blocked {
      var (kept, ended) := Nodes.Kept(n, peer, now);
      var begun := Begin(n.cfg, peer, policy, kept, budget, now, n.nextRequest);
      BeginsNow(n.cfg, peer, policy, kept, budget, now, n.nextRequest);
      GreetSends(n.cfg, peer, policy, begun, now);
      InstallSends(n, Course(Cleared(n, peer), ended), peer, Greet(n.cfg, peer, policy, begun, now), now);
    }
  }

  lemma InstallSends(n: Node, c: Course, peer: PubKey, t: Turn, now: Millis)
    requires c.n.peers == n.peers - {peer} && t.s.lastSent == now && t.s.offerSent.Some?
    ensures SentOn(n, Install(c, peer, t).n, {}, now)
  {
  }

  /** The peer whose ending session an event brings back. */
  ghost function Back(n: Node, e: Event): set<PubKey> {
    if Revives(n, e) then {e.peer} else {}
  }

  lemma OnPeerSends(n: Node, e: Event, now: Millis)
    requires NodeSound(n) && AboutOne(e)
    ensures SentOn(n, OnPeer(n, e.peer, e, now).n, Back(n, e), now)
  {
    hide OnSession, ReservedElsewhere, Revives;
    if e.peer in n.peers {
      SessionKeepsSent(n, Enter(n, e.peer), e, ReservedElsewhere(n, e.peer), now);
      if !Revives(n, e) {
        EndingGoesOn(n, e, ReservedElsewhere(n, e.peer), now);
      }
    }
  }

  lemma EndingGoesOn(n: Node, e: Event, elsewhere: u64, now: Millis)
    requires NodeSound(n) && AboutOne(e) && !Revives(n, e) && e.peer in n.peers
    ensures n.peers[e.peer].phase.Closing? ==> OnSession(n, Enter(n, e.peer), e, elsewhere, now).s.phase.Closing?
  {
    hide OnSession, Basis, Buys, Revives, Accounted, Adds, Drawn, Thinned, HonoredActions, Signs;
    var t := Enter(n, e.peer);
    EventMoves(n, t, e, elsewhere, now);
    BasisReserves(n, t, e, now);
    if Buys(n, t, e, elsewhere, now) {
      BuyingChecks(n, t, e, elsewhere, now);
    }
  }

  lemma BuyingChecks(n: Node, t: Turn, e: Event, elsewhere: u64, now: Millis)
    requires Buys(n, t, e, elsewhere, now)
    ensures ChecksSignatures(n, t.s, e, now)
  {
  }

  lemma {:induction false} TickPeersSend(c: Course, order: seq<PubKey>, now: Millis)
    ensures SentOn(c.n, TickPeers(c, order, now).n, {}, now)
    decreases |order|
  {
    if order != [] {
      var d := TickPeer(c, order[0], now);
      assert SentOn(c.n, d.n, {}, now) by {
        if order[0] in c.n.peers {
          TickKeepsClock(c.n.cfg, order[0], Enter(c.n, order[0]), now);
        }
        hide OnTick, Park, Discard;
      }
      hide TickPeer, SentOn;
      TickPeersSend(d, order[1..], now);
      SentThen(c.n, d.n, TickPeers(c, order, now).n, {}, now);
    }
  }

  lemma {:induction false} KeepAllAliveSends(c: Course, order: seq<PubKey>, now: Millis)
    ensures SentOn(c.n, KeepAllAlive(c, order, now).n, {}, now)
    decreases |order|
  {
    if order != [] {
      var d := KeepAlive(c, order[0], now);
      assert SentOn(c.n, d.n, {}, now);
      hide KeepAlive, SentOn;
      KeepAllAliveSends(d, order[1..], now);
      SentThen(c.n, d.n, KeepAllAlive(c, order, now).n, {}, now);
    }
  }

  lemma TickSends(n: Node, order: seq<PubKey>, now: Millis)
    ensures SentOn(n, Ticked(n, order, now).n, {}, now)
  {
    hide TickPeers, ExpireAllParked, SettleAllParked, NoteSent, KeepAllAlive;
    var ticked := TickPeers(Course(n, []), order, now);
    var expired := ExpireAllParked(ticked, order, now);
    var settled := SettleAllParked(expired, order, now);
    var noted := NoteSent(settled, now);
    TickPeersSend(Course(n, []), order, now);
    ParkedLoopsAside(ticked, order, now);
    ParkedLoopsAside(expired, order, now);
    NotingSends(settled, now);
    KeepAllAliveSends(noted, order, now);
    assert SentOn(ticked.n, settled.n, {}, now);
    hide SentOn;
    SentThen(n, ticked.n, settled.n, {}, now);
    SentThen(n, settled.n, noted.n, {}, now);
    SentThen(n, noted.n, KeepAllAlive(noted, order, now).n, {}, now);
  }

  lemma {:induction false} WindDownSends(c: Course, order: seq<PubKey>, now: Millis)
    ensures SentOn(c.n, WindDownPeers(c, order, now).n, {}, now)
    ensures WindDownAllParked(c, order, now).n.peers == c.n.peers
    decreases |order|
  {
    if order != [] {
      var d := WindDownPeer(c, order[0], now);
      assert SentOn(c.n, d.n, {}, now) by { hide SettleEach, Ids, Grant.BudgetAt; }
      assert WindDownParked(c, order[0], now).n.peers == c.n.peers by { hide LetGo; }
      hide WindDownPeer, WindDownParked, SentOn;
      WindDownSends(d, order[1..], now);
      WindDownSends(WindDownParked(c, order[0], now), order[1..], now);
      SentThen(c.n, d.n, WindDownPeers(c, order, now).n, {}, now);
    }
  }

  /** No event sets back when a live peer was last sent something, or leaves one that was sent no Offer. */
  lemma StepSends(n: Node, e: Event, now: Millis)
    requires NodeSound(n) && Possible(n, e)
    ensures SentOn(n, Step(n, e, now).n, Back(n, e), now)
  {
    hide NoteSent, OnPeer, Connect, Ticked, WindDownPeers, WindDownAllParked, LetGo, ParkPeer, NodeSound, Verifies, Resuming, SentOn;
    match e
    case PeerConnected(peer, budget) =>
      ConnectSends(n, peer, budget, now);
      NotingSends(Connect(n, peer, budget, now), now);
      SentThen(n, Connect(n, peer, budget, now).n, Step(n, e, now).n, {}, now);
    case PeerDisconnected(peer) =>
      DisconnectSends(n, peer, now);
      NotingSends(Disconnect(n, peer, now), now);
      SentThen(n, Disconnect(n, peer, now).n, Step(n, e, now).n, {}, now);
    case Tick(order) => TickSends(n, order, now);
    case Forgotten(peer) => StayingSends(n, Step(n, e, now).n, now);
    case ShutDown(order) =>
      WindDownSends(Course(n, []), order, now);
      WindDownSends(WindDownPeers(Course(n, []), order, now), order, now);
      SamePeersSent(n, WindDownPeers(Course(n, []), order, now).n, Step(n, e, now).n, now);
    case BuyerPolicySet(buying) => StayingSends(n, Step(n, e, now).n, now);
    case PeerPolicySet(peer, policy) =>
      var m := n.(overrides := n.overrides[peer := policy]);
      SoundAside(n, m);
      OnPeerSends(m, e, now);
      NotingSends(OnPeer(m, peer, e, now), now);
      SentThen(m, OnPeer(m, peer, e, now).n, Step(n, e, now).n, Back(m, e), now);
      SentAside(n, m, Step(n, e, now).n, e, now);
    case _ =>
      OnPeerSends(n, e, now);
      NotingSends(OnPeer(n, e.peer, e, now), now);
      SentThen(n, OnPeer(n, e.peer, e, now).n, Step(n, e, now).n, Back(n, e), now);
  }

  lemma SoundAside(n: Node, m: Node)
    requires NodeSound(n) && m.peers == n.peers && m.parked == n.parked
    ensures NodeSound(m)
  {
  }

  lemma SentAside(n: Node, m: Node, n': Node, e: Event, now: Millis)
    requires m == n.(overrides := m.overrides) && SentOn(m, n', Back(m, e), now)
    ensures SentOn(n, n', Back(n, e), now)
  {
  }

  lemma SamePeersSent(n: Node, m: Node, m': Node, now: Millis)
    requires SentOn(n, m, {}, now) && m'.peers == m.peers
    ensures SentOn(n, m', {}, now)
  {
  }

  lemma StayingSends(n: Node, n': Node, now: Millis)
    requires n'.peers.Keys <= n.peers.Keys && forall p :: p in n'.peers ==> n'.peers[p] == n.peers[p]
    ensures SentOn(n, n', {}, now)
  {
  }

  lemma DisconnectSends(n: Node, peer: PubKey, now: Millis)
    ensures SentOn(n, Disconnect(n, peer, now).n, {}, now)
  {
    hide Park, Discard, LetGo;
  }

  // ------------------------------------------------------------------------
  // Two nodes meet
  // ------------------------------------------------------------------------

  /** What a node says of itself first. */
  function Hello(cfg: Config): Message {
    MAnnounce(Announce(PROTOCOL_VERSION, cfg.local, cfg.node.unit, 0))
  }

  lemma GreetSaysHello(cfg: Config, peer: PubKey, policy: PeerPolicy, t: Turn, now: Millis)
    ensures Send(peer, Hello(cfg)) in Greet(cfg, peer, policy, t, now).out
    ensures Greet(cfg, peer, policy, t, now).s.phase == t.s.phase
  {
    hide Readies, BalanceOf, OfferFor, AccessOf, RateOf;
    var said := [SetAccess(peer, AccessLevel.Nothing), Send(peer, Hello(cfg))];
    assert said[1] in said;
  }

  lemma ConnectSaysHello(n: Node, peer: PubKey, budget: Option<Budget>, now: Millis)
    requires !PolicyFor(n, peer).blocked
    ensures var c := Step(n, PeerConnected(peer, budget), now);
      && Send(peer, Hello(n.cfg)) in c.out && peer in c.n.peers && c.n.peers[peer].phase.Opening? && c.n.cfg == n.cfg
  {
    hide Nodes.Kept, Begin, Greet, NoteSent, Hello;
    var policy := PolicyFor(n, peer);
    var (kept, ended) := Nodes.Kept(n, peer, now);
    var begun := Begin(n.cfg, peer, policy, kept, budget, now, n.nextRequest);
    BeginsOpening(n.cfg, peer, policy, kept, budget, now, n.nextRequest);
    GreetSaysHello(n.cfg, peer, policy, begun, now);
    var c := Connect(n, peer, budget, now);
    assert c == Install(Course(Cleared(n, peer), ended), peer, Greet(n.cfg, peer, policy, begun, now));
    hide Connect;
    NotingKeepsPhase(c, now);
  }

  lemma BeginsOpening(cfg: Config, peer: PubKey, policy: PeerPolicy, kept: Option<PeerSession>, budget: Option<Budget>, now: Millis, next: u64)
    ensures Begin(cfg, peer, policy, kept, budget, now, next).s.phase.Opening?
  {
    hide Grant.Restart, Buyer.Restart, SettleEach, ExpiringIds, Grant.Restore;
  }

  lemma NotingKeepsPhase(c: Course, now: Millis)
    ensures var d := NoteSent(c, now);
      && d.n.cfg == c.n.cfg && d.out == c.out && d.n.peers.Keys == c.n.peers.Keys
      && forall p :: p in c.n.peers ==> d.n.peers[p].phase == c.n.peers[p].phase
  {
  }

  /** Another version, or another unit. */
  predicate Foreign(cfg: Config, m: Announce) {
    m.version != PROTOCOL_VERSION || m.unit != cfg.node.unit
  }

  /** A node in a new session hears an Announce: it ends the session and drops the link exactly when that is foreign. */
  lemma AnnounceIsHeard(n: Node, peer: PubKey, m: Announce, now: Millis)
    requires peer in n.peers && n.peers[peer].phase.Opening?
    ensures var c := Step(n, MessageReceived(peer, MAnnounce(m)), now);
      && peer in c.n.peers
      && (c.n.peers[peer].phase.Closing? <==> Foreign(n.cfg, m))
      && (DropPeer(peer) in c.out <==> Foreign(n.cfg, m))
  {
    var t := Enter(n, peer);
    var heard := t.(s := t.s.(lastSeen := now));
    hide NoteSent, ReservedElsewhere;
    var after := OnSession(n, t, MessageReceived(peer, MAnnounce(m)), ReservedElsewhere(n, peer), now);
    assert after == OnAnnounce(n.cfg, peer, heard, m);
    var c := Install(Course(n, []), peer, after);
    assert c.out == after.out;
    NotingKeepsPhase(c, now);
  }

  lemma HelloIsOurs(a: Config, b: Config)
    ensures Hello(a).MAnnounce? && Hello(b).MAnnounce?
    ensures Hello(a) == MAnnounce(Hello(a).announce) && Hello(b) == MAnnounce(Hello(b).announce)
    ensures Foreign(a, Hello(b).announce) <==> a.node.unit != b.node.unit
    ensures Foreign(b, Hello(a).announce) <==> a.node.unit != b.node.unit
  {
  }

  /**
    Two nodes that connect each send the other an Announce, and on hearing it both go on or both end the
    session and drop the link: they go on exactly when they sell in the same unit.
   */
  lemma NodesMeetIff(a: Node, b: Node, atB: PubKey, atA: PubKey, budgetA: Option<Budget>, budgetB: Option<Budget>, now: Millis, later: Millis)
    requires !PolicyFor(a, atA).blocked && !PolicyFor(b, atB).blocked
    ensures var (ca, cb) := (Step(a, PeerConnected(atA, budgetA), now), Step(b, PeerConnected(atB, budgetB), now));
      && Send(atA, Hello(a.cfg)) in ca.out && Send(atB, Hello(b.cfg)) in cb.out
      && var (da, db) := (Step(ca.n, MessageReceived(atA, Hello(b.cfg)), later), Step(cb.n, MessageReceived(atB, Hello(a.cfg)), later));
      && atA in da.n.peers && atB in db.n.peers
      && (da.n.peers[atA].phase.Closing? <==> a.cfg.node.unit != b.cfg.node.unit)
      && (db.n.peers[atB].phase.Closing? <==> a.cfg.node.unit != b.cfg.node.unit)
      && (DropPeer(atA) in da.out <==> DropPeer(atB) in db.out)
  {
    hide Step, Hello, Foreign;
    ConnectSaysHello(a, atA, budgetA, now);
    ConnectSaysHello(b, atB, budgetB, now);
    HelloIsOurs(a.cfg, b.cfg);
    AnnounceIsHeard(Step(a, PeerConnected(atA, budgetA), now).n, atA, Hello(b.cfg).announce, later);
    AnnounceIsHeard(Step(b, PeerConnected(atB, budgetB), now).n, atB, Hello(a.cfg).announce, later);
  }

  // ------------------------------------------------------------------------
  // Over whole runs
  // ------------------------------------------------------------------------

  /** Every live peer was sent something within the interval before `at`, unless its session is ending. */
  ghost predicate NoneQuiet(n: Node, at: Millis) {
    forall p :: p in n.peers ==> Fresh(n.cfg, n.peers[p], at)
  }

  /**
    An ending session is brought back by a verification, which is answered at once, or by an opening Offer
    while its link is still fresh at the last tick.
   */
  ghost predicate BackInTime(n: Node, e: Event, ticked: Millis) {
    Revives(n, e) && !Verifies(n, e) ==> SatSub(ticked, n.peers[e.peer].lastSent) < n.cfg.node.KeepaliveIntervalMs()
  }

  /** Events in clock order, a tick no later than `periodMs` after the one at `ticked`, and sessions brought back in time. */
  ghost predicate Paced(n: Node, es: seq<(Event, Millis)>, ticked: Millis, now: Millis, periodMs: u64)
    decreases |es|
  {
    es == [] ||
    var (e, at) := es[0];
    && now <= at && at - ticked <= periodMs && Possible(n, e) && BackInTime(n, e, ticked)
    && Paced(Step(n, e, at).n, es[1..], if e.Tick? then at else ticked, at, periodMs)
  }

  function LastTick(es: seq<(Event, Millis)>, ticked: Millis): Millis
    decreases |es|
  {
    if es == [] then ticked else LastTick(es[1..], if es[0].0.Tick? then es[0].1 else ticked)
  }

  /** A verification is answered, so its link carries something just then. */
  lemma VerifiedIsSent(n: Node, e: Event, now: Millis)
    requires Verifies(n, e) && e.peer in n.peers
    ensures e.peer in Step(n, e, now).n.peers && Step(n, e, now).n.peers[e.peer].lastSent == now
  {
    hide ReservedElsewhere, FirstBesides, Refresh, Find, Put;
    var t := Enter(n, e.peer);
    var replacing := FirstBesides(t.s.grant.channels, e.channelId);
    var msg := if replacing.Some? then MRolloverReady(replacing.value, e.channelId) else MChannelReady(e.channelId);
    var told := t.(s := t.s.(grant := t.s.grant.OpenChannel(e.channelId, e.capacity, e.expiresAt), phase := Established)).Does(Send(e.peer, msg));
    var after := Refresh(n.cfg, e.peer, told, now);
    assert OnSession(n, t, e, ReservedElsewhere(n, e.peer), now) == after;
    assert told.out[0] == Send(e.peer, msg) && Sends(told.out[0], e.peer);
    RefreshIsOrdinaryOut(n.cfg, e.peer, told, now);
    var c := Install(Course(n, []), e.peer, after);
    assert c.out == after.out && SentTo(c.out, e.peer);
  }

  lemma RefreshIsOrdinaryOut(cfg: Config, peer: PubKey, t: Turn, now: Millis)
    ensures forall a :: a in t.out ==> a in Refresh(cfg, peer, t, now).out
  {
    hide RateOf, AccessOf, BalanceOf;
  }

  lemma SentStaysFresh(n: Node, n': Node, back: set<PubKey>, ticked: Millis, now: Millis)
    requires Offered(n) && NoneQuiet(n, ticked) && SentOn(n, n', back, now) && ticked <= now && n'.cfg.node == n.cfg.node
    requires forall p :: p in back && p in n.peers && p in n'.peers ==>
      n'.peers[p].lastSent == now || SatSub(ticked, n.peers[p].lastSent) < n.cfg.node.KeepaliveIntervalMs()
    ensures Offered(n') && NoneQuiet(n', ticked)
  {
    forall p | p in n'.peers ensures Fresh(n'.cfg, n'.peers[p], ticked) {
      if n'.peers[p].lastSent != now {
        assert Fresh(n.cfg, n.peers[p], ticked);
      }
    }
  }

  lemma StepLeavesNoneQuiet(n: Node, e: Event, ticked: Millis, now: Millis)
    requires NodeSound(n) && Possible(n, e) && BackInTime(n, e, ticked) && Offered(n) && NoneQuiet(n, ticked) && ticked <= now
    ensures Offered(Step(n, e, now).n) && NoneQuiet(Step(n, e, now).n, if e.Tick? then now else ticked)
  {
    hide Step, NodeSound, Verifies, Resuming, SentOn, Fresh;
    var n' := Step(n, e, now).n;
    StepSends(n, e, now);
    StepKeepsSettings(n, e, now);
    if e.Tick? {
      TickedFresh(n, e, now);
    } else {
      if Revives(n, e) && Verifies(n, e) {
        VerifiedIsSent(n, e, now);
      }
      SentStaysFresh(n, n', Back(n, e), ticked, now);
    }
  }

  lemma TickedFresh(n: Node, e: Event, now: Millis)
    requires NodeSound(n) && e.Tick? && Possible(n, e) && Offered(n)
    ensures Offered(Step(n, e, now).n) && NoneQuiet(Step(n, e, now).n, now)
  {
    StepKeepsSettings(n, e, now);
    TickSends(n, e.order, now);
    forall p | p in Step(n, e, now).n.peers ensures Fresh(Step(n, e, now).n.cfg, Step(n, e, now).n.peers[p], now) {
      TickLeavesNoneQuiet(n, e.order, now, p);
    }
  }

  /**
    Over any run with ticks at most `periodMs` apart, no live session has had nothing sent on it for
    the keepalive interval and a tick's time more. So if the two fit its timeout, no peer that counts to
    the same one gives up on us.
   */
  lemma {:induction false} NeverQuietForLong(n: Node, es: seq<(Event, Millis)>, ticked: Millis, now: Millis, periodMs: u64,
                                             p: PubKey, later: Millis)
    requires NodeSound(n) && Offered(n) && NoneQuiet(n, ticked) && ticked <= now && Paced(n, es, ticked, now, periodMs)
    requires var m := NodeCapacity.Run(n, es); p in m.peers && !m.peers[p].phase.Closing?
    requires LastTick(es, ticked) <= later <= LastTick(es, ticked) + periodMs
    ensures var m := NodeCapacity.Run(n, es);
      && m.cfg.node == n.cfg.node && m.peers[p].offerSent.Some?
      && SatSub(later, m.peers[p].lastSent) < n.cfg.node.KeepaliveIntervalMs() + periodMs
    decreases |es|
  {
    hide Step, NodeSound, BackInTime, NoneDropped;
    if es == [] {
      assert Fresh(n.cfg, n.peers[p], ticked);
    } else {
      var (e, at) := es[0];
      NoEarningsDropped(n, e, at);
      StepLeavesNoneQuiet(n, e, ticked, at);
      StepKeepsSettings(n, e, at);
      hide NoneQuiet, Offered;
      NeverQuietForLong(Step(n, e, at).n, es[1..], if e.Tick? then at else ticked, at, periodMs, p, later);
    }
  }

  /** From a node with no one, started at any instant: no live peer with our timeout is left waiting it out. */
  lemma KeepaliveComesInTime(cfg: Config, es: seq<(Event, Millis)>, start: Millis, periodMs: u64, p: PubKey, later: Millis)
    requires cfg.node.staleTimeoutMs >= 3 && periodMs + cfg.node.staleTimeoutMs / 3 <= cfg.node.staleTimeoutMs
    requires Paced(NewNode(cfg), es, start, start, periodMs)
    requires var m := NodeCapacity.Run(NewNode(cfg), es); p in m.peers && !m.peers[p].phase.Closing?
    requires LastTick(es, start) <= later <= LastTick(es, start) + periodMs
    ensures SatSub(later, NodeCapacity.Run(NewNode(cfg), es).peers[p].lastSent) < cfg.node.staleTimeoutMs
  {
    NewNodeWithin(cfg);
    hide NodeCapacity.Run, Paced;
    NeverQuietForLong(NewNode(cfg), es, start, start, periodMs, p, later);
  }
}
