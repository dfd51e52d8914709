/** Every peer at once: what happens, as a function from the node to the node after and its actions. */
module Nodes {
  import opened Numbers
  import opened Wrappers
  import opened Wire
  import opened Grants
  import opened Buyers
  import opened Sessions

  datatype Parked = Parked(session: PeerSession, since: Millis)

  datatype Node = Node(cfg: Config, peers: map<PubKey, PeerSession>, parked: map<PubKey, Parked>,
                       overrides: map<PubKey, PeerPolicy>, nextRequest: u64)

  /**
    What the host reports. A tick, and winding down, visit the peers in an `order`; the program's is
    ascending by key, and nothing here depends on which.
   */
  datatype Event =
    | PeerConnected(peer: PubKey, budget: Option<Budget>)
    | PeerDisconnected(peer: PubKey)
    | MessageReceived(peer: PubKey, msg: Message)
    | TopUpSignatureInvalid(peer: PubKey, channelId: ChannelId)
    | OutgoingChannelFunded(peer: PubKey, request: u64, channelId: ChannelId, capacity: u64, expiresAt: Option<Millis>, funding: Bytes)
    | OutgoingFundingFailed(peer: PubKey, request: u64)
    | IncomingFundingVerified(peer: PubKey, channelId: ChannelId, capacity: u64, expiresAt: Option<Millis>, mintUrl: Text)
    | IncomingFundingRejected(peer: PubKey, reason: ReasonCode)
    | Metered(peer: PubKey, counters: Counters, carried: bool)
    | DemandObserved(peer: PubKey, rate: u64)
    | Tick(order: seq<PubKey>)
    | PeerPolicySet(peer: PubKey, policy: PeerPolicy)
    | BuyerPolicySet(buying: BuyerPolicy)
    | Forgotten(peer: PubKey)
    | ShutDown(order: seq<PubKey>)

  /** A node part way through an event. */
  datatype Course = Course(n: Node, out: seq<Action>) {
    function DoAll(actions: seq<Action>): Course {
      this.(out := out + actions)
    }
  }

  function NewNode(cfg: Config): Node {
    Node(cfg, map[], map[], map[], 1)
  }

  // ------------------------------------------------------------------------
  // Admission across peers
  // ------------------------------------------------------------------------

  function Reserves(s: PeerSession): u64 {
    if s.phase.Closing? then 0 else s.grant.reservedRate
  }

  /** What the sessions that are not ending have reserved, together. */
  ghost function TotalReserved(peers: map<PubKey, PeerSession>): nat
    decreases |peers|
  {
    if peers == map[] then 0
    else
      var p :| p in peers;
      Reserves(peers[p]) + TotalReserved(peers - {p})
  }

  ghost function ReservedElsewhere(n: Node, payer: PubKey): u64 {
    Saturate(TotalReserved(n.peers - {payer}))
  }

  // ------------------------------------------------------------------------
  // One peer at a time
  // ------------------------------------------------------------------------

  function Enter(n: Node, peer: PubKey): Turn
    requires peer in n.peers
  {
    Turn(n.peers[peer], n.nextRequest, [])
  }

  function Install(c: Course, peer: PubKey, t: Turn): Course {
    Course(c.n.(peers := c.n.peers[peer := t.s], nextRequest := t.nextRequest), c.out + t.out)
  }

  function Without(n: Node, peer: PubKey): Node {
    n.(peers := n.peers - {peer})
  }

  /** Save what is left of a session and settle what it was paid on; the session itself is let go. */
  function LetGo(peer: PubKey, s: PeerSession, now: Millis): seq<Action> {
    Discard(peer, Save(peer, Turn(s, 0, []), now)).out
  }

  function ParkPeer(c: Course, peer: PubKey, now: Millis): Course
    requires peer in c.n.peers
  {
    var t := Park(peer, Turn(c.n.peers[peer], c.n.nextRequest, []), now);
    var gone := Without(c.n, peer);
    if c.n.cfg.node.staleTimeoutMs == 0 then Course(gone, c.out + Discard(peer, t).out)
    else Course(gone.(parked := gone.parked[peer := Parked(t.s, now)]), c.out + t.out)
  }

  // ------------------------------------------------------------------------
  // Connecting
  // ------------------------------------------------------------------------

  function PolicyFor(n: Node, peer: PubKey): PeerPolicy {
    if peer in n.overrides then n.overrides[peer] else DEFAULT_POLICY
  }

  /** The session to carry on with, if there is one, and what letting go of any other comes to. */
  function Kept(n: Node, peer: PubKey, now: Millis): (Option<PeerSession>, seq<Action>) {
    if peer in n.peers && !n.peers[peer].phase.Closing? then (Some(n.peers[peer]), [])
    else
      var ended := if peer in n.peers then LetGo(peer, n.peers[peer], now) else [];
      if peer !in n.parked then (None, ended)
      else
        var held := n.parked[peer];
        if SatSub(now, held.since) <= n.cfg.node.staleTimeoutMs then (Some(held.session), ended)
        else (None, ended + Discard(peer, Turn(held.session, 0, [])).out)
  }

  /** A node that holds `peer` neither live nor parked, unless parked behind a live session. */
  function Cleared(n: Node, peer: PubKey): Node {
    var live := peer in n.peers && !n.peers[peer].phase.Closing?;
    n.(peers := n.peers - {peer}, parked := if live then n.parked else n.parked - {peer})
  }

  /** The session a connection starts: resumed over what was kept, or from nothing but the saved budget. */
  function Begin(cfg: Config, peer: PubKey, policy: PeerPolicy, kept: Option<PeerSession>, budget: Option<Budget>, now: Millis,
                 nextRequest: u64): Turn
  {
    var t := match kept
      case Some(s) => SettleExpiring(cfg, peer, Turn(s.Resume(policy, now), nextRequest, []), now)
      case None =>
        var s := NewSession(policy, now);
        Turn(if budget.Some? then s.(grant := s.grant.Restore(budget.value, now)) else s, nextRequest, []);
    t.(s := t.s.(weight := policy.Weight(cfg.node)))
  }

  function Readies(peer: PubKey, ids: seq<ChannelId>): seq<Action> {
    if ids == [] then [] else [Send(peer, MChannelReady(ids[0]))] + Readies(peer, ids[1..])
  }

  /** What a new connection is told: that nothing is carried yet, who we are, what we still hold, our terms. */
  function Greet(cfg: Config, peer: PubKey, policy: PeerPolicy, t: Turn, now: Millis): Turn {
    var announced := t.DoAll([SetAccess(peer, AccessLevel.Nothing),
                              Send(peer, MAnnounce(Announce(PROTOCOL_VERSION, cfg.local, cfg.node.unit, 0)))]
                             + Readies(peer, Ids(t.s.grant.channels)));
    var offered := SendOffer(peer, announced, OfferFor(cfg, policy, policy.Weight(cfg.node)));
    var told := if policy.noCharge then offered
      else offered.(s := offered.s.(budgetLive := offered.s.grant.IsLive(now))).Does(Send(peer, BalanceOf(offered.s, now)));
    Refresh(cfg, peer, told, now)
  }

  function Connect(n: Node, peer: PubKey, budget: Option<Budget>, now: Millis): Course {
    var policy := PolicyFor(n, peer);
    if policy.blocked then Course(n, Rejected(peer, Other))
    else
      var (kept, ended) := Kept(n, peer, now);
      var begun := Begin(n.cfg, peer, policy, kept, budget, now, n.nextRequest);
      Install(Course(Cleared(n, peer), ended), peer, Greet(n.cfg, peer, policy, begun, now))
  }

  // ------------------------------------------------------------------------
  // A single peer's events
  // ------------------------------------------------------------------------

  /** What an event does to the session it names, when there is one. */
  ghost function OnSession(n: Node, t: Turn, e: Event, elsewhere: u64, now: Millis): Turn {
    var cfg, s := n.cfg, t.s;
    match e
    case MessageReceived(peer, msg) => OnMessage(cfg, peer, t, msg, elsewhere, now)
    case TopUpSignatureInvalid(peer, id) =>
      OnUnverified(cfg, peer, t.(s := s.(lastSeen := now, grant := s.grant.TopupChecked(now))), [id], now)
    case OutgoingChannelFunded(peer, request, id, capacity, expiresAt, funding) =>
      if s.buyer.Answers(request) then OnOutgoingFunded(cfg, peer, t, id, capacity, expiresAt, funding, now)
      else t.Does(ReclaimChannel(peer, id, capacity, expiresAt))
    case OutgoingFundingFailed(peer, request) => t.(s := s.(buyer := s.buyer.FundingFailed(request)))
    case IncomingFundingVerified(peer, id, capacity, expiresAt, mintUrl) =>
      if mintUrl in cfg.node.acceptedMints then OnIncomingVerified(cfg, peer, t, id, capacity, expiresAt, now)
      else Close(t).DoAll(Rejected(peer, MintNotAccepted))
    case IncomingFundingRejected(peer, reason) => Close(t).DoAll(Rejected(peer, reason))
    case Metered(peer, counters, carried) =>
      Refresh(cfg, peer, t.(s := OnMetered(s, counters, carried, now)), now)
    case DemandObserved(peer, rate) => PollBuyer(cfg, peer, t.(s := s.(demand := rate)), now)
    case PeerPolicySet(peer, policy) => OnPolicy(cfg, peer, t, policy, now)
    case _ => t
  }

  /** An override takes effect at once: a revised Offer if it changes one already sent. */
  function OnPolicy(cfg: Config, peer: PubKey, t: Turn, policy: PeerPolicy, now: Millis): Turn {
    var changed := t.(s := t.s.(policy := policy));
    if t.s.phase.Closing? then changed
    else
      var revised := OfferFor(cfg, policy, t.s.weight);
      Refresh(cfg, peer,
              if t.s.offerSent.Some? && t.s.offerSent.value != revised then SendOffer(peer, changed, revised) else changed,
              now)
  }

  /** What an event about a peer we do not hold comes to. */
  function OnStranger(cfg: Config, e: Event): seq<Action> {
    match e
    case OutgoingChannelFunded(peer, _, id, capacity, expiresAt, _) => [ReclaimChannel(peer, id, capacity, expiresAt)]
    case IncomingFundingVerified(peer, _, _, _, mintUrl) =>
      if mintUrl in cfg.node.acceptedMints then [] else Rejected(peer, MintNotAccepted)
    case IncomingFundingRejected(peer, reason) => Rejected(peer, reason)
    case _ => []
  }

  ghost function OnPeer(n: Node, peer: PubKey, e: Event, now: Millis): Course {
    if peer in n.peers then Install(Course(n, []), peer, OnSession(n, Enter(n, peer), e, ReservedElsewhere(n, peer), now))
    else Course(n, OnStranger(n.cfg, e))
  }

  function Disconnect(n: Node, peer: PubKey, now: Millis): Course {
    if peer !in n.peers then Course(n, [])
    else if n.peers[peer].phase.Closing? then Course(Without(n, peer), LetGo(peer, n.peers[peer], now))
    else ParkPeer(Course(n, []), peer, now)
  }

  function Forget(n: Node, peer: PubKey, now: Millis): Course {
    Course(n.(peers := n.peers - {peer}, parked := n.parked - {peer}),
           (if peer in n.peers then LetGo(peer, n.peers[peer], now) else [])
           + (if peer in n.parked then LetGo(peer, n.parked[peer].session, now) else []))
  }

  // ------------------------------------------------------------------------
  // Every peer in turn
  // ------------------------------------------------------------------------

  function TickPeer(c: Course, peer: PubKey, now: Millis): Course {
    if peer !in c.n.peers then c
    else if Stale(c.n.cfg, c.n.peers[peer], now) then ParkPeer(c, peer, now).DoAll([DropPeer(peer)])
    else Install(c, peer, OnTick(c.n.cfg, peer, Enter(c.n, peer), now))
  }

  function TickPeers(c: Course, order: seq<PubKey>, now: Millis): Course
    decreases |order|
  {
    if order == [] then c else TickPeers(TickPeer(c, order[0], now), order[1..], now)
  }

  /** Let go of a held session whose grace is over. */
  function ExpireParked(c: Course, peer: PubKey, now: Millis): Course {
    if peer !in c.n.parked || SatSub(now, c.n.parked[peer].since) <= c.n.cfg.node.staleTimeoutMs then c
    else Course(c.n.(parked := c.n.parked - {peer}), c.out + Discard(peer, Turn(c.n.parked[peer].session, 0, [])).out)
  }

  function ExpireAllParked(c: Course, order: seq<PubKey>, now: Millis): Course
    decreases |order|
  {
    if order == [] then c else ExpireAllParked(ExpireParked(c, order[0], now), order[1..], now)
  }

  /** One still held keeps its channels, but not past the point where the peer could take them back. */
  function SettleParked(c: Course, peer: PubKey, now: Millis): Course {
    if peer !in c.n.parked then c
    else
      var held := c.n.parked[peer];
      var settled := SettleExpiring(c.n.cfg, peer, Turn(held.session, 0, []), now);
      Course(c.n.(parked := c.n.parked[peer := held.(session := settled.s)]), c.out + settled.out)
  }

  function SettleAllParked(c: Course, order: seq<PubKey>, now: Millis): Course
    decreases |order|
  {
    if order == [] then c else SettleAllParked(SettleParked(c, order[0], now), order[1..], now)
  }

  predicate Sends(a: Action, peer: PubKey) {
    (a.Send? || a.SignAndSendTopUp?) && a.peer == peer
  }

  predicate SentTo(out: seq<Action>, peer: PubKey) {
    exists a :: a in out && Sends(a, peer)
  }

  /** Remember when each peer was last sent anything. */
  function NoteSent(c: Course, now: Millis): Course {
    c.(n := c.n.(peers := map p | p in c.n.peers ::
      if SentTo(c.out, p) then c.n.peers[p].(lastSent := now) else c.n.peers[p]))
  }

  function KeepAlive(c: Course, peer: PubKey, now: Millis): Course {
    if peer !in c.n.peers then c
    else
      var s := c.n.peers[peer];
      if s.phase.Closing? || SatSub(now, s.lastSent) < c.n.cfg.node.KeepaliveIntervalMs() || s.offerSent.None? then c
      else
        Course(c.n.(peers := c.n.peers[peer := s.(lastSent := now)]), c.out + [Send(peer, MOffer(s.offerSent.value))])
  }

  function KeepAllAlive(c: Course, order: seq<PubKey>, now: Millis): Course
    decreases |order|
  {
    if order == [] then c else KeepAllAlive(KeepAlive(c, order[0], now), order[1..], now)
  }

  function Ticked(n: Node, order: seq<PubKey>, now: Millis): Course {
    KeepAllAlive(NoteSent(SettleAllParked(ExpireAllParked(TickPeers(Course(n, []), order, now), order, now), order, now), now), order, now)
  }

  function WindDownPeer(c: Course, peer: PubKey, now: Millis): Course {
    if peer !in c.n.peers then c
    else
      var closed := Close(Enter(c.n, peer));
      Install(c, peer, Discard(peer, Save(peer, closed, now)).Does(Send(peer, MDisconnect(Other))))
  }

  function WindDownPeers(c: Course, order: seq<PubKey>, now: Millis): Course
    decreases |order|
  {
    if order == [] then c else WindDownPeers(WindDownPeer(c, order[0], now), order[1..], now)
  }

  function WindDownParked(c: Course, peer: PubKey, now: Millis): Course {
    if peer !in c.n.parked then c
    else Course(c.n.(parked := c.n.parked - {peer}), c.out + LetGo(peer, c.n.parked[peer].session, now))
  }

  function WindDownAllParked(c: Course, order: seq<PubKey>, now: Millis): Course
    decreases |order|
  {
    if order == [] then c else WindDownAllParked(WindDownParked(c, order[0], now), order[1..], now)
  }

  /** Every peer, live or parked, exactly once. */
  ghost predicate Visits(order: seq<PubKey>, n: Node) {
    && (forall i, j :: 0 <= i < j < |order| ==> order[i] != order[j])
    && (forall p :: p in n.peers || p in n.parked ==> p in order)
  }

  ghost predicate Possible(n: Node, e: Event) {
    (e.Tick? || e.ShutDown?) ==> Visits(e.order, n)
  }

  /** One event, start to finish. */
  ghost function Step(n: Node, e: Event, now: Millis): Course {
    match e
    case PeerConnected(peer, budget) => NoteSent(Connect(n, peer, budget, now), now)
    case PeerDisconnected(peer) => NoteSent(Disconnect(n, peer, now), now)
    case Tick(order) => Ticked(n, order, now)
    case Forgotten(peer) => Forget(n, peer, now)
    case ShutDown(order) => WindDownAllParked(WindDownPeers(Course(n, []), order, now), order, now)
    case BuyerPolicySet(buying) => Course(n.(cfg := n.cfg.(buying := buying)), [])
    case PeerPolicySet(peer, policy) =>
      NoteSent(OnPeer(n.(overrides := n.overrides[peer := policy]), peer, e, now), now)
    case _ => NoteSent(OnPeer(n, e.peer, e, now), now)
  }
}
