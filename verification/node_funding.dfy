/**
  Funding a channel takes the host a while, and the answer may find the session changed: timed out
  and asked again, started over, resumed, gone. A funded channel is taken only for a request still
  open, never over one waiting, and closes every other; any other is handed back to be reclaimed.
 */
module NodeFunding {
  import opened Numbers
  import opened Wrappers
  import opened Wire
  import opened Grants
  import opened Buyers
  import opened Sessions
  import opened Nodes
  import opened NodeEarnings
  import NodeCapacity
  import opened SessionRequests

  // ------------------------------------------------------------------------
  // Every peer at once
  // ------------------------------------------------------------------------

  ghost predicate Holds(n: Node, p: PubKey) {
    p in n.peers || p in n.parked
  }

  /** The requests kept for a peer, live or parked. */
  ghost function FundingOf(n: Node, p: PubKey): Option<FundingRequests> {
    if p in n.peers then n.peers[p].buyer.funding
    else if p in n.parked then n.parked[p].session.buyer.funding
    else None
  }

  /** So far into an event that began with the requests `f` kept for `p`, and `next` the next id. */
  ghost predicate SinceFor(p: PubKey, f: Option<FundingRequests>, next: u64, c: Course) {
    NoneLast(c.out) ==>
      (&& next <= c.n.nextRequest
       && (forall a :: a in c.out && a.FundChannel? ==> next <= a.request < c.n.nextRequest)
       && (Holds(c.n, p) ==> Extended(f, Asks(c.out, p), FundingOf(c.n, p))))
  }

  ghost predicate QuietFor(c: Course, c': Course, p: PubKey) {
    && c'.n.nextRequest == c.n.nextRequest
    && (forall a: Action :: a.FundChannel? ==> (a in c'.out <==> a in c.out))
    && (Holds(c'.n, p) ==> Holds(c.n, p) && Extended(FundingOf(c.n, p), {}, FundingOf(c'.n, p)))
  }

  lemma QuietForKeeps(p: PubKey, f: Option<FundingRequests>, next: u64, c: Course, c': Course)
    requires SinceFor(p, f, next, c) && QuietFor(c, c', p)
    ensures SinceFor(p, f, next, c')
  {
    assert NoneLast(c'.out) <==> NoneLast(c.out);
    assert Asks(c'.out, p) == Asks(c.out, p);
  }

  lemma NothingYet(p: PubKey, n: Node)
    ensures SinceFor(p, FundingOf(n, p), n.nextRequest, Course(n, []))
  {
    assert Asks([], p) == {};
  }

  /** A turn of one session, put back among the others. */
  lemma InstallKeeps(p: PubKey, f: Option<FundingRequests>, next: u64, c: Course, q: PubKey, t: Turn)
    requires SinceFor(p, f, next, c) && q in c.n.peers
    requires Since(q, c.n.peers[q].buyer.funding, c.n.nextRequest, t)
    ensures SinceFor(p, f, next, Install(c, q, t))
  {
    var c' := Install(c, q, t);
    if NoneLast(c'.out) {
      assert NoneLast(c.out) && NoneLast(t.out);
      if q == p {
        assert Asks(c'.out, p) == Asks(c.out, p) + Asks(t.out, p);
        ExtendedThen(f, Asks(c.out, p), c.n.peers[p].buyer.funding, Asks(t.out, p), t.s.buyer.funding, c.n.nextRequest);
      } else {
        InstallAside(p, f, next, c, q, c.n.peers[q].buyer.funding, t);
      }
    }
  }

  /** Another session's turn. */
  lemma InstallAside(p: PubKey, f: Option<FundingRequests>, next: u64, c: Course, q: PubKey, g: Option<FundingRequests>, t: Turn)
    requires SinceFor(p, f, next, c) && q in c.n.peers && q != p && Since(q, g, c.n.nextRequest, t)
    ensures SinceFor(p, f, next, Install(c, q, t))
  {
    var c' := Install(c, q, t);
    if NoneLast(c'.out) {
      assert NoneLast(c.out) && NoneLast(t.out);
      assert Asks(c'.out, p) == Asks(c.out, p);
    }
  }

  lemma ExtendedThen(f: Option<FundingRequests>, asks: set<u64>, g: Option<FundingRequests>, more: set<u64>, h: Option<FundingRequests>, next: u64)
    requires Extended(f, asks, g) && Extended(g, more, h)
    requires (forall r :: r in asks ==> r < next) && (forall r :: r in more ==> next <= r)
    ensures Extended(f, asks + more, h)
  {
    if more == {} {
      assert asks + more == asks;
    } else {
      assert asks + more != {} by {
        var r :| r in more;
        assert r in asks + more;
      }
    }
  }

  lemma ParkingIsQuiet(c: Course, peer: PubKey, p: PubKey, now: Millis)
    requires peer in c.n.peers && peer !in c.n.parked
    ensures QuietFor(c, ParkPeer(c, peer, now), p)
  {
    SettlingIsQuiet(peer, Park(peer, Turn(c.n.peers[peer], c.n.nextRequest, []), now),
                    Ids(Park(peer, Turn(c.n.peers[peer], c.n.nextRequest, []), now).s.grant.channels));
    hide Settle, Grant.EndReservation, Grant.BudgetAt;
  }

  lemma LettingGoAsksNothing(peer: PubKey, s: PeerSession, now: Millis)
    ensures forall a :: a in LetGo(peer, s, now) ==> !a.FundChannel?
  {
    var t := Save(peer, Turn(s, 0, []), now);
    SettlingIsQuiet(peer, t, Ids(t.s.grant.channels));
    hide Settle;
  }

  lemma TickingOneKeeps(p: PubKey, f: Option<FundingRequests>, next: u64, c: Course, peer: PubKey, now: Millis)
    requires SinceFor(p, f, next, c) && NodeSound(c.n)
    ensures SinceFor(p, f, next, TickPeer(c, peer, now))
  {
    if peer in c.n.peers {
      if Stale(c.n.cfg, c.n.peers[peer], now) {
        var parked := ParkPeer(c, peer, now);
        ParkingIsQuiet(c, peer, p, now);
        QuietForKeeps(p, f, next, c, parked);
        QuietForKeeps(p, f, next, parked, parked.DoAll([DropPeer(peer)]));
      } else {
        TickAsks(c.n.cfg, peer, Enter(c.n, peer), now);
        hide OnTick, SinceFor;
        InstallKeeps(p, f, next, c, peer, OnTick(c.n.cfg, peer, Enter(c.n, peer), now));
      }
    }
  }

  lemma {:induction false} TickingKeeps(p: PubKey, f: Option<FundingRequests>, next: u64, c: Course, order: seq<PubKey>, now: Millis)
    requires SinceFor(p, f, next, c) && NodeSound(c.n)
    ensures SinceFor(p, f, next, TickPeers(c, order, now))
    decreases |order|
  {
    if order != [] {
      TickingOneKeeps(p, f, next, c, order[0], now);
      TickPeerCarries(c, order[0], now);
      CarriesIsSound(c, TickPeer(c, order[0], now));
      hide TickPeer, SinceFor, NodeSound;
      TickingKeeps(p, f, next, TickPeer(c, order[0], now), order[1..], now);
    }
  }

  lemma QuietForThen(c: Course, d: Course, e: Course, p: PubKey)
    requires QuietFor(c, d, p) && QuietFor(d, e, p)
    ensures QuietFor(c, e, p)
  {
  }

  lemma ParkedAreQuiet(c: Course, peer: PubKey, p: PubKey, now: Millis)
    ensures QuietFor(c, ExpireParked(c, peer, now), p) && QuietFor(c, SettleParked(c, peer, now), p)
  {
    if peer in c.n.parked {
      var t := Turn(c.n.parked[peer].session, 0, []);
      SettlingIsQuiet(peer, t, Ids(t.s.grant.channels));
      SettlingIsQuiet(peer, t, ExpiringIds(t.s.grant.channels, now, c.n.cfg.node.SettleLeadMs()));
    }
    hide Settle;
  }

  lemma LinksAreQuiet(c: Course, peer: PubKey, p: PubKey, now: Millis)
    ensures QuietFor(c, KeepAlive(c, peer, now), p) && QuietFor(c, WindDownParked(c, peer, now), p)
  {
    hide LetGo;
    if peer in c.n.parked {
      LettingGoAsksNothing(peer, c.n.parked[peer].session, now);
    }
  }

  lemma WindingDownOneIsQuiet(c: Course, peer: PubKey, p: PubKey, now: Millis)
    ensures QuietFor(c, WindDownPeer(c, peer, now), p)
  {
    if peer in c.n.peers {
      var saved := Save(peer, Close(Enter(c.n, peer)), now);
      SettlingIsQuiet(peer, saved, Ids(saved.s.grant.channels));
      hide Settle, Grant.BudgetAt;
    }
  }

  lemma {:induction false} LoopsAreQuiet(c: Course, order: seq<PubKey>, p: PubKey, now: Millis)
    ensures QuietFor(c, ExpireAllParked(c, order, now), p) && QuietFor(c, SettleAllParked(c, order, now), p)
    ensures QuietFor(c, KeepAllAlive(c, order, now), p)
    ensures QuietFor(c, WindDownAllParked(c, order, now), p) && QuietFor(c, WindDownPeers(c, order, now), p)
    decreases |order|
  {
    if order != [] {
      var q := order[0];
      ParkedAreQuiet(c, q, p, now);
      LinksAreQuiet(c, q, p, now);
      WindingDownOneIsQuiet(c, q, p, now);
      hide ExpireParked, SettleParked, KeepAlive, WindDownParked, WindDownPeer, QuietFor;
      LoopsAreQuiet(ExpireParked(c, q, now), order[1..], p, now);
      LoopsAreQuiet(SettleParked(c, q, now), order[1..], p, now);
      LoopsAreQuiet(KeepAlive(c, q, now), order[1..], p, now);
      LoopsAreQuiet(WindDownParked(c, q, now), order[1..], p, now);
      LoopsAreQuiet(WindDownPeer(c, q, now), order[1..], p, now);
      QuietForThen(c, ExpireParked(c, q, now), ExpireAllParked(c, order, now), p);
      QuietForThen(c, SettleParked(c, q, now), SettleAllParked(c, order, now), p);
      QuietForThen(c, KeepAlive(c, q, now), KeepAllAlive(c, order, now), p);
      QuietForThen(c, WindDownParked(c, q, now), WindDownAllParked(c, order, now), p);
      QuietForThen(c, WindDownPeer(c, q, now), WindDownPeers(c, order, now), p);
    }
  }

  lemma NotingIsQuiet(c: Course, p: PubKey, now: Millis)
    ensures QuietFor(c, NoteSent(c, now), p)
  {
  }

  lemma TickedKeeps(n: Node, order: seq<PubKey>, p: PubKey, now: Millis)
    requires NodeSound(n)
    ensures SinceFor(p, FundingOf(n, p), n.nextRequest, Ticked(n, order, now))
  {
    var f, next := FundingOf(n, p), n.nextRequest;
    var ticked := TickPeers(Course(n, []), order, now);
    var expired := ExpireAllParked(ticked, order, now);
    var settled := SettleAllParked(expired, order, now);
    var noted := NoteSent(settled, now);
    NothingYet(p, n);
    TickingKeeps(p, f, next, Course(n, []), order, now);
    hide TickPeers, ExpireAllParked, SettleAllParked, NoteSent, KeepAllAlive, SinceFor, QuietFor;
    LoopsAreQuiet(ticked, order, p, now);
    QuietForKeeps(p, f, next, ticked, expired);
    LoopsAreQuiet(expired, order, p, now);
    QuietForKeeps(p, f, next, expired, settled);
    NotingIsQuiet(settled, p, now);
    QuietForKeeps(p, f, next, settled, noted);
    LoopsAreQuiet(noted, order, p, now);
    QuietForKeeps(p, f, next, noted, KeepAllAlive(noted, order, now));
  }

  // ------------------------------------------------------------------------
  // Connecting
  // ------------------------------------------------------------------------

  lemma {:induction false} ReadiesAskNothing(peer: PubKey, ids: seq<ChannelId>)
    ensures forall a :: a in Readies(peer, ids) ==> !a.FundChannel?
  {
    if ids != [] {
      ReadiesAskNothing(peer, ids[1..]);
    }
  }

  lemma GreetIsQuiet(cfg: Config, peer: PubKey, policy: PeerPolicy, t: Turn, now: Millis)
    ensures Quiet(t, Greet(cfg, peer, policy, t, now))
  {
    ReadiesAskNothing(peer, Ids(t.s.grant.channels));
    hide Readies, BalanceOf, OfferFor, RateOf, Ids, AccessOf, Grant.IsLive;
  }

  lemma BeginAsksNothing(cfg: Config, peer: PubKey, policy: PeerPolicy, kept: Option<PeerSession>, budget: Option<Budget>, now: Millis, next: u64)
    ensures var t := Begin(cfg, peer, policy, kept, budget, now, next);
      && t.nextRequest == next && (forall a :: a in t.out ==> !a.FundChannel?)
      && t.s.buyer.funding == if kept.Some? then kept.value.buyer.funding else None
  {
    if kept.Some? {
      var resumed := Turn(kept.value.Resume(policy, now), next, []);
      assert resumed.s.buyer.funding == kept.value.buyer.funding;
      SettlingIsQuiet(peer, resumed, ExpiringIds(resumed.s.grant.channels, now, cfg.node.SettleLeadMs()));
      hide Settle, PeerSession.Resume;
    }
  }

  lemma EndedAsksNothing(n: Node, peer: PubKey, now: Millis)
    ensures forall a :: a in Kept(n, peer, now).1 ==> !a.FundChannel?
    ensures Kept(n, peer, now).0.Some? && NodeSound(n) ==> Holds(n, peer) && Kept(n, peer, now).0.value.buyer.funding == FundingOf(n, peer)
  {
    if peer in n.peers {
      LettingGoAsksNothing(peer, n.peers[peer], now);
    }
    if peer in n.parked {
      var t := Turn(n.parked[peer].session, 0, []);
      SettlingIsQuiet(peer, t, Ids(t.s.grant.channels));
    }
    hide LetGo, Settle;
  }

  lemma ConnectKeeps(n: Node, peer: PubKey, budget: Option<Budget>, p: PubKey, now: Millis)
    requires NodeSound(n)
    ensures var f := if p == peer && !PolicyFor(n, peer).blocked && Kept(n, peer, now).0.None? then None else FundingOf(n, p);
      SinceFor(p, f, n.nextRequest, Connect(n, peer, budget, now))
  {
    hide Begin, Greet, Kept;
    var policy := PolicyFor(n, peer);
    NothingYet(p, n);
    if policy.blocked {
      QuietForKeeps(p, FundingOf(n, p), n.nextRequest, Course(n, []), Connect(n, peer, budget, now));
    } else {
      var (kept, ended) := Kept(n, peer, now);
      var begun := Begin(n.cfg, peer, policy, kept, budget, now, n.nextRequest);
      var greeted := Greet(n.cfg, peer, policy, begun, now);
      var c := Connect(n, peer, budget, now);
      BeginAsksNothing(n.cfg, peer, policy, kept, budget, now, n.nextRequest);
      GreetIsQuiet(n.cfg, peer, policy, begun, now);
      assert forall a: Action :: a.FundChannel? ==> (a in greeted.out <==> a in begun.out);
      assert greeted.nextRequest == n.nextRequest && Extended(begun.s.buyer.funding, {}, greeted.s.buyer.funding);
      EndedAsksNothing(n, peer, now);
      assert c == Install(Course(Cleared(n, peer), ended), peer, greeted);
      hide Connect, Quiet;
      assert forall a :: a in c.out ==> !a.FundChannel?;
      assert Asks(c.out, p) == {};
    }
  }

  // ------------------------------------------------------------------------
  // Every event
  // ------------------------------------------------------------------------

  ghost predicate ClosesFor(n: Node, e: Event, p: PubKey, now: Millis) {
    || (AboutOne(e) && e.peer == p && p in n.peers && Closes(n.cfg, n.peers[p], e))
    || (e.PeerConnected? && e.peer == p && !PolicyFor(n, p).blocked && Kept(n, p, now).0.None?)
  }

  ghost function StillOpen(n: Node, e: Event, p: PubKey, now: Millis): Option<FundingRequests> {
    if ClosesFor(n, e, p, now) then None else FundingOf(n, p)
  }

  lemma StrangerIsQuiet(n: Node, e: Event, p: PubKey)
    ensures QuietFor(Course(n, []), Course(n, OnStranger(n.cfg, e)), p)
  {
  }

  lemma OnPeerKeeps(n: Node, e: Event, p: PubKey, now: Millis)
    requires NodeSound(n) && AboutOne(e)
    ensures SinceFor(p, StillOpen(n, e, p, now), n.nextRequest, OnPeer(n, e.peer, e, now))
  {
    hide OnSession, ReservedElsewhere, Closes, Since, SinceFor, Extended;
    var c := OnPeer(n, e.peer, e, now);
    NothingYet(p, n);
    if e.peer !in n.peers {
      StrangerIsQuiet(n, e, p);
      QuietForKeeps(p, FundingOf(n, p), n.nextRequest, Course(n, []), c);
    } else {
      var t, elsewhere := Enter(n, e.peer), ReservedElsewhere(n, e.peer);
      var after := OnSession(n, t, e, elsewhere, now);
      EventAsks(n, t, e, elsewhere, now);
      assert c == Install(Course(n, []), e.peer, after);
      var f, next := OpenStill(n.cfg, t.s, e), n.nextRequest;
      hide OnPeer;
      if e.peer == p {
        OwnTurnKeeps(n, p, f, after);
      } else {
        InstallAside(p, FundingOf(n, p), next, Course(n, []), e.peer, f, after);
      }
    }
  }

  lemma OwnTurnKeeps(n: Node, p: PubKey, f: Option<FundingRequests>, t: Turn)
    requires Since(p, f, n.nextRequest, t)
    ensures SinceFor(p, f, n.nextRequest, Install(Course(n, []), p, t))
  {
    assert Install(Course(n, []), p, t).out == t.out;
  }

  lemma DisconnectIsQuiet(n: Node, peer: PubKey, p: PubKey, now: Millis)
    requires NodeSound(n)
    ensures QuietFor(Course(n, []), Disconnect(n, peer, now), p) && QuietFor(Course(n, []), Forget(n, peer, now), p)
  {
    if peer in n.peers {
      ParkingIsQuiet(Course(n, []), peer, p, now);
      LettingGoAsksNothing(peer, n.peers[peer], now);
    }
    if peer in n.parked {
      LettingGoAsksNothing(peer, n.parked[peer].session, now);
    }
    hide LetGo, ParkPeer;
  }

  lemma ShutDownKeeps(n: Node, order: seq<PubKey>, p: PubKey, now: Millis)
    ensures SinceFor(p, FundingOf(n, p), n.nextRequest, WindDownAllParked(WindDownPeers(Course(n, []), order, now), order, now))
  {
    hide SinceFor, QuietFor, WindDownPeers, WindDownAllParked, FundingOf;
    var f, start := FundingOf(n, p), Course(n, []);
    NothingYet(p, n);
    LoopsAreQuiet(start, order, p, now);
    QuietForKeeps(p, f, n.nextRequest, start, WindDownPeers(start, order, now));
    LoopsAreQuiet(WindDownPeers(start, order, now), order, p, now);
    QuietForKeeps(p, f, n.nextRequest, WindDownPeers(start, order, now), WindDownAllParked(WindDownPeers(start, order, now), order, now));
  }

  lemma StepAsks(n: Node, e: Event, p: PubKey, now: Millis)
    requires NodeSound(n)
    ensures SinceFor(p, StillOpen(n, e, p, now), n.nextRequest, Step(n, e, now))
  {
    hide SinceFor, QuietFor, NodeSound, NoteSent, OnPeer, Connect, Disconnect, Forget, Ticked, WindDownPeers, WindDownAllParked, Closes, Kept,
      FundingOf;
    var f, next, start := StillOpen(n, e, p, now), n.nextRequest, Course(n, []);
    NothingYet(p, n);
    assert e.Tick? || e.ShutDown? || e.PeerDisconnected? || e.Forgotten? || e.BuyerPolicySet? ==> f == FundingOf(n, p);
    match e
    case PeerConnected(peer, budget) =>
      ConnectKeeps(n, peer, budget, p, now);
      NotingIsQuiet(Connect(n, peer, budget, now), p, now);
      QuietForKeeps(p, f, next, Connect(n, peer, budget, now), Step(n, e, now));
    case PeerDisconnected(peer) =>
      DisconnectIsQuiet(n, peer, p, now);
      QuietForKeeps(p, f, next, start, Disconnect(n, peer, now));
      NotingIsQuiet(Disconnect(n, peer, now), p, now);
      QuietForKeeps(p, f, next, Disconnect(n, peer, now), Step(n, e, now));
    case Tick(order) => TickedKeeps(n, order, p, now);
    case Forgotten(peer) =>
      DisconnectIsQuiet(n, peer, p, now);
      QuietForKeeps(p, f, next, start, Forget(n, peer, now));
    case ShutDown(order) =>
      ShutDownKeeps(n, order, p, now);
    case BuyerPolicySet(buying) =>
      assert QuietFor(start, Step(n, e, now), p) by { PolicyChangesNothing(n, buying, p); }
      QuietForKeeps(p, f, next, start, Step(n, e, now));
    case PeerPolicySet(peer, policy) =>
      var m := n.(overrides := n.overrides[peer := policy]);
      assert NodeSound(m) && StillOpen(m, e, p, now) == f by { OverridesOpenSame(n, m, e, p, now); }
      OnPeerKeeps(m, e, p, now);
      NotingIsQuiet(OnPeer(m, peer, e, now), p, now);
      QuietForKeeps(p, f, next, OnPeer(m, peer, e, now), Step(n, e, now));
    case _ =>
      OnPeerKeeps(n, e, p, now);
      NotingIsQuiet(OnPeer(n, e.peer, e, now), p, now);
      QuietForKeeps(p, f, next, OnPeer(n, e.peer, e, now), Step(n, e, now));
  }

  lemma PolicyChangesNothing(n: Node, buying: BuyerPolicy, p: PubKey)
    ensures QuietFor(Course(n, []), Course(n.(cfg := n.cfg.(buying := buying)), []), p)
  {
  }

  lemma OverridesOpenSame(n: Node, m: Node, e: Event, p: PubKey, now: Millis)
    requires NodeSound(n) && m == n.(overrides := m.overrides) && e.PeerPolicySet?
    ensures NodeSound(m) && StillOpen(m, e, p, now) == StillOpen(n, e, p, now)
  {
  }

  // ------------------------------------------------------------------------
  // The history of one peer's requests
  // ------------------------------------------------------------------------

  /** Every request ever asked of the host for a peer, and those open: not closed by what came since. */
  datatype History = History(asked: set<u64>, unanswered: set<u64>)

  /** Requests asked by an event join the open ones; what closes a session's requests comes before them. */
  ghost function Noted(h: History, n: Node, e: Event, c: Course, p: PubKey, now: Millis): History {
    var asks := Asks(c.out, p);
    History(h.asked + asks,
            if !Holds(c.n, p) then {} else (if ClosesFor(n, e, p, now) then {} else h.unanswered) + asks)
  }

  /** The range `f` names, of all that was asked, exactly the requests still open. */
  ghost predicate Knows(h: History, f: Option<FundingRequests>, next: u64) {
    && h.unanswered <= h.asked
    && (forall r :: r in h.asked ==> r < next)
    && match f
       case None => h.unanswered == {}
       case Some(range) =>
         && range.first <= range.latest < next
         && forall r :: r in h.asked ==> r <= range.latest && (r in h.unanswered <==> range.first <= r)
  }

  /** What a buyer keeps of its requests tells just which are open. */
  ghost predicate Tracks(h: History, n: Node, p: PubKey) {
    Knows(h, FundingOf(n, p), n.nextRequest)
  }

  lemma KnowsMore(h: History, f: Option<FundingRequests>, closes: bool, asks: set<u64>, g: Option<FundingRequests>, held: bool,
                  next: u64, next': u64)
    requires Knows(h, f, next) && next <= next' && forall r :: r in asks ==> next <= r < next'
    requires if held then Extended(if closes then None else f, asks, g) else g.None?
    ensures Knows(History(h.asked + asks, if !held then {} else (if closes then {} else h.unanswered) + asks), g, next')
  {
  }

  lemma StepKeepsTracks(h: History, n: Node, e: Event, p: PubKey, now: Millis)
    requires NodeSound(n) && Tracks(h, n, p) && NoneLast(Step(n, e, now).out)
    ensures Tracks(Noted(h, n, e, Step(n, e, now), p, now), Step(n, e, now).n, p)
  {
    hide NodeSound, Step, NoneLast, ClosesFor, Knows, Extended, FundingOf, Holds;
    var c := Step(n, e, now);
    StepAsks(n, e, p, now);
    NotHeldHasNone(c.n, p);
    KnowsMore(h, FundingOf(n, p), ClosesFor(n, e, p, now), Asks(c.out, p), FundingOf(c.n, p), Holds(c.n, p), n.nextRequest, c.n.nextRequest);
  }

  lemma NotHeldHasNone(n: Node, p: PubKey)
    ensures !Holds(n, p) ==> FundingOf(n, p).None?
  {
  }

  /** Once closed, whether answered or given up on, a request is never open again. */
  lemma ClosedStaysClosed(h: History, n: Node, e: Event, p: PubKey, r: u64, now: Millis)
    requires NodeSound(n) && Tracks(h, n, p) && NoneLast(Step(n, e, now).out)
    requires r in h.asked && r !in h.unanswered
    ensures var h' := Noted(h, n, e, Step(n, e, now), p, now); r in h'.asked && r !in h'.unanswered
  {
    assert r < n.nextRequest;
    hide NodeSound, Step, NoneLast, ClosesFor, Extended, FundingOf, Holds, Tracks;
    StepAsks(n, e, p, now);
  }

  /** The channel waits on the buyer, and every request is closed. */
  ghost predicate Taken(e: Event, c: Course, h': History)
    requires e.OutgoingChannelFunded?
  {
    && e.peer in c.n.peers && c.n.peers[e.peer].buyer.pending == Some(ChannelBuyer(e.channelId, e.capacity, 0, e.expiresAt))
    && h'.unanswered == {} && ReclaimChannel(e.peer, e.channelId, e.capacity, e.expiresAt) !in c.out
  }

  /** All of the channel is handed back, and the buyer goes on as it was. */
  ghost predicate HandedBack(n: Node, e: Event, c: Course, h: History, h': History)
    requires e.OutgoingChannelFunded?
  {
    && ReclaimChannel(e.peer, e.channelId, e.capacity, e.expiresAt) in c.out && h' == h
    && (e.peer in n.peers ==> e.peer in c.n.peers && c.n.peers[e.peer].buyer == n.peers[e.peer].buyer)
  }

  /** A channel the host has funded is taken exactly when its request is still open and no channel is waiting. */
  lemma FundedIsTakenOrHandedBack(h: History, n: Node, e: Event, p: PubKey, now: Millis)
    requires NodeSound(n) && Tracks(h, n, p) && e.OutgoingChannelFunded? && e.peer == p && e.request in h.asked
    ensures var c := Step(n, e, now);
      var h' := Noted(h, n, e, c, p, now);
      if p in n.peers && n.peers[p].buyer.pending.None? && e.request in h.unanswered then Taken(e, c, h')
      else HandedBack(n, e, c, h, h')
  {
    hide Step, NodeSound, NoneLast, Knows, Buyer.Answers, Asks;
    AnswersKnown(h, n, p, e.request);
    var c := Step(n, e, now);
    if p in n.peers && n.peers[p].buyer.Answers(e.request) {
      FundedAnswers(n, e, now);
      assert ClosesFor(n, e, p, now);
      assert Noted(h, n, e, c, p, now).unanswered == {};
    } else {
      FundedTooLate(n, e, now);
      assert !ClosesFor(n, e, p, now);
      hide ClosesFor;
      assert Holds(c.n, p) <==> Holds(n, p);
      assert h.asked + {} == h.asked && h.unanswered + {} == h.unanswered;
    }
  }

  lemma AnswersKnown(h: History, n: Node, p: PubKey, r: u64)
    requires Tracks(h, n, p) && r in h.asked
    ensures p in n.peers ==> (n.peers[p].buyer.Answers(r) <==> n.peers[p].buyer.pending.None? && r in h.unanswered)
    ensures !Holds(n, p) ==> h.unanswered == {}
  {
  }

  lemma FundedAnswers(n: Node, e: Event, now: Millis)
    requires e.OutgoingChannelFunded? && e.peer in n.peers && n.peers[e.peer].buyer.Answers(e.request)
    ensures var c := Step(n, e, now);
      && e.peer in c.n.peers && c.n.peers[e.peer].buyer.pending == Some(ChannelBuyer(e.channelId, e.capacity, 0, e.expiresAt))
      && (forall a :: a in c.out ==> !a.ReclaimChannel?) && Asks(c.out, e.peer) == {}
  {
    var t, elsewhere := Enter(n, e.peer), ReservedElsewhere(n, e.peer);
    var after := OnSession(n, t, e, elsewhere, now);
    FundedIsTaken(n.cfg, e.peer, t, e, now);
    hide OnOutgoingFunded, ReservedElsewhere, SentTo;
    assert Step(n, e, now).out == after.out;
  }

  lemma FundedTooLate(n: Node, e: Event, now: Millis)
    requires e.OutgoingChannelFunded? && (e.peer in n.peers ==> !n.peers[e.peer].buyer.Answers(e.request))
    ensures var c := Step(n, e, now);
      && c.out == [ReclaimChannel(e.peer, e.channelId, e.capacity, e.expiresAt)] && Asks(c.out, e.peer) == {}
      && c.n.peers.Keys == n.peers.Keys && c.n.parked == n.parked
      && (e.peer in n.peers ==> c.n.peers[e.peer].buyer == n.peers[e.peer].buyer)
  {
    hide OnOutgoingFunded, ReservedElsewhere, SentTo;
  }

  lemma FundedIsTaken(cfg: Config, peer: PubKey, t: Turn, e: Event, now: Millis)
    requires e.OutgoingChannelFunded? && t.out == []
    ensures var after := OnOutgoingFunded(cfg, peer, t, e.channelId, e.capacity, e.expiresAt, e.funding, now);
      && after.s.buyer.pending == Some(ChannelBuyer(e.channelId, e.capacity, 0, e.expiresAt))
      && forall a :: a in after.out ==> !a.ReclaimChannel? && !a.FundChannel?
  {
    hide RateOf, AccessOf, BalanceOf, Grant.IsLive;
  }

  // ------------------------------------------------------------------------
  // Over whole runs
  // ------------------------------------------------------------------------

  ghost predicate IdsLast(n: Node, es: seq<(Event, Millis)>)
    decreases |es|
  {
    es == [] ||
    (var c := Step(n, es[0].0, es[0].1); Possible(n, es[0].0) && NoneLast(c.out) && IdsLast(c.n, es[1..]))
  }

  ghost function Told(h: History, n: Node, es: seq<(Event, Millis)>, p: PubKey): History
    decreases |es|
  {
    if es == [] then h
    else
      var (e, now) := es[0];
      var c := Step(n, e, now);
      Told(Noted(h, n, e, c, p, now), c.n, es[1..], p)
  }

  /** Over any run the buyer knows its open requests exactly; and no request is ever answered twice. */
  lemma {:induction false} RequestsTrackedForever(h: History, n: Node, es: seq<(Event, Millis)>, p: PubKey)
    requires NodeSound(n) && Tracks(h, n, p) && IdsLast(n, es)
    ensures var m, h' := NodeCapacity.Run(n, es), Told(h, n, es, p);
      NodeSound(m) && Tracks(h', m, p) && h.asked <= h'.asked && h'.unanswered * h.asked <= h.unanswered
    decreases |es|
  {
    if es != [] {
      var (e, now) := es[0];
      var c := Step(n, e, now);
      var h1 := Noted(h, n, e, c, p, now);
      StepKeepsTracks(h, n, e, p, now);
      NoEarningsDropped(n, e, now);
      forall r | r in h1.unanswered && r in h.asked ensures r in h.unanswered {
        if r !in h.unanswered {
          ClosedStaysClosed(h, n, e, p, r, now);
        }
      }
      hide Step, NodeSound, Tracks, NoneDropped, NoneLast;
      RequestsTrackedForever(h1, c.n, es[1..], p);
    }
  }

  /** However often and however late the host answers, at most one answer to what was asked by then is taken. */
  lemma SecondAnswerIsHandedBack(h: History, n: Node, e: Event, now: Millis, es: seq<(Event, Millis)>, e': Event, now': Millis, p: PubKey)
    requires NodeSound(n) && Tracks(h, n, p) && NoneLast(Step(n, e, now).out) && Possible(n, e)
    requires e.OutgoingChannelFunded? && e.peer == p && p in n.peers && n.peers[p].buyer.pending.None? && e.request in h.unanswered
    requires IdsLast(Step(n, e, now).n, es)
    requires e'.OutgoingChannelFunded? && e'.peer == p && e'.request in h.asked
    ensures var m := NodeCapacity.Run(Step(n, e, now).n, es);
      ReclaimChannel(p, e'.channelId, e'.capacity, e'.expiresAt) in Step(m, e', now').out
  {
    assert e.request in h.asked;
    hide Step, NodeSound, Tracks, NoneDropped, NoneLast, IdsLast, NodeCapacity.Run, Told, Noted;
    var c := Step(n, e, now);
    var h1 := Noted(h, n, e, c, p, now);
    FundedIsTakenOrHandedBack(h, n, e, p, now);
    AskedIsKept(h, n, e, c, p, now);
    StepKeepsTracks(h, n, e, p, now);
    NoEarningsDropped(n, e, now);
    LateIsHandedBack(h1, c.n, es, e', now', p);
  }

  lemma AskedIsKept(h: History, n: Node, e: Event, c: Course, p: PubKey, now: Millis)
    ensures h.asked <= Noted(h, n, e, c, p, now).asked
  {
  }

  lemma InBoth(xs: set<u64>, ys: set<u64>, x: u64)
    ensures x in xs && x in ys <==> x in xs * ys
  {
  }

  lemma LateIsHandedBack(h: History, n: Node, es: seq<(Event, Millis)>, e: Event, now: Millis, p: PubKey)
    requires NodeSound(n) && Tracks(h, n, p) && IdsLast(n, es) && h.unanswered == {}
    requires e.OutgoingChannelFunded? && e.peer == p && e.request in h.asked
    ensures ReclaimChannel(p, e.channelId, e.capacity, e.expiresAt) in Step(NodeCapacity.Run(n, es), e, now).out
  {
    hide Step, NodeSound, Tracks, IdsLast, NodeCapacity.Run, Told, Noted;
    RequestsTrackedForever(h, n, es, p);
    var h2 := Told(h, n, es, p);
    InBoth(h2.unanswered, h.asked, e.request);
    FundedIsTakenOrHandedBack(h2, NodeCapacity.Run(n, es), e, p, now);
  }

  lemma NewNodeTracks(cfg: Config, p: PubKey)
    ensures Tracks(History({}, {}), NewNode(cfg), p)
  {
  }

  /** So from a node with no one, and nothing asked: what is asked is tracked, and what is open was asked. */
  lemma RequestsTrackedFromTheStart(cfg: Config, es: seq<(Event, Millis)>, p: PubKey)
    requires IdsLast(NewNode(cfg), es)
    ensures Tracks(Told(History({}, {}), NewNode(cfg), es, p), NodeCapacity.Run(NewNode(cfg), es), p)
  {
    NewNodeTracks(cfg, p);
    RequestsTrackedForever(History({}, {}), NewNode(cfg), es, p);
  }
}
