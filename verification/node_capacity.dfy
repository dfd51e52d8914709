/**
  Admission across peers. What the sessions that are not ending have reserved never adds up past
  the node's capacity, over any run, unless an ending session is brought back to life; and then it
  does exactly when the reservation it still carries no longer fits.
 */
module NodeCapacity {
  import opened Numbers
  import opened Wrappers
  import opened Wire
  import opened Grants
  import opened GrantChannels
  import opened Buyers
  import opened Sessions
  import opened SessionFrames
  import opened SessionPurchases
  import opened Nodes
  import opened NodeFrames
  import opened NodeEarnings

  ghost predicate Within(n: Node) {
    n.cfg.node.grants.maxRate.Some? ==> TotalReserved(n.peers) <= n.cfg.node.grants.maxRate.value
  }

  // ------------------------------------------------------------------------
  // The total, one peer at a time
  // ------------------------------------------------------------------------

  lemma {:induction false} TotalWithout(peers: map<PubKey, PeerSession>, p: PubKey)
    requires p in peers
    ensures TotalReserved(peers) == Reserves(peers[p]) + TotalReserved(peers - {p})
    decreases |peers|
  {
    var q :| q in peers && TotalReserved(peers) == Reserves(peers[q]) + TotalReserved(peers - {q});
    if q != p {
      TotalWithout(peers - {q}, p);
      TotalWithout(peers - {p}, q);
      assert peers - {q} - {p} == peers - {p} - {q};
    }
  }

  lemma TotalWith(peers: map<PubKey, PeerSession>, p: PubKey, s: PeerSession)
    ensures TotalReserved(peers[p := s]) == Reserves(s) + TotalReserved(peers - {p})
  {
    TotalWithout(peers[p := s], p);
    assert peers[p := s] - {p} == peers - {p};
  }

  lemma {:induction false} TotalAgrees(peers: map<PubKey, PeerSession>, others: map<PubKey, PeerSession>)
    requires others.Keys == peers.Keys && forall p :: p in peers ==> Reserves(others[p]) == Reserves(peers[p])
    ensures TotalReserved(others) == TotalReserved(peers)
    decreases |peers|
  {
    if peers == map[] {
      assert others == map[];
    } else {
      var p :| p in peers;
      TotalWithout(peers, p);
      TotalWithout(others, p);
      TotalAgrees(peers - {p}, others - {p});
    }
  }

  /** A session's reservation lowered, or kept; nobody else's changed. */
  lemma LoweringStaysWithin(n: Node, p: PubKey, s: PeerSession)
    requires p in n.peers && Reserves(s) <= Reserves(n.peers[p])
    ensures TotalReserved(n.peers[p := s]) <= TotalReserved(n.peers)
  {
    TotalWithout(n.peers, p);
    TotalWith(n.peers, p, s);
  }

  lemma DroppingStaysWithin(n: Node, p: PubKey)
    ensures TotalReserved(n.peers - {p}) <= TotalReserved(n.peers)
  {
    if p in n.peers {
      TotalWithout(n.peers, p);
    } else {
      assert n.peers - {p} == n.peers;
    }
  }

  // ------------------------------------------------------------------------
  // One event
  // ------------------------------------------------------------------------

  /** The one way a session that is ending counts again: a late verification, or an opening Offer. */
  ghost predicate Revives(n: Node, e: Event) {
    && AboutOne(e) && e.peer in n.peers && n.peers[e.peer].phase.Closing?
    && (Verifies(n, e) || Resuming(n, n.peers[e.peer], e))
  }

  /** The purchase that raises a reservation is admitted only into what the others leave free. */
  lemma PurchaseFits(n: Node, p: PubKey, after: PeerSession, rate: u64)
    requires Within(n) && p in n.peers && after.phase == n.peers[p].phase && after.grant.reservedRate == rate
    requires rate <= n.peers[p].grant.reservedRate || rate <= Admission(n.cfg.node.grants, ReservedElsewhere(n, p)).RateAvailable()
    ensures Within(n.(peers := n.peers[p := after]))
  {
    TotalWithout(n.peers, p);
    TotalWith(n.peers, p, after);
  }

  lemma EventStaysWithin(n: Node, e: Event, now: Millis)
    requires NodeSound(n) && Within(n) && AboutOne(e) && !Revives(n, e)
    ensures Within(OnPeer(n, e.peer, e, now).n) && OnPeer(n, e.peer, e, now).n.cfg == n.cfg
  {
    if e.peer in n.peers {
      var t, elsewhere := Enter(n, e.peer), ReservedElsewhere(n, e.peer);
      var after := OnSession(n, t, e, elsewhere, now);
      var basis := Basis(n, t, e, now);
      BasisReserves(n, t, e, now);
      EventMoves(n, t, e, elsewhere, now);
      if Buys(n, t, e, elsewhere, now) {
        AcceptedRate(n, t, e, elsewhere, now);
        hide OnSession, Basis, Buys, Evaluate;
        PurchaseFits(n, e.peer, after.s, e.msg.topup.reservedRate);
      } else {
        hide OnSession, Basis, Buys, Distinct, Held, Settled;
        LoweringStaysWithin(n, e.peer, after.s);
      }
    }
  }

  lemma BasisReserves(n: Node, t: Turn, e: Event, now: Millis)
    ensures Basis(n, t, e, now).s.grant.reservedRate == t.s.grant.reservedRate
    ensures Basis(n, t, e, now).s.phase.Closing? ==> t.s.phase.Closing?
    ensures AboutOne(e) && e.peer in n.peers && t.s == n.peers[e.peer] && !Revives(n, e) && t.s.phase.Closing? ==>
      Basis(n, t, e, now).s.phase.Closing?
    ensures ChecksSignatures(n, t.s, e, now) ==> Basis(n, t, e, now).s.phase == t.s.phase
  {
    hide Find;
  }

  lemma AcceptedRate(n: Node, t: Turn, e: Event, elsewhere: u64, now: Millis)
    requires Buys(n, t, e, elsewhere, now) && Sound(t.s)
    ensures e.msg.topup.reservedRate <= t.s.grant.reservedRate
      || e.msg.topup.reservedRate <= Admission(n.cfg.node.grants, elsewhere).RateAvailable()
  {
    AcceptedTopUp(n.cfg, e.peer, t, e.msg.topup, elsewhere, now);
  }

  /** What reviving a session does: its reservation is counted again, whole. */
  lemma RevivalCountsAgain(n: Node, e: Event, now: Millis)
    requires NodeSound(n) && Revives(n, e)
    ensures var n' := OnPeer(n, e.peer, e, now).n;
      TotalReserved(n'.peers) == TotalReserved(n.peers) + n.peers[e.peer].grant.reservedRate && n'.cfg == n.cfg
  {
    var t, elsewhere := Enter(n, e.peer), ReservedElsewhere(n, e.peer);
    var after := OnSession(n, t, e, elsewhere, now);
    if Verifies(n, e) {
      VerifiedIsOrdinary(n, t, e, now);
      assert after.s.phase == Established by { hide Find; }
      assert after.s.grant.reservedRate == t.s.grant.reservedRate by { hide OnSession, OnIncomingVerified, Find; }
    } else {
      ResumingKeepsGrant(n.cfg, e.peer, t, e.msg.offer, now);
    }
    TotalWithout(n.peers, e.peer);
    TotalWith(n.peers, e.peer, after.s);
    hide OnSession;
  }

  lemma ResumingKeepsGrant(cfg: Config, peer: PubKey, t: Turn, m: Offer, now: Millis)
    requires Resumes(cfg, t.s, m)
    ensures var heard := t.(s := t.s.(lastSeen := now));
      OnOffer(cfg, peer, heard, m, now).s.grant == t.s.grant && OnOffer(cfg, peer, heard, m, now).s.phase == Established
  {
    var heard := t.(s := t.s.(lastSeen := now));
    var taken := heard.(s := TakeOffer(heard.s, m));
    var resumed := taken.(s := taken.s.(buyer := taken.s.buyer.ForgetPending(), phase := Established));
    var shown := Refresh(cfg, peer, resumed, now);
    assert OnOffer(cfg, peer, heard, m, now) == PollBuyer(cfg, peer, shown, now);
    PollBuyerLeavesGrant(cfg, peer, shown, now);
    PollKeepsPhase(cfg, peer, shown, now);
    hide PollBuyer, OnOffer, RateOf;
  }

  lemma PollKeepsPhase(cfg: Config, peer: PubKey, t: Turn, now: Millis)
    ensures PollBuyer(cfg, peer, t, now).s.phase == t.s.phase
  {
    hide Poll, Buyer.Record, Buyer.RetireExpiring, DemandOf;
  }

  /**
    Bringing an ending session back keeps the node within its capacity exactly when what that
    session reserved before it was ending still fits beside the others.
   */
  lemma RevivalStaysWithinIff(n: Node, e: Event, now: Millis)
    requires NodeSound(n) && Revives(n, e) && n.cfg.node.grants.maxRate.Some?
    ensures Within(Step(n, e, now).n) <==>
      TotalReserved(n.peers) + n.peers[e.peer].grant.reservedRate <= n.cfg.node.grants.maxRate.value
  {
    RevivalCountsAgain(n, e, now);
    NotingReservesNothing(OnPeer(n, e.peer, e, now), now);
    hide OnPeer, TotalReserved;
  }

  lemma NotingReservesNothing(c: Course, now: Millis)
    ensures TotalReserved(NoteSent(c, now).n.peers) == TotalReserved(c.n.peers) && NoteSent(c, now).n.cfg == c.n.cfg
  {
    TotalAgrees(c.n.peers, NoteSent(c, now).n.peers);
  }

  // ------------------------------------------------------------------------
  // Coming, going, and time
  // ------------------------------------------------------------------------

  lemma BeginReservesNothing(cfg: Config, peer: PubKey, policy: PeerPolicy, kept: Option<PeerSession>, budget: Option<Budget>, now: Millis, next: u64)
    ensures Begin(cfg, peer, policy, kept, budget, now, next).s.grant.reservedRate == 0
  {
    if kept.Some? {
      assert kept.value.Resume(policy, now).grant.reservedRate == 0 by {
        hide Grant.Pause, ClearFailures;
      }
    }
    hide Grant.Restart, Buyer.Restart, SettleEach, ExpiringIds;
  }

  lemma ConnectingLowers(n: Node, peer: PubKey, budget: Option<Budget>, now: Millis)
    ensures TotalReserved(Connect(n, peer, budget, now).n.peers) <= TotalReserved(n.peers)
    ensures Connect(n, peer, budget, now).n.cfg == n.cfg
  {
    var policy := PolicyFor(n, peer);
    if !policy.blocked {
      var (kept, ended) := Kept(n, peer, now);
      var begun := Begin(n.cfg, peer, policy, kept, budget, now, n.nextRequest);
      var greeted := Greet(n.cfg, peer, policy, begun, now);
      BeginReservesNothing(n.cfg, peer, policy, kept, budget, now, n.nextRequest);
      GreetLeavesGrant(n.cfg, peer, policy, begun, now);
      assert Connect(n, peer, budget, now) == Install(Course(Cleared(n, peer), ended), peer, greeted);
      hide Kept, Begin, Greet, Connect;
      TotalWith(n.peers - {peer}, peer, greeted.s);
      assert n.peers - {peer} - {peer} == n.peers - {peer};
      DroppingStaysWithin(n, peer);
    }
  }

  lemma TickingOneLowers(c: Course, peer: PubKey, now: Millis)
    requires NodeSound(c.n)
    ensures TotalReserved(TickPeer(c, peer, now).n.peers) <= TotalReserved(c.n.peers) && TickPeer(c, peer, now).n.cfg == c.n.cfg
  {
    if peer in c.n.peers {
      if Stale(c.n.cfg, c.n.peers[peer], now) {
        DroppingStaysWithin(c.n, peer);
      } else {
        var t := OnTick(c.n.cfg, peer, Enter(c.n, peer), now);
        OnTickIsOrdinary(c.n.cfg, peer, Enter(c.n, peer), now);
        hide OnTick;
        LoweringStaysWithin(c.n, peer, t.s);
      }
    }
  }

  lemma {:induction false} TickingLowers(c: Course, order: seq<PubKey>, now: Millis)
    requires NodeSound(c.n)
    ensures TotalReserved(TickPeers(c, order, now).n.peers) <= TotalReserved(c.n.peers) && TickPeers(c, order, now).n.cfg == c.n.cfg
    decreases |order|
  {
    if order != [] {
      TickingOneLowers(c, order[0], now);
      TickPeerCarries(c, order[0], now);
      CarriesIsSound(c, TickPeer(c, order[0], now));
      hide TickPeer, NodeSound, TotalReserved;
      TickingLowers(TickPeer(c, order[0], now), order[1..], now);
    }
  }

  lemma {:induction false} ParkedAside(c: Course, order: seq<PubKey>, now: Millis)
    ensures ExpireAllParked(c, order, now).n.peers == c.n.peers && ExpireAllParked(c, order, now).n.cfg == c.n.cfg
    ensures SettleAllParked(c, order, now).n.peers == c.n.peers && SettleAllParked(c, order, now).n.cfg == c.n.cfg
    ensures WindDownAllParked(c, order, now).n.peers == c.n.peers && WindDownAllParked(c, order, now).n.cfg == c.n.cfg
    decreases |order|
  {
    if order != [] {
      hide Discard, SettleExpiring, LetGo;
      ParkedAside(ExpireParked(c, order[0], now), order[1..], now);
      ParkedAside(SettleParked(c, order[0], now), order[1..], now);
      ParkedAside(WindDownParked(c, order[0], now), order[1..], now);
    }
  }

  lemma {:induction false} KeepingAliveReservesNothing(c: Course, order: seq<PubKey>, now: Millis)
    ensures TotalReserved(KeepAllAlive(c, order, now).n.peers) == TotalReserved(c.n.peers) && KeepAllAlive(c, order, now).n.cfg == c.n.cfg
    decreases |order|
  {
    if order != [] {
      TotalAgrees(c.n.peers, KeepAlive(c, order[0], now).n.peers);
      hide TotalReserved;
      KeepingAliveReservesNothing(KeepAlive(c, order[0], now), order[1..], now);
    }
  }

  lemma TickLowers(n: Node, order: seq<PubKey>, now: Millis)
    requires NodeSound(n)
    ensures TotalReserved(Ticked(n, order, now).n.peers) <= TotalReserved(n.peers) && Ticked(n, order, now).n.cfg == n.cfg
  {
    hide TickPeers, ExpireAllParked, SettleAllParked, KeepAllAlive, NoteSent, TotalReserved, NodeSound;
    var ticked := TickPeers(Course(n, []), order, now);
    TickingLowers(Course(n, []), order, now);
    var expired := ExpireAllParked(ticked, order, now);
    ParkedAside(ticked, order, now);
    var settled := SettleAllParked(expired, order, now);
    ParkedAside(expired, order, now);
    NotingReservesNothing(settled, now);
    KeepingAliveReservesNothing(NoteSent(settled, now), order, now);
  }

  lemma {:induction false} WindingDownLowers(c: Course, order: seq<PubKey>, now: Millis)
    ensures TotalReserved(WindDownPeers(c, order, now).n.peers) <= TotalReserved(c.n.peers) && WindDownPeers(c, order, now).n.cfg == c.n.cfg
    decreases |order|
  {
    if order != [] {
      var d := WindDownPeer(c, order[0], now);
      if order[0] in c.n.peers {
        LoweringStaysWithin(c.n, order[0], d.n.peers[order[0]]);
      }
      hide WindDownPeer, TotalReserved;
      WindingDownLowers(d, order[1..], now);
    }
  }

  // ------------------------------------------------------------------------
  // Over whole runs
  // ------------------------------------------------------------------------

  /** No event but a revival can take the reservations past the capacity. */
  lemma StepStaysWithin(n: Node, e: Event, now: Millis)
    requires NodeSound(n) && Possible(n, e) && Within(n) && !Revives(n, e)
    ensures Within(Step(n, e, now).n) && Step(n, e, now).n.cfg.node == n.cfg.node
  {
    hide NodeSound, NoteSent, OnPeer, Connect, Ticked, WindDownPeers, WindDownAllParked, LetGo, Revives, TotalReserved;
    match e
    case PeerConnected(peer, budget) =>
      ConnectingLowers(n, peer, budget, now);
      NotingReservesNothing(Connect(n, peer, budget, now), now);
    case PeerDisconnected(peer) =>
      DroppingStaysWithin(n, peer);
      NotingReservesNothing(Disconnect(n, peer, now), now);
    case Tick(order) => TickLowers(n, order, now);
    case Forgotten(peer) => DroppingStaysWithin(n, peer);
    case ShutDown(order) =>
      WindingDownLowers(Course(n, []), order, now);
      ParkedAside(WindDownPeers(Course(n, []), order, now), order, now);
    case BuyerPolicySet(buying) =>
    case PeerPolicySet(peer, policy) =>
      var m := n.(overrides := n.overrides[peer := policy]);
      assert NodeSound(m) && !Revives(m, e) by { OverridesAside(n, m, e); }
      EventStaysWithin(m, e, now);
      NotingReservesNothing(OnPeer(m, peer, e, now), now);
    case _ =>
      EventStaysWithin(n, e, now);
      NotingReservesNothing(OnPeer(n, e.peer, e, now), now);
  }

  lemma OverridesAside(n: Node, m: Node, e: Event)
    requires NodeSound(n) && !Revives(n, e) && m == n.(overrides := m.overrides)
    ensures NodeSound(m) && !Revives(m, e)
  {
  }

  /** What an ending session reserved, if this brings it back, fits beside the others. */
  ghost predicate FitsBack(n: Node, e: Event) {
    Revives(n, e) && n.cfg.node.grants.maxRate.Some? ==>
      TotalReserved(n.peers) + n.peers[e.peer].grant.reservedRate <= n.cfg.node.grants.maxRate.value
  }

  lemma StepStaysWithinIff(n: Node, e: Event, now: Millis)
    requires NodeSound(n) && Possible(n, e) && Within(n)
    ensures Within(Step(n, e, now).n) <==> FitsBack(n, e)
  {
    StepKeepsSettings(n, e, now);
    if Revives(n, e) && n.cfg.node.grants.maxRate.Some? {
      RevivalStaysWithinIff(n, e, now);
    } else if !Revives(n, e) {
      StepStaysWithin(n, e, now);
    }
    hide Step, TotalReserved, Revives;
  }

  ghost predicate AllPossible(n: Node, es: seq<(Event, Millis)>)
    decreases |es|
  {
    es == [] || (Possible(n, es[0].0) && AllPossible(Step(n, es[0].0, es[0].1).n, es[1..]))
  }

  /** Every revival along the run brings back only what fits. */
  ghost predicate RevivalsFit(n: Node, es: seq<(Event, Millis)>)
    decreases |es|
  {
    es == [] || (FitsBack(n, es[0].0) && RevivalsFit(Step(n, es[0].0, es[0].1).n, es[1..]))
  }

  ghost function Run(n: Node, es: seq<(Event, Millis)>): Node
    decreases |es|
  {
    if es == [] then n else Run(Step(n, es[0].0, es[0].1).n, es[1..])
  }

  ghost predicate WithinThroughout(n: Node, es: seq<(Event, Millis)>)
    decreases |es|
  {
    Within(n) && (es == [] || WithinThroughout(Step(n, es[0].0, es[0].1).n, es[1..]))
  }

  /**
    From an empty node on, peers connecting, buying, parking, resuming, expiring and running dry
    in any order, the reservations of all sessions that are not ending fit the node's capacity at every
    moment, exactly when each session brought back from ending still fitted as it was.
   */
  lemma {:induction false} ReservationsFitForever(n: Node, es: seq<(Event, Millis)>)
    requires NodeSound(n) && Within(n) && AllPossible(n, es)
    ensures WithinThroughout(n, es) <==> RevivalsFit(n, es)
    ensures NodeSound(Run(n, es))
    decreases |es|
  {
    if es != [] {
      StepStaysWithinIff(n, es[0].0, es[0].1);
      NoEarningsDropped(n, es[0].0, es[0].1);
      hide Step, NodeSound, Within, Revives, NoneDropped, FitsBack;
      var next := Step(n, es[0].0, es[0].1).n;
      if Within(next) {
        ReservationsFitForever(next, es[1..]);
      } else {
        StaysSound(next, es[1..]);
      }
    }
  }

  lemma {:induction false} StaysSound(n: Node, es: seq<(Event, Millis)>)
    requires NodeSound(n) && AllPossible(n, es)
    ensures NodeSound(Run(n, es))
    decreases |es|
  {
    if es != [] {
      NoEarningsDropped(n, es[0].0, es[0].1);
      hide Step, NodeSound, NoneDropped;
      StaysSound(Step(n, es[0].0, es[0].1).n, es[1..]);
    }
  }

  lemma NewNodeWithin(cfg: Config)
    ensures NodeSound(NewNode(cfg)) && Within(NewNode(cfg))
  {
  }

  /** So from a node with no one. */
  lemma ReservationsFitFromTheStart(cfg: Config, es: seq<(Event, Millis)>)
    requires AllPossible(NewNode(cfg), es)
    ensures WithinThroughout(NewNode(cfg), es) <==> RevivalsFit(NewNode(cfg), es)
  {
    NewNodeWithin(cfg);
    ReservationsFitForever(NewNode(cfg), es);
  }

  /**
    And no reservation is refused that fits: a payer is offered all that the sessions other than its own, and
    not ending, leave of the capacity.
   */
  lemma RoomIff(n: Node, p: PubKey, rate: u64)
    requires rate > 0
    ensures rate <= Admission(n.cfg.node.grants, ReservedElsewhere(n, p)).RateAvailable() <==>
      (n.cfg.node.grants.maxRate.Some? ==> TotalReserved(n.peers - {p}) + rate <= n.cfg.node.grants.maxRate.value)
  {
  }

  /**
    How the capacity is passed. One peer reserved 6 and said Disconnect; another was then admitted
    at 6 under a capacity of 10; and the funding of the first is verified late.
   */
  lemma LateVerificationOversubscribes(n: Node, p: PubKey, q: PubKey, e: Event, now: Millis)
    requires NodeSound(n) && n.peers.Keys == {p, q} && p != q && n.cfg.node.grants.maxRate == Some(10)
    requires n.peers[p].phase.Closing? && n.peers[p].grant.reservedRate == 6
    requires n.peers[q].phase.Established? && n.peers[q].grant.reservedRate == 6
    requires e.IncomingFundingVerified? && e.peer == p && e.mintUrl in n.cfg.node.acceptedMints
    ensures Within(n) && Revives(n, e) && !Within(Step(n, e, now).n)
  {
    TotalWithout(n.peers, p);
    TotalWithout(n.peers - {p}, q);
    assert n.peers - {p} - {q} == map[];
    RevivalStaysWithinIff(n, e, now);
    hide Step;
  }
}
