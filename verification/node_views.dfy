/**
  What every host and peer has been told, over whole runs of the node. Whoever is connected is gated and
  shaped as its session says, was last sent the terms it is charged by, and no session ends behind the
  host's back.
 */
module NodeViews {
  import opened Numbers
  import opened Wrappers
  import opened Wire
  import opened Grants
  import opened Buyers
  import opened Sessions
  import opened Nodes
  import opened NodeEarnings
  import opened NodeCapacity
  import opened SessionViews

  // ------------------------------------------------------------------------
  // One event on one session
  // ------------------------------------------------------------------------

  lemma EventTells(n: Node, t: Turn, e: Event, elsewhere: u64, now: Millis)
    requires AboutOne(e) && !e.PeerPolicySet?
    ensures TellsOn(e.peer, t, OnSession(n, t, e, elsewhere, now))
  {
    hide OnMessage, OnUnverified, Refresh, PollBuyer, OnMetered, OnOutgoingFunded, OnIncomingVerified, Tells, Buyer.FundingFailed;
    var cfg, peer := n.cfg, e.peer;
    match e
    case MessageReceived(_, msg) => MessageTells(cfg, peer, t, msg, elsewhere, now);
    case TopUpSignatureInvalid(_, id) =>
      var checked := t.(s := t.s.(lastSeen := now, grant := t.s.grant.TopupChecked(now)));
      SilentTells(peer, t, checked);
      UnverifiedTells(cfg, peer, checked, [id], now);
      TellsThen(peer, t, checked, OnUnverified(cfg, peer, checked, [id], now));
    case OutgoingChannelFunded(_, request, id, capacity, expiresAt, funding) =>
      FundedTells(cfg, peer, t, id, capacity, expiresAt, funding, now);
      DoesTells(peer, t, t.Does(ReclaimChannel(peer, id, capacity, expiresAt)), ReclaimChannel(peer, id, capacity, expiresAt));
    case OutgoingFundingFailed(_, request) => SilentTells(peer, t, t.(s := t.s.(buyer := t.s.buyer.FundingFailed(request))));
    case IncomingFundingVerified(_, id, capacity, expiresAt, mintUrl) =>
      VerifiedTells(cfg, peer, t, id, capacity, expiresAt, now);
      QuietTells(peer, t, Close(t).DoAll(Rejected(peer, MintNotAccepted)), Rejected(peer, MintNotAccepted));
    case IncomingFundingRejected(_, reason) => QuietTells(peer, t, Close(t).DoAll(Rejected(peer, reason)), Rejected(peer, reason));
    case Metered(_, counters, carried) =>
      var metered := t.(s := OnMetered(t.s, counters, carried, now));
      MeteredAside(t.s, counters, carried, now);
      SilentTells(peer, t, metered);
      RefreshedTells(cfg, peer, t, metered, now);
    case DemandObserved(_, rate) =>
      SilentTells(peer, t, t.(s := t.s.(demand := rate)));
      PolledTells(cfg, peer, t, t.(s := t.s.(demand := rate)), now);
  }

  lemma MeteredAside(s: PeerSession, counters: Counters, carried: bool, now: Millis)
    ensures var s' := OnMetered(s, counters, carried, now);
      Seen(s') == Seen(s) && s'.phase == s.phase && s'.policy == s.policy && s'.weight == s.weight
  {
    hide Grant.Draw, Grant.Pause, Buyer.Draw, Counters.Weighted;
  }

  // ------------------------------------------------------------------------
  // Part way through an event
  // ------------------------------------------------------------------------

  /** What is told of one peer: all that changed since `c`, or all there is if it was not connected then. */
  ghost predicate Follows(c: Course, d: Course, said: seq<Action>, p: PubKey)
    requires p in d.n.peers
  {
    forall v: View :: (p in c.n.peers ==> v == Seen(c.n.peers[p])) ==> Shown(said, p, v) == Seen(d.n.peers[p])
  }

  /** A session that goes on no longer has its link dropped. */
  ghost predicate Lasts(c: Course, d: Course, said: seq<Action>, p: PubKey) {
    p in c.n.peers && !c.n.peers[p].phase.Closing? ==>
      (p in d.n.peers && !d.n.peers[p].phase.Closing?) || DropPeer(p) in said
  }

  /** Whoever is charged by the terms it was sent goes on being so. */
  ghost predicate Charges(c: Course, d: Course, p: PubKey)
    requires p in d.n.peers
  {
    (p in c.n.peers ==> Current(c.n.cfg, c.n.peers[p])) ==> Current(d.n.cfg, d.n.peers[p])
  }

  /** All is told, but that the sessions among `gone` end, and the terms of those among `untold`. */
  ghost predicate TellsBut(c: Course, d: Course, gone: set<PubKey>, untold: set<PubKey>) {
    && |c.out| <= |d.out| && d.out[..|c.out|] == c.out && d.n.cfg.node == c.n.cfg.node
    && (forall p :: p in d.n.peers ==> Follows(c, d, d.out[|c.out|..], p) && (p in untold || Charges(c, d, p)))
    && (forall p :: p in gone || Lasts(c, d, d.out[|c.out|..], p))
  }

  ghost predicate TellsAll(c: Course, d: Course) {
    TellsBut(c, d, {}, {})
  }

  lemma TellsButThen(c: Course, d: Course, e: Course, gone: set<PubKey>, untold: set<PubKey>)
    requires TellsBut(c, d, gone, untold) && TellsBut(d, e, gone, untold)
    ensures TellsBut(c, e, gone, untold)
  {
    var a, b, said := d.out[|c.out|..], e.out[|d.out|..], e.out[|c.out|..];
    assert said == a + b;
    hide Current;
    forall p | p in e.n.peers ensures Follows(c, e, said, p) {
      forall v: View | p in c.n.peers ==> v == Seen(c.n.peers[p]) ensures Shown(said, p, v) == Seen(e.n.peers[p]) {
        ShownMore(a, b, p, v);
        assert Follows(d, e, b, p);
        if p in d.n.peers {
          assert Follows(c, d, a, p);
        }
      }
    }
    forall p | p !in gone ensures Lasts(c, e, said, p) {
      assert Lasts(c, d, a, p) && Lasts(d, e, b, p);
    }
    forall p | p in e.n.peers && p !in untold ensures Charges(c, e, p) {
      assert Charges(d, e, p);
      assert p in d.n.peers ==> Charges(c, d, p);
    }
  }

  lemma TellsAllThen(c: Course, d: Course, e: Course)
    requires TellsAll(c, d) && TellsAll(d, e)
    ensures TellsAll(c, e)
  {
    TellsButThen(c, d, e, {}, {});
  }

  lemma TermsRead(cfg: Config, cfg': Config, s: PeerSession, s': PeerSession)
    requires cfg'.node == cfg.node && s'.offerSent == s.offerSent && s'.policy == s.policy && s'.weight == s.weight
    ensures Current(cfg', s') == Current(cfg, s)
  {
  }

  /** What becomes of one peer, and of nobody else. */
  lemma OneTellsBut(c: Course, d: Course, peer: PubKey, said: seq<Action>, gone: set<PubKey>, untold: set<PubKey>)
    requires d.out == c.out + said && d.n.cfg.node == c.n.cfg.node && (forall a :: a in said ==> a.peer == peer)
    requires d.n.peers - {peer} == c.n.peers - {peer}
    requires peer in d.n.peers ==> Follows(c, d, said, peer) && (peer in untold || Charges(c, d, peer))
    requires peer in gone || Lasts(c, d, said, peer)
    ensures TellsBut(c, d, gone, untold)
  {
    assert d.out[|c.out|..] == said;
    forall p | p in d.n.peers ensures Follows(c, d, said, p) && (p in untold || Charges(c, d, p)) {
      if p != peer {
        assert p in d.n.peers - {peer} && (d.n.peers - {peer})[p] == d.n.peers[p] && (c.n.peers - {peer})[p] == c.n.peers[p];
        TermsRead(c.n.cfg, d.n.cfg, c.n.peers[p], d.n.peers[p]);
        forall v: View | p in c.n.peers ==> v == Seen(c.n.peers[p]) ensures Shown(said, p, v) == Seen(d.n.peers[p]) {
          MuteShows(said, p, v);
        }
      }
    }
    forall p ensures p in gone || Lasts(c, d, said, p) {
      if p != peer && p in c.n.peers {
        assert p in c.n.peers - {peer} && (d.n.peers - {peer})[p] == d.n.peers[p] && (c.n.peers - {peer})[p] == c.n.peers[p];
      }
    }
  }

  lemma OneTells(c: Course, d: Course, peer: PubKey, said: seq<Action>)
    requires d.out == c.out + said && d.n.cfg.node == c.n.cfg.node && (forall a :: a in said ==> a.peer == peer)
    requires d.n.peers - {peer} == c.n.peers - {peer}
    requires peer in d.n.peers ==> Follows(c, d, said, peer) && Charges(c, d, peer)
    requires Lasts(c, d, said, peer)
    ensures TellsAll(c, d)
  {
    OneTellsBut(c, d, peer, said, {}, {});
  }

  /** A turn of one session, put back among the others. */
  lemma InstallTells(c: Course, peer: PubKey, t: Turn)
    requires peer in c.n.peers && TellsOn(peer, Turn(c.n.peers[peer], c.n.nextRequest, []), t)
    ensures TellsAll(c, Install(c, peer, t))
  {
    var d, start := Install(c, peer, t), Turn(c.n.peers[peer], c.n.nextRequest, []);
    assert t.out[|start.out|..] == t.out;
    assert d.n.peers - {peer} == c.n.peers - {peer};
    TermsRead(c.n.cfg, d.n.cfg, c.n.peers[peer], t.s);
    OneTells(c, d, peer, t.out);
  }

  /** A course that says nothing, of sessions whose view has not changed. */
  lemma NotingTells(c: Course, now: Millis)
    ensures TellsAll(c, NoteSent(c, now))
  {
    var d := NoteSent(c, now);
    assert d.out[|c.out|..] == [];
    forall p | p in d.n.peers ensures Follows(c, d, [], p) && Charges(c, d, p) {
      TermsRead(c.n.cfg, d.n.cfg, c.n.peers[p], d.n.peers[p]);
    }
  }

  // ------------------------------------------------------------------------
  // Each kind of event
  // ------------------------------------------------------------------------

  lemma OnPeerTells(n: Node, e: Event, now: Millis)
    requires AboutOne(e) && !e.PeerPolicySet?
    ensures TellsAll(Course(n, []), OnPeer(n, e.peer, e, now))
  {
    hide OnSession, TellsOn, ReservedElsewhere;
    if e.peer in n.peers {
      EventTells(n, Enter(n, e.peer), e, ReservedElsewhere(n, e.peer), now);
      InstallTells(Course(n, []), e.peer, OnSession(n, Enter(n, e.peer), e, ReservedElsewhere(n, e.peer), now));
    } else {
      assert [] + OnStranger(n.cfg, e) == OnStranger(n.cfg, e);
      OneTells(Course(n, []), Course(n, OnStranger(n.cfg, e)), e.peer, OnStranger(n.cfg, e));
    }
  }

  /** An override, told at once: unless the session it is made for is ending. */
  lemma OverrideTells(n: Node, e: Event, now: Millis)
    requires e.PeerPolicySet?
    ensures TellsBut(Course(n, []), OnPeer(n, e.peer, e, now), {}, UntoldBy(n, e))
  {
    hide OnPolicy, Tells, ReservedElsewhere, Current;
    var c := Course(n, []);
    if e.peer in n.peers {
      var t := OnPolicy(n.cfg, e.peer, Enter(n, e.peer), e.policy, now);
      PolicyTells(n.cfg, e.peer, Enter(n, e.peer), e.policy, now);
      if Current(n.cfg, n.peers[e.peer]) {
        OfferWasSent(n.cfg, n.peers[e.peer]);
      }
      PolicyOpen(n.cfg, e.peer, Enter(n, e.peer), e.policy, now);
      TellsReads(e.peer, Enter(n, e.peer), t);
      var d := Install(c, e.peer, t);
      assert d.n.peers - {e.peer} == n.peers - {e.peer};
      OneTellsBut(c, d, e.peer, t.out, {}, UntoldBy(n, e));
    } else {
      OneTellsBut(c, c, e.peer, [], {}, UntoldBy(n, e));
    }
  }

  lemma OfferWasSent(cfg: Config, s: PeerSession)
    requires Current(cfg, s)
    ensures s.offerSent.Some?
  {
  }

  lemma PolicyOpen(cfg: Config, peer: PubKey, t: Turn, policy: PeerPolicy, now: Millis)
    ensures OnPolicy(cfg, peer, t, policy, now).s.phase == t.s.phase
  {
    hide OfferFor, RateOf, BalanceOf;
  }

  lemma TellsReads(peer: PubKey, t: Turn, t': Turn)
    requires Tells(peer, t, t') && t.out == []
    ensures (forall a :: a in t'.out ==> a.peer == peer) && Shown(t'.out, peer, Seen(t.s)) == Seen(t'.s)
  {
    assert t'.out[|t.out|..] == t'.out;
  }

  lemma ConnectTells(n: Node, peer: PubKey, budget: Option<Budget>, now: Millis)
    ensures TellsAll(Course(n, []), Connect(n, peer, budget, now))
  {
    hide Nodes.Kept, Begin, Greet, Current;
    var c, policy := Course(n, []), PolicyFor(n, peer);
    if policy.blocked {
      var no := Rejected(peer, Other);
      assert [] + no == no;
      if peer in n.peers {
        MuteShows(no, peer, Seen(n.peers[peer]));
      }
      OneTells(c, Course(n, no), peer, no);
    } else {
      var (kept, ended) := Nodes.Kept(n, peer, now);
      var begun := Begin(n.cfg, peer, policy, kept, budget, now, n.nextRequest);
      var greeted := Greet(n.cfg, peer, policy, begun, now);
      KeptIsMute(n, peer, now);
      BegunIsFresh(n.cfg, peer, policy, kept, budget, now, n.nextRequest);
      GreetAbout(n.cfg, peer, policy, begun, now);
      var d := Connect(n, peer, budget, now);
      assert d.out == [] + (ended + greeted.out);
      GreetTells(n.cfg, peer, policy, begun, now, ended, Seen(greeted.s));
      forall v: View ensures Shown(ended + greeted.out, peer, v) == Seen(greeted.s) && Current(n.cfg, greeted.s) {
        GreetTells(n.cfg, peer, policy, begun, now, ended, v);
      }
      assert d.n.peers - {peer} == n.peers - {peer};
      OneTells(c, d, peer, ended + greeted.out);
    }
  }

  lemma KeptIsMute(n: Node, peer: PubKey, now: Millis)
    ensures forall a :: a in Nodes.Kept(n, peer, now).1 ==> a.peer == peer
  {
    if peer in n.peers {
      LettingGoIsMute(peer, n.peers[peer], now);
    }
    if peer in n.parked {
      SettlingIsMute(peer, n.parked[peer].session.grant.channels, Ids(n.parked[peer].session.grant.channels));
    }
    hide SettleEach, LetGo, Grant.BudgetAt;
  }

  lemma LettingGoIsMute(peer: PubKey, s: PeerSession, now: Millis)
    ensures forall a :: a in LetGo(peer, s, now) ==> a.peer == peer && Mute(a)
  {
    SettlingIsMute(peer, s.grant.channels, Ids(s.grant.channels));
    hide SettleEach, Grant.BudgetAt;
  }

  lemma BegunIsFresh(cfg: Config, peer: PubKey, policy: PeerPolicy, kept: Option<PeerSession>, budget: Option<Budget>, now: Millis, next: u64)
    ensures var t := Begin(cfg, peer, policy, kept, budget, now, next);
      && t.s.policy == policy && t.s.weight == policy.Weight(cfg.node) && t.s.access == AccessLevel.Nothing && t.s.appliedRate.None?
      && t.s.phase == Opening && (forall a :: a in t.out ==> Mute(a) && a.peer == peer)
  {
    if kept.Some? {
      var cs := kept.value.Resume(policy, now).grant.channels;
      SettlingIsMute(peer, cs, ExpiringIds(cs, now, cfg.node.SettleLeadMs()));
    }
    hide SettleEach, ExpiringIds, Grant.Restart, Buyer.Restart, Grant.Restore;
  }

  lemma GreetAbout(cfg: Config, peer: PubKey, policy: PeerPolicy, t: Turn, now: Millis)
    requires forall a :: a in t.out ==> a.peer == peer
    ensures (forall a :: a in Greet(cfg, peer, policy, t, now).out ==> a.peer == peer) && Greet(cfg, peer, policy, t, now).s.phase == t.s.phase
  {
    hide Refresh, OfferFor, Readies, BalanceOf, Tells;
    var offer := OfferFor(cfg, policy, policy.Weight(cfg.node));
    var announced := t.DoAll([SetAccess(peer, AccessLevel.Nothing), Send(peer, MAnnounce(Announce(PROTOCOL_VERSION, cfg.local, cfg.node.unit, 0)))]
      + Readies(peer, Ids(t.s.grant.channels)));
    ReadiesAreMute(peer, Ids(t.s.grant.channels));
    var offered := SendOffer(peer, announced, offer);
    var told := if policy.noCharge then offered
      else offered.(s := offered.s.(budgetLive := offered.s.grant.IsLive(now))).Does(Send(peer, BalanceOf(offered.s, now)));
    RefreshTells(cfg, peer, told, now);
    RefreshPhase(cfg, peer, told, now);
    var after := Refresh(cfg, peer, told, now);
    assert Tells(peer, told, after);
    Prefixed(peer, told, after);
  }

  lemma Prefixed(peer: PubKey, t: Turn, t': Turn)
    requires Tells(peer, t, t')
    ensures t'.out == t.out + t'.out[|t.out|..] && forall a :: a in t'.out[|t.out|..] ==> a.peer == peer
  {
  }

  lemma RefreshPhase(cfg: Config, peer: PubKey, t: Turn, now: Millis)
    ensures Refresh(cfg, peer, t, now).s.phase == t.s.phase
  {
    hide RateOf, BalanceOf;
  }

  // ------------------------------------------------------------------------
  // Leaving, ticks and winding down
  // ------------------------------------------------------------------------

  /** Sessions only go, and the link of each that goes or ends is dropped; the rest stand as they did. */
  lemma GoingTells(c: Course, d: Course, peer: PubKey, said: seq<Action>)
    requires d.out == c.out + said && d.n.cfg.node == c.n.cfg.node && (forall a :: a in said ==> a.peer == peer)
    requires d.n.peers == c.n.peers - {peer} && DropPeer(peer) in said
    ensures TellsAll(c, d)
  {
    assert d.n.peers - {peer} == c.n.peers - {peer};
    OneTells(c, d, peer, said);
  }

  lemma ParkingIsMute(peer: PubKey, t: Turn, now: Millis)
    requires t.out == []
    ensures forall a :: a in Park(peer, t, now).out ==> a.peer == peer && Mute(a)
    ensures forall a :: a in Discard(peer, Park(peer, t, now)).out ==> a.peer == peer && Mute(a)
  {
    var parked := Park(peer, t, now);
    SettlingIsMute(peer, parked.s.grant.channels, Ids(parked.s.grant.channels));
    hide SettleEach, Grant.EndReservation, Grant.BudgetAt;
  }

  lemma TickPeerTells(c: Course, peer: PubKey, now: Millis)
    ensures TellsAll(c, TickPeer(c, peer, now))
  {
    hide OnTick, Park, Discard, TellsOn;
    var d := TickPeer(c, peer, now);
    if peer !in c.n.peers {
      assert c.out + [] == c.out;
      OneTells(c, c, peer, []);
    } else if Stale(c.n.cfg, c.n.peers[peer], now) {
      var t := Turn(c.n.peers[peer], c.n.nextRequest, []);
      ParkingIsMute(peer, t, now);
      var said := (if c.n.cfg.node.staleTimeoutMs == 0 then Discard(peer, Park(peer, t, now)).out else Park(peer, t, now).out) + [DropPeer(peer)];
      assert d.out == c.out + said;
      GoingTells(c, d, peer, said);
    } else {
      TickTells(c.n.cfg, peer, Enter(c.n, peer), now);
      InstallTells(c, peer, OnTick(c.n.cfg, peer, Enter(c.n, peer), now));
    }
  }

  lemma {:induction false} TickPeersTell(c: Course, order: seq<PubKey>, now: Millis)
    ensures TellsAll(c, TickPeers(c, order, now))
    decreases |order|
  {
    hide TickPeer, TellsAll;
    if order == [] {
      Unchanged(c, c, []);
    } else {
      TickPeerTells(c, order[0], now);
      TickPeersTell(TickPeer(c, order[0], now), order[1..], now);
      TellsAllThen(c, TickPeer(c, order[0], now), TickPeers(c, order, now));
    }
  }

  /** The same live sessions, whatever is settled meanwhile for those that are parked. */
  lemma Unchanged(c: Course, d: Course, said: seq<Action>)
    requires d.out == c.out + said && d.n.cfg.node == c.n.cfg.node && d.n.peers == c.n.peers && forall a :: a in said ==> Mute(a)
    ensures TellsAll(c, d)
  {
    assert d.out[|c.out|..] == said;
    forall p | p in d.n.peers ensures Follows(c, d, said, p) && Charges(c, d, p) {
      MuteShows(said, p, Seen(c.n.peers[p]));
      TermsRead(c.n.cfg, d.n.cfg, c.n.peers[p], d.n.peers[p]);
    }
  }

  lemma {:induction false} ParkedLoopsTell(c: Course, order: seq<PubKey>, now: Millis)
    ensures TellsAll(c, ExpireAllParked(c, order, now)) && TellsAll(c, SettleAllParked(c, order, now))
    ensures TellsAll(c, WindDownAllParked(c, order, now))
    decreases |order|
  {
    hide TellsAll;
    if order == [] {
      Unchanged(c, c, []);
    } else {
      ParkedTells(c, order[0], now);
      hide ExpireParked, SettleParked, WindDownParked;
      var x, y, z := ExpireParked(c, order[0], now), SettleParked(c, order[0], now), WindDownParked(c, order[0], now);
      ParkedLoopsTell(x, order[1..], now);
      ParkedLoopsTell(y, order[1..], now);
      ParkedLoopsTell(z, order[1..], now);
      TellsAllThen(c, x, ExpireAllParked(c, order, now));
      TellsAllThen(c, y, SettleAllParked(c, order, now));
      TellsAllThen(c, z, WindDownAllParked(c, order, now));
    }
  }

  lemma ParkedTells(c: Course, peer: PubKey, now: Millis)
    ensures TellsAll(c, ExpireParked(c, peer, now)) && TellsAll(c, SettleParked(c, peer, now)) && TellsAll(c, WindDownParked(c, peer, now))
  {
    hide TellsAll;
    if peer !in c.n.parked {
      Unchanged(c, c, []);
    } else {
      var s := c.n.parked[peer].session;
      var lead := c.n.cfg.node.SettleLeadMs();
      SettlingIsMute(peer, s.grant.channels, Ids(s.grant.channels));
      SettlingIsMute(peer, s.grant.channels, ExpiringIds(s.grant.channels, now, lead));
      LettingGoIsMute(peer, s, now);
      hide SettleEach, LetGo;
      Unchanged(c, c, []);
      var gone, spent := Discard(peer, Turn(s, 0, [])).out, SettleExpiring(c.n.cfg, peer, Turn(s, 0, []), now).out;
      if SatSub(now, c.n.parked[peer].since) > c.n.cfg.node.staleTimeoutMs {
        Unchanged(c, ExpireParked(c, peer, now), gone);
      }
      Unchanged(c, SettleParked(c, peer, now), spent);
      Unchanged(c, WindDownParked(c, peer, now), LetGo(peer, s, now));
    }
  }

  lemma KeepAliveTells(c: Course, peer: PubKey, now: Millis)
    ensures TellsAll(c, KeepAlive(c, peer, now))
  {
    hide Current;
    var d := KeepAlive(c, peer, now);
    if d == c {
      assert c.out + [] == c.out;
      OneTells(c, c, peer, []);
    } else {
      var s := c.n.peers[peer];
      var offer := s.offerSent.value;
      ShownOffer(peer, offer, Seen(s));
      TermsRead(c.n.cfg, d.n.cfg, s, d.n.peers[peer]);
      assert d.n.peers - {peer} == c.n.peers - {peer};
      OneTells(c, d, peer, [Send(peer, MOffer(offer))]);
    }
  }

  lemma {:induction false} KeepAllAliveTells(c: Course, order: seq<PubKey>, now: Millis)
    ensures TellsAll(c, KeepAllAlive(c, order, now))
    decreases |order|
  {
    hide KeepAlive, TellsAll;
    if order == [] {
      Unchanged(c, c, []);
    } else {
      KeepAliveTells(c, order[0], now);
      KeepAllAliveTells(KeepAlive(c, order[0], now), order[1..], now);
      TellsAllThen(c, KeepAlive(c, order[0], now), KeepAllAlive(c, order, now));
    }
  }

  lemma TickedTells(n: Node, order: seq<PubKey>, now: Millis)
    ensures TellsAll(Course(n, []), Ticked(n, order, now))
  {
    hide TickPeers, ExpireAllParked, SettleAllParked, NoteSent, KeepAllAlive, TellsAll;
    var start := Course(n, []);
    var ticked := TickPeers(start, order, now);
    var expired := ExpireAllParked(ticked, order, now);
    var settled := SettleAllParked(expired, order, now);
    var noted := NoteSent(settled, now);
    TickPeersTell(start, order, now);
    ParkedLoopsTell(ticked, order, now);
    ParkedLoopsTell(expired, order, now);
    NotingTells(settled, now);
    KeepAllAliveTells(noted, order, now);
    TellsAllThen(start, ticked, expired);
    TellsAllThen(start, expired, settled);
    TellsAllThen(start, settled, noted);
    TellsAllThen(start, noted, KeepAllAlive(noted, order, now));
  }

  lemma {:induction false} WindDownTells(c: Course, order: seq<PubKey>, now: Millis, gone: set<PubKey>)
    requires c.n.peers.Keys <= gone
    ensures TellsBut(c, WindDownPeers(c, order, now), gone, {})
    decreases |order|
  {
    hide TellsBut, TellsAll, Current;
    if order == [] {
      Unchanged(c, c, []);
      TellsMore(c, c, gone, {});
    } else {
      var d := WindDownPeer(c, order[0], now);
      WindDownOneTells(c, order[0], now, gone);
      WindDownKeys(c, order[0], now);
      hide WindDownPeer;
      WindDownTells(d, order[1..], now, gone);
      TellsButThen(c, d, WindDownPeers(c, order, now), gone, {});
    }
  }

  lemma WindDownKeys(c: Course, peer: PubKey, now: Millis)
    ensures WindDownPeer(c, peer, now).n.peers.Keys == c.n.peers.Keys
  {
    hide Discard;
  }

  lemma WindDownOneTells(c: Course, peer: PubKey, now: Millis, gone: set<PubKey>)
    requires c.n.peers.Keys <= gone
    ensures TellsBut(c, WindDownPeer(c, peer, now), gone, {})
  {
    hide Current;
    var d := WindDownPeer(c, peer, now);
    if peer !in c.n.peers {
      assert c.out + [] == c.out;
      OneTellsBut(c, c, peer, [], gone, {});
    } else {
      var s := c.n.peers[peer].(phase := Closing);
      LettingGoIsMute(peer, s, now);
      var said := LetGo(peer, s, now) + [Send(peer, MDisconnect(Other))];
      assert d.out == c.out + said by { hide SettleEach, Grant.BudgetAt; assert Enter(c.n, peer).out == []; }
      assert Seen(d.n.peers[peer]) == Seen(c.n.peers[peer]) && d.n.peers[peer].policy == s.policy && d.n.peers[peer].weight == s.weight by {
        hide SettleEach, Grant.BudgetAt;
      }
      TermsRead(c.n.cfg, d.n.cfg, c.n.peers[peer], d.n.peers[peer]);
      MuteShows(said, peer, Seen(c.n.peers[peer]));
      assert d.n.peers - {peer} == c.n.peers - {peer};
      OneTellsBut(c, d, peer, said, gone, {});
    }
  }

  lemma TellsMore(c: Course, d: Course, gone: set<PubKey>, untold: set<PubKey>)
    requires TellsAll(c, d)
    ensures TellsBut(c, d, gone, untold)
  {
  }

  lemma LeavingTells(n: Node, d: Course, peer: PubKey)
    requires d.n.cfg.node == n.cfg.node && d.n.peers == n.peers - {peer} && forall a :: a in d.out ==> a.peer == peer
    ensures TellsBut(Course(n, []), d, {peer}, {})
  {
    assert [] + d.out == d.out;
    assert d.n.peers - {peer} == n.peers - {peer};
    OneTellsBut(Course(n, []), d, peer, d.out, {peer}, {});
  }

  lemma DisconnectTells(n: Node, peer: PubKey, now: Millis)
    ensures TellsBut(Course(n, []), Disconnect(n, peer, now), {peer}, {})
  {
    hide TellsBut;
    if peer !in n.peers {
      LeavingTells(n, Course(n, []), peer);
    } else {
      var s := n.peers[peer];
      LettingGoIsMute(peer, s, now);
      ParkingIsMute(peer, Turn(s, n.nextRequest, []), now);
      hide LetGo, Park, Discard;
      LeavingTells(n, Disconnect(n, peer, now), peer);
    }
  }

  lemma ForgetTells(n: Node, peer: PubKey, now: Millis)
    ensures TellsBut(Course(n, []), Forget(n, peer, now), {peer}, {})
  {
    if peer in n.peers {
      LettingGoIsMute(peer, n.peers[peer], now);
    }
    if peer in n.parked {
      LettingGoIsMute(peer, n.parked[peer].session, now);
    }
    hide LetGo, TellsBut;
    LeavingTells(n, Forget(n, peer, now), peer);
  }

  // ------------------------------------------------------------------------
  // Every event
  // ------------------------------------------------------------------------

  /** The host itself has ended these, or hears that they have: it needs no telling. */
  ghost function GoneBy(n: Node, e: Event): set<PubKey> {
    if e.PeerDisconnected? || e.Forgotten? then {e.peer} else if e.ShutDown? then n.peers.Keys else {}
  }

  /** An override made for a session that is ending is not told. */
  ghost function UntoldBy(n: Node, e: Event): set<PubKey> {
    if e.PeerPolicySet? && e.peer in n.peers && n.peers[e.peer].phase.Closing? then {e.peer} else {}
  }

  lemma StepTells(n: Node, e: Event, now: Millis)
    ensures TellsBut(Course(n, []), Step(n, e, now), GoneBy(n, e), UntoldBy(n, e))
  {
    hide NoteSent, OnPeer, Connect, Disconnect, Ticked, Forget, WindDownPeers, WindDownAllParked, TellsBut, TellsAll;
    var start, end := Course(n, []), Step(n, e, now);
    var gone, untold := GoneBy(n, e), UntoldBy(n, e);
    match e
    case PeerConnected(peer, budget) =>
      ConnectTells(n, peer, budget, now);
      NotingTells(Connect(n, peer, budget, now), now);
      TellsAllThen(start, Connect(n, peer, budget, now), end);
      TellsMore(start, end, gone, untold);
    case PeerDisconnected(peer) =>
      var left := Disconnect(n, peer, now);
      DisconnectTells(n, peer, now);
      NotingTells(left, now);
      TellsMore(left, end, gone, untold);
      TellsButThen(start, left, end, gone, untold);
    case Tick(order) =>
      TickedTells(n, order, now);
      TellsMore(start, end, gone, untold);
    case Forgotten(peer) => ForgetTells(n, peer, now);
    case ShutDown(order) =>
      var wound := WindDownPeers(start, order, now);
      WindDownTells(start, order, now, gone);
      ParkedLoopsTell(wound, order, now);
      TellsMore(wound, end, gone, untold);
      TellsButThen(start, wound, end, gone, untold);
    case BuyerPolicySet(buying) =>
      Unchanged(start, end, []);
      TellsMore(start, end, gone, untold);
    case PeerPolicySet(peer, policy) =>
      var m := n.(overrides := n.overrides[peer := policy]);
      var told := OnPeer(m, peer, e, now);
      OverrideTells(m, e, now);
      NotingTells(told, now);
      TellsMore(told, end, gone, untold);
      TellsButThen(Course(m, []), told, end, gone, untold);
      Unchanged(start, Course(m, []), []);
      TellsMore(start, Course(m, []), gone, untold);
      TellsButThen(start, Course(m, []), end, gone, untold);
    case _ =>
      OnPeerTells(n, e, now);
      NotingTells(OnPeer(n, e.peer, e, now), now);
      TellsAllThen(start, OnPeer(n, e.peer, e, now), end);
      TellsMore(start, end, gone, untold);
  }

  // ------------------------------------------------------------------------
  // Over whole runs
  // ------------------------------------------------------------------------

  /** What a peer's host and the peer have been told over a run, from what they held to before it. */
  ghost function ToldOver(n: Node, es: seq<(Event, Millis)>, p: PubKey, v: View): View
    decreases |es|
  {
    if es == [] then v
    else
      var c := Step(n, es[0].0, es[0].1);
      ToldOver(c.n, es[1..], p, Shown(c.out, p, v))
  }

  /**
    Over every run, whoever is connected is gated and shaped as its session says, and holds the terms last
    sent: whatever was told to an earlier session of the same peer.
   */
  lemma {:induction false} ToldWhatIs(n: Node, es: seq<(Event, Millis)>, p: PubKey, v: View)
    requires p in n.peers ==> v == Seen(n.peers[p])
    ensures p in Run(n, es).peers ==> ToldOver(n, es, p, v) == Seen(Run(n, es).peers[p])
    decreases |es|
  {
    if es != [] {
      var (e, now) := es[0];
      var c := Step(n, e, now);
      StepTells(n, e, now);
      hide Step, GoneBy, UntoldBy, Current, Shown;
      assert c.out[0..] == c.out;
      if p in c.n.peers {
        assert Follows(Course(n, []), c, c.out, p);
        ToldWhatIs(c.n, es[1..], p, Shown(c.out, p, v));
      } else {
        ToldWhatIs(c.n, es[1..], p, Shown(c.out, p, v));
      }
    }
  }

  /** No override is made for this peer while a session of its is ending. */
  ghost predicate AllTold(n: Node, es: seq<(Event, Millis)>, p: PubKey)
    decreases |es|
  {
    es == [] || (p !in UntoldBy(n, es[0].0) && AllTold(Step(n, es[0].0, es[0].1).n, es[1..], p))
  }

  /** And then the terms last sent to it are the ones it is charged by, over every run. */
  lemma {:induction false} ChargedAsTold(n: Node, es: seq<(Event, Millis)>, p: PubKey)
    requires AllTold(n, es, p) && (p in n.peers ==> Current(n.cfg, n.peers[p]))
    ensures p in Run(n, es).peers ==> Current(Run(n, es).cfg, Run(n, es).peers[p])
    decreases |es|
  {
    if es != [] {
      var (e, now) := es[0];
      var c := Step(n, e, now);
      StepTells(n, e, now);
      hide Step, GoneBy, UntoldBy, Current;
      assert p in c.n.peers ==> Charges(Course(n, []), c, p);
      ChargedAsTold(c.n, es[1..], p);
    }
  }

  /** From a node with no one, both. */
  lemma ToldFromTheStart(cfg: Config, es: seq<(Event, Millis)>, p: PubKey, v: View)
    requires p in Run(NewNode(cfg), es).peers
    ensures var n := Run(NewNode(cfg), es);
      && ToldOver(NewNode(cfg), es, p, v) == Seen(n.peers[p])
      && (AllTold(NewNode(cfg), es, p) ==> n.peers[p].offerSent == Some(OfferFor(n.cfg, n.peers[p].policy, n.peers[p].weight)))
  {
    ToldWhatIs(NewNode(cfg), es, p, v);
    if AllTold(NewNode(cfg), es, p) {
      ChargedAsTold(NewNode(cfg), es, p);
    }
  }

  /** A session that ends has its link dropped, unless the host ended it or was told that it had. */
  lemma EndingIsTold(n: Node, e: Event, now: Millis, p: PubKey)
    requires p in n.peers && !n.peers[p].phase.Closing? && p !in GoneBy(n, e)
    ensures var c := Step(n, e, now); (p in c.n.peers && !c.n.peers[p].phase.Closing?) || DropPeer(p) in c.out
  {
    StepTells(n, e, now);
    hide Step, Current;
    var c := Step(n, e, now);
    assert c.out[0..] == c.out;
    assert Lasts(Course(n, []), c, c.out, p);
  }

  /** An override leaves a peer charged as it was told, exactly unless its session is ending and is to be charged otherwise. */
  lemma OverrideIsLostIff(n: Node, p: PubKey, policy: PeerPolicy, now: Millis)
    requires p in n.peers && Current(n.cfg, n.peers[p])
    ensures var m := Step(n, PeerPolicySet(p, policy), now).n;
      p in m.peers && (Current(m.cfg, m.peers[p]) <==> !n.peers[p].phase.Closing? || policy.noCharge == n.peers[p].policy.noCharge)
  {
    var m := n.(overrides := n.overrides[p := policy]);
    PolicyTells(n.cfg, p, Enter(m, p), policy, now);
    hide Refresh, Tells, BalanceOf;
  }

  /**
    What an untold override comes to. A peer carried free ends its session; it is to be charged from now on;
    and a late verification brings the session back. It is live, charged, and was last told that it is not.
   */
  lemma OverrideIsLost(n: Node, p: PubKey, policy: PeerPolicy, at: Millis, e: Event, now: Millis)
    requires p in n.peers && n.peers[p].phase.Closing? && Current(n.cfg, n.peers[p]) && n.peers[p].policy.noCharge && !policy.noCharge
    requires e.IncomingFundingVerified? && e.peer == p && e.mintUrl in n.cfg.node.acceptedMints
    ensures var m := Step(Step(n, PeerPolicySet(p, policy), at).n, e, now).n;
      && p in m.peers && m.peers[p].phase.Established? && !m.peers[p].policy.noCharge
      && m.peers[p].offerSent.Some? && m.peers[p].offerSent.value.noCharge && !Current(m.cfg, m.peers[p])
  {
    hide OnIncomingVerified, ReservedElsewhere;
    var mid := Step(n, PeerPolicySet(p, policy), at).n;
    assert mid.peers[p].offerSent == n.peers[p].offerSent && mid.peers[p].policy == policy && mid.peers[p].phase.Closing?;
    var t := Enter(mid, p);
    VerifiedTells(mid.cfg, p, t, e.channelId, e.capacity, e.expiresAt, now);
    VerifiedEstablishes(mid.cfg, p, t, e.channelId, e.capacity, e.expiresAt, now);
  }

  lemma VerifiedEstablishes(cfg: Config, peer: PubKey, t: Turn, id: ChannelId, capacity: u64, expiresAt: Option<Millis>, now: Millis)
    ensures OnIncomingVerified(cfg, peer, t, id, capacity, expiresAt, now).s.phase.Established?
  {
    hide RateOf, BalanceOf, Grant.OpenChannel, FirstBesides, AccessOf;
  }

  /** A peer that is blocked is turned away: told so and its link dropped, and no session of its begun or carried on. */
  lemma BlockedIsTurnedAway(n: Node, peer: PubKey, budget: Option<Budget>, now: Millis)
    requires peer in n.overrides && n.overrides[peer].blocked
    ensures var c := Step(n, PeerConnected(peer, budget), now);
      && c.out == [Send(peer, MDisconnect(Other)), DropPeer(peer)] && c.n.peers.Keys == n.peers.Keys
      && (peer in n.peers ==> c.n.peers[peer] == n.peers[peer].(lastSent := now))
  {
    assert Sends(Send(peer, MDisconnect(Other)), peer);
    assert SentTo([Send(peer, MDisconnect(Other)), DropPeer(peer)], peer);
  }
}
