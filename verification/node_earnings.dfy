/**
  No earnings are dropped. A channel a peer pays on holds value until it is settled, so over every
  event it is either still held, live or parked, or the host is asked to settle it with its expiry;
  and no tick leaves one too near the point where the peer could take it back.
 */
module NodeEarnings {
  import opened Numbers
  import opened Wrappers
  import opened Wire
  import opened Grants
  import opened GrantChannels
  import opened Buyers
  import opened Sessions
  import opened SessionFrames
  import opened SessionPurchases
  import opened Nodes
  import opened NodeFrames

  /** The channels a peer pays on, whether its session is live or parked. */
  ghost function ChannelsOf(n: Node, peer: PubKey): seq<IncomingChannel> {
    if peer in n.peers then n.peers[peer].grant.channels
    else if peer in n.parked then n.parked[peer].session.grant.channels
    else []
  }

  /** No peer is both live and parked; every session is sound, and a parked one reserves and draws nothing. */
  ghost predicate NodeSound(n: Node) {
    && n.peers.Keys !! n.parked.Keys
    && (forall p :: p in n.peers ==> Sound(n.peers[p]))
    && (forall p :: p in n.parked ==> Resting(n.parked[p].session))
  }

  ghost predicate Resting(s: PeerSession) {
    Sound(s) && s.grant.second.None? && s.grant.reservedRate == 0
  }

  /** No channel appears and none is signed higher, and no purchase is recorded. */
  ghost predicate Thins(c: Course, c': Course) {
    && (forall p: PubKey :: Thinned(ChannelsOf(c.n, p), ChannelsOf(c'.n, p)))
    && NoNewRecords(c.out, c'.out)
  }

  ghost predicate NoNewRecords(out: seq<Action>, out': seq<Action>) {
    forall a :: a in out' && a.RecordUpdates? ==> a in out
  }

  /** Between two points of an event, every channel is held on or settled. */
  ghost predicate Carries(c: Course, c': Course) {
    && NodeSound(c'.n)
    && Thins(c, c')
    && (forall a :: a in c.out ==> a in c'.out)
    && forall p: PubKey, ch :: ch in ChannelsOf(c.n, p) ==> Held(ChannelsOf(c'.n, p), ch) || Settled(c'.out, p, ch)
  }

  lemma CarriesThen(c: Course, d: Course, e: Course)
    requires Carries(c, d) && Carries(d, e)
    ensures Carries(c, e)
  {
    ThinsThen(c, d, e);
    hide Thins;
    forall p: PubKey, ch | ch in ChannelsOf(c.n, p)
      ensures Held(ChannelsOf(e.n, p), ch) || Settled(e.out, p, ch)
    {
      if Held(ChannelsOf(d.n, p), ch) {
        var x :| x in ChannelsOf(d.n, p) && x.id == ch.id && x.expiresAt == ch.expiresAt;
        assert Held(ChannelsOf(e.n, p), x) || Settled(e.out, p, x);
      }
    }
  }

  lemma ThinsThen(c: Course, d: Course, e: Course)
    requires Thins(c, d) && Thins(d, e)
    ensures Thins(c, e)
  {
    forall p: PubKey ensures Thinned(ChannelsOf(c.n, p), ChannelsOf(e.n, p)) {
      assert Thinned(ChannelsOf(c.n, p), ChannelsOf(d.n, p)) && Thinned(ChannelsOf(d.n, p), ChannelsOf(e.n, p));
      ThinnedThen(ChannelsOf(c.n, p), ChannelsOf(d.n, p), ChannelsOf(e.n, p));
    }
  }

  /** Only one peer's channels may have changed. */
  lemma OnePeerCarries(c: Course, c': Course, peer: PubKey)
    requires NodeSound(c'.n) && (forall a :: a in c.out ==> a in c'.out)
    requires forall p :: p != peer ==> ChannelsOf(c'.n, p) == ChannelsOf(c.n, p)
    requires Accounted(peer, ChannelsOf(c.n, peer), ChannelsOf(c'.n, peer), c'.out)
    requires Thinned(ChannelsOf(c.n, peer), ChannelsOf(c'.n, peer)) && NoNewRecords(c.out, c'.out)
    ensures Carries(c, c')
  {
    forall p: PubKey ensures Thinned(ChannelsOf(c.n, p), ChannelsOf(c'.n, p)) {
      if p != peer {
        SameThinned(ChannelsOf(c.n, p));
      }
    }
    hide Thinned;
  }

  lemma SameThinned(cs: seq<IncomingChannel>)
    ensures Thinned(cs, cs)
  {
  }

  lemma MoreActionsAccount(peer: PubKey, before: seq<IncomingChannel>, after: seq<IncomingChannel>, out: seq<Action>, out': seq<Action>)
    requires Accounted(peer, before, after, out) && forall a :: a in out ==> a in out'
    ensures Accounted(peer, before, after, out')
  {
  }

  lemma InstallCarries(c: Course, peer: PubKey, t: Turn)
    requires NodeSound(c.n) && peer !in c.n.parked && Sound(t.s)
    requires Accounted(peer, ChannelsOf(c.n, peer), t.s.grant.channels, t.out)
    requires Thinned(ChannelsOf(c.n, peer), t.s.grant.channels) && NoNewRecords([], t.out)
    ensures Carries(c, Install(c, peer, t))
  {
    var c' := Install(c, peer, t);
    MoreActionsAccount(peer, ChannelsOf(c.n, peer), t.s.grant.channels, t.out, c'.out);
    OnePeerCarries(c, c', peer);
  }

  // ------------------------------------------------------------------------
  // One session
  // ------------------------------------------------------------------------

  lemma BasisIsSound(n: Node, t: Turn, e: Event, now: Millis)
    requires Sound(t.s)
    ensures Sound(Basis(n, t, e, now).s)
  {
    if Verifies(n, e) {
      OpenKeepsDistinct(t.s.grant, e.channelId, e.capacity, e.expiresAt);
    }
  }

  lemma EventKeepsSound(n: Node, t: Turn, e: Event, elsewhere: u64, now: Millis)
    requires Sound(t.s) && !e.PeerConnected? && !e.PeerDisconnected? && !e.Tick? && !e.BuyerPolicySet? && !e.Forgotten? && !e.ShutDown?
    ensures Sound(OnSession(n, t, e, elsewhere, now).s)
    ensures Accounted(e.peer, Basis(n, t, e, now).s.grant.channels, OnSession(n, t, e, elsewhere, now).s.grant.channels,
                      OnSession(n, t, e, elsewhere, now).out)
  {
    BasisIsSound(n, t, e, now);
    EventMoves(n, t, e, elsewhere, now);
    hide Basis, OnSession, Buys, Distinct, Held, Settled;
  }

  lemma LetGoAccounts(peer: PubKey, s: PeerSession, now: Millis)
    requires Sound(s)
    ensures forall c :: c in s.grant.channels ==> Settled(LetGo(peer, s, now), peer, c)
    ensures NoNewRecords([], LetGo(peer, s, now))
  {
    DiscardIsOrdinary(peer, Save(peer, Turn(s, 0, []), now), now);
  }

  lemma EndReservationRests(s: PeerSession)
    requires Sound(s)
    ensures Resting(s.(grant := s.grant.EndReservation())) && s.grant.EndReservation().channels == s.grant.channels
  {
    PauseIsDrawn(s.grant);
    hide Grant.Pause;
  }

  lemma ParkPeerCarries(c: Course, peer: PubKey, now: Millis)
    requires NodeSound(c.n) && peer in c.n.peers
    ensures Carries(c, ParkPeer(c, peer, now))
  {
    hide Discard, Grant.EndReservation, Distinct, Held, Settled, Thinned;
    var s, c' := c.n.peers[peer], ParkPeer(c, peer, now);
    EndReservationRests(s);
    ParkedTurn(c, peer, now);
    assert NodeSound(c'.n);
    OnePeerCarries(c, c', peer);
  }

  /** What parking asks of the host, whether or not there is any grace. */
  lemma ParkedTurn(c: Course, peer: PubKey, now: Millis)
    requires NodeSound(c.n) && peer in c.n.peers
    ensures var c' := ParkPeer(c, peer, now);
      && Accounted(peer, ChannelsOf(c.n, peer), ChannelsOf(c'.n, peer), c'.out)
      && Thinned(ChannelsOf(c.n, peer), ChannelsOf(c'.n, peer)) && NoNewRecords(c.out, c'.out)
  {
    var s := c.n.peers[peer];
    var t := Park(peer, Turn(s, c.n.nextRequest, []), now);
    EndReservationRests(s);
    hide Grant.EndReservation, Grant.BudgetAt;
    assert Sound(s);
    SameChannelsAccounted(peer, s.grant.channels, t.out);
    DiscardIsOrdinary(peer, t, now);
    hide Discard, Drawn, SavesOnlyGone;
  }

  lemma RestartIsSound(g: Grant, now: Millis)
    requires Distinct(g.channels) && g.Valid()
    ensures Distinct(g.Restart(now).channels) && g.Restart(now).Valid()
    ensures forall c :: c in g.channels ==> Held(g.Restart(now).channels, c)
    ensures Thinned(g.channels, g.Restart(now).channels)
  {
    PauseIsDrawn(g);
    hide Grant.Pause;
    var cleared := g.Restart(now).channels;
    assert |cleared| == |g.channels| && forall i :: 0 <= i < |cleared| ==> cleared[i] == g.channels[i].(failures := 0);
    forall c | c in g.channels ensures Held(cleared, c) {
      var i :| 0 <= i < |g.channels| && g.channels[i] == c;
      assert cleared[i] in cleared;
    }
    forall d | d in cleared ensures From(g.channels, d) {
      var i :| 0 <= i < |cleared| && cleared[i] == d;
      assert g.channels[i] in g.channels;
    }
  }

  // ------------------------------------------------------------------------
  // Connecting
  // ------------------------------------------------------------------------

  lemma {:induction false} ReadiesAreSent(peer: PubKey, ids: seq<ChannelId>)
    ensures forall a :: a in Readies(peer, ids) ==> a.Send?
  {
    if ids != [] {
      ReadiesAreSent(peer, ids[1..]);
      assert forall a :: a in Readies(peer, ids) ==> a in [Send(peer, MChannelReady(ids[0]))] || a in Readies(peer, ids[1..]);
    }
  }

  lemma GreetLeavesGrant(cfg: Config, peer: PubKey, policy: PeerPolicy, t: Turn, now: Millis)
    ensures Greet(cfg, peer, policy, t, now).s.grant == t.s.grant
    ensures forall a :: a in t.out ==> a in Greet(cfg, peer, policy, t, now).out
    ensures NoNewRecords(t.out, Greet(cfg, peer, policy, t, now).out)
  {
    ReadiesAreSent(peer, Ids(t.s.grant.channels));
    hide Readies, BalanceOf, OfferFor, AccessOf, RateOf;
  }

  lemma BeginAccounts(cfg: Config, peer: PubKey, policy: PeerPolicy, kept: Option<PeerSession>, budget: Option<Budget>, now: Millis, next: u64)
    requires kept.Some? ==> Sound(kept.value)
    ensures var t := Begin(cfg, peer, policy, kept, budget, now, next);
      Sound(t.s) && Accounted(peer, if kept.Some? then kept.value.grant.channels else [], t.s.grant.channels, t.out)
    ensures var t := Begin(cfg, peer, policy, kept, budget, now, next);
      Thinned(if kept.Some? then kept.value.grant.channels else [], t.s.grant.channels) && NoNewRecords([], t.out)
  {
    var t := Begin(cfg, peer, policy, kept, budget, now, next);
    if kept.Some? {
      var resumed := Turn(kept.value.Resume(policy, now), next, []);
      RestartIsSound(kept.value.grant, now);
      hide Grant.Restart, Buyer.Restart;
      SettleExpiringIsOrdinary(cfg, peer, resumed, now);
      var settled := SettleExpiring(cfg, peer, resumed, now);
      hide SettleExpiring;
      assert t.s.grant == settled.s.grant && t.out == settled.out;
      ThinnedThen(kept.value.grant.channels, resumed.s.grant.channels, settled.s.grant.channels);
      forall c | c in kept.value.grant.channels
        ensures Held(t.s.grant.channels, c) || Settled(t.out, peer, c)
      {
        var d :| d in resumed.s.grant.channels && d.id == c.id && d.expiresAt == c.expiresAt;
        assert Held(t.s.grant.channels, d) || Settled(t.out, peer, d);
      }
    }
  }

  /** What is not kept is let go: every channel of either session is kept or settled. */
  lemma KeptAccounts(n: Node, peer: PubKey, now: Millis)
    requires NodeSound(n)
    ensures var (kept, ended) := Kept(n, peer, now);
      && (kept.Some? ==> Sound(kept.value))
      && (forall c :: c in ChannelsOf(n, peer) ==> (kept.Some? && c in kept.value.grant.channels) || Settled(ended, peer, c))
      && (kept.Some? ==> kept.value.grant.channels == ChannelsOf(n, peer))
      && NoNewRecords([], ended)
  {
    if peer in n.peers {
      LetGoAccounts(peer, n.peers[peer], now);
    } else if peer in n.parked {
      DiscardIsOrdinary(peer, Turn(n.parked[peer].session, 0, []), now);
    }
    hide LetGo, Discard;
  }

  lemma ConnectCarries(n: Node, peer: PubKey, budget: Option<Budget>, now: Millis)
    requires NodeSound(n)
    ensures Carries(Course(n, []), Connect(n, peer, budget, now))
  {
    hide Kept, Begin, Greet, Held, Settled;
    if PolicyFor(n, peer).blocked {
      StaysHeld(n);
    } else {
      ConnectedCarries(n, peer, budget, now);
    }
  }

  lemma ConnectedCarries(n: Node, peer: PubKey, budget: Option<Budget>, now: Millis)
    requires NodeSound(n) && !PolicyFor(n, peer).blocked
    ensures Carries(Course(n, []), Connect(n, peer, budget, now))
  {
    hide Kept, Begin, Greet, Held, Settled, Carries, From;
    var policy := PolicyFor(n, peer);
    var (kept, ended) := Kept(n, peer, now);
    var begun := Begin(n.cfg, peer, policy, kept, budget, now, n.nextRequest);
    var greeted := Greet(n.cfg, peer, policy, begun, now);
    KeptAccounts(n, peer, now);
    BeginAccounts(n.cfg, peer, policy, kept, budget, now, n.nextRequest);
    GreetLeavesGrant(n.cfg, peer, policy, begun, now);
    var c' := Connect(n, peer, budget, now);
    assert c' == Install(Course(Cleared(n, peer), ended), peer, greeted);
    hide Connect;
    StillSettled(ended, begun.out, c'.out, peer);
    forall ch | ch in ChannelsOf(n, peer)
      ensures Held(greeted.s.grant.channels, ch) || Settled(c'.out, peer, ch)
    {
      if kept.Some? && ch in kept.value.grant.channels {
        assert Held(begun.s.grant.channels, ch) || Settled(begun.out, peer, ch);
      }
    }
    ThinnedFromNone(ChannelsOf(n, peer), begun.s.grant.channels);
    OnePeerCarries(Course(n, []), c', peer);
  }

  lemma ThinnedFromNone(cs: seq<IncomingChannel>, ds: seq<IncomingChannel>)
    ensures Thinned([], ds) ==> Thinned(cs, ds)
  {
    if Thinned([], ds) && ds != [] {
      NothingFromNone(ds[0]);
    }
  }

  lemma NothingFromNone(d: IncomingChannel)
    ensures !From([], d)
  {
  }

  lemma StillSettled(some: seq<Action>, others: seq<Action>, out: seq<Action>, peer: PubKey)
    requires (forall a :: a in some ==> a in out) && (forall a :: a in others ==> a in out)
    ensures forall ch :: Settled(some, peer, ch) || Settled(others, peer, ch) ==> Settled(out, peer, ch)
  {
  }

  lemma StaysHeld(n: Node)
    ensures forall p: PubKey, ch :: ch in ChannelsOf(n, p) ==> Held(ChannelsOf(n, p), ch)
  {
  }

  lemma UnchangedCarries(c: Course, c': Course)
    requires NodeSound(c.n) && NodeSound(c'.n) && (forall a :: a in c.out ==> a in c'.out) && NoNewRecords(c.out, c'.out)
    requires forall p: PubKey :: ChannelsOf(c'.n, p) == ChannelsOf(c.n, p)
    ensures Carries(c, c')
  {
    StaysHeld(c.n);
    forall p: PubKey ensures Thinned(ChannelsOf(c.n, p), ChannelsOf(c'.n, p)) {
      SameThinned(ChannelsOf(c.n, p));
    }
    hide Held, Settled, Thinned;
  }

  lemma NoteSentCarries(c: Course, now: Millis)
    requires NodeSound(c.n)
    ensures Carries(c, NoteSent(c, now))
    ensures forall p: PubKey :: ChannelsOf(NoteSent(c, now).n, p) == ChannelsOf(c.n, p)
  {
    UnchangedCarries(c, NoteSent(c, now));
  }

  // ------------------------------------------------------------------------
  // Ticks
  // ------------------------------------------------------------------------

  ghost predicate ClearOf(n: Node, peer: PubKey, now: Millis) {
    Clear(ChannelsOf(n, peer), now, n.cfg.node.safetyMarginMs / 2)
  }

  lemma TickPeerCarries(c: Course, peer: PubKey, now: Millis)
    requires NodeSound(c.n)
    ensures Carries(c, TickPeer(c, peer, now))
    ensures var c' := TickPeer(c, peer, now);
      && c'.n.cfg == c.n.cfg
      && (forall p :: p != peer ==> ChannelsOf(c'.n, p) == ChannelsOf(c.n, p) && (p in c'.n.parked <==> p in c.n.parked))
      && (peer in c'.n.parked || ClearOf(c'.n, peer, now))
  {
    var c' := TickPeer(c, peer, now);
    if peer !in c.n.peers {
      UnchangedCarries(c, c);
    } else if Stale(c.n.cfg, c.n.peers[peer], now) {
      ParkPeerCarries(c, peer, now);
      var parked := ParkPeer(c, peer, now);
      assert peer in parked.n.parked || ChannelsOf(parked.n, peer) == [];
      hide ParkPeer;
      UnchangedCarries(parked, c');
      CarriesThen(c, parked, c');
    } else {
      var t := OnTick(c.n.cfg, peer, Enter(c.n, peer), now);
      OnTickIsOrdinary(c.n.cfg, peer, Enter(c.n, peer), now);
      hide OnTick;
      InstallCarries(c, peer, t);
    }
  }

  lemma {:induction false} TickPeersCarry(c: Course, order: seq<PubKey>, now: Millis)
    requires NodeSound(c.n) && forall i, j :: 0 <= i < j < |order| ==> order[i] != order[j]
    ensures var c' := TickPeers(c, order, now);
      && Carries(c, c') && c'.n.cfg == c.n.cfg
      && (forall p :: p !in order ==> ChannelsOf(c'.n, p) == ChannelsOf(c.n, p) && (p in c'.n.parked <==> p in c.n.parked))
      && (forall p :: p in order ==> p in c'.n.parked || ClearOf(c'.n, p, now))
    decreases |order|
  {
    if order == [] {
      UnchangedCarries(c, c);
    } else {
      var d := TickPeer(c, order[0], now);
      TickPeerCarries(c, order[0], now);
      hide TickPeer, NodeSound, Carries, ChannelsOf;
      assert Carries(c, d) && NodeSound(d.n) by { CarriesIsSound(c, d); }
      assert order[0] !in order[1..];
      TickPeersCarry(d, order[1..], now);
      CarriesThen(c, d, TickPeers(c, order, now));
      assert forall p :: p in order <==> p == order[0] || p in order[1..];
    }
  }

  lemma CarriesIsSound(c: Course, d: Course)
    requires Carries(c, d)
    ensures NodeSound(d.n)
  {
  }

  lemma ExpireParkedCarries(c: Course, peer: PubKey, now: Millis)
    requires NodeSound(c.n)
    ensures Carries(c, ExpireParked(c, peer, now))
    ensures var c' := ExpireParked(c, peer, now);
      && c'.n.cfg == c.n.cfg && (forall p :: p != peer ==> ChannelsOf(c'.n, p) == ChannelsOf(c.n, p))
      && (peer !in c.n.parked ==> c' == c)
      && (forall p :: p in c'.n.parked ==> p in c.n.parked)
      && (forall p :: p in c.n.parked && p !in c'.n.parked ==> p == peer)
      && (ChannelsOf(c'.n, peer) == ChannelsOf(c.n, peer) || ChannelsOf(c'.n, peer) == [])
      && (peer in c.n.parked && peer !in c'.n.parked ==> ChannelsOf(c'.n, peer) == [])
  {
    var c' := ExpireParked(c, peer, now);
    if c' == c {
      UnchangedCarries(c, c);
    } else {
      DiscardIsOrdinary(peer, Turn(c.n.parked[peer].session, 0, []), now);
      hide Discard;
      OnePeerCarries(c, c', peer);
    }
  }

  lemma {:induction false} ExpireAllParkedCarries(c: Course, order: seq<PubKey>, now: Millis)
    requires NodeSound(c.n)
    ensures var c' := ExpireAllParked(c, order, now);
      && Carries(c, c') && c'.n.cfg == c.n.cfg
      && (forall p :: p in c'.n.parked ==> p in c.n.parked)
      && (forall p: PubKey :: ChannelsOf(c'.n, p) == ChannelsOf(c.n, p) || ChannelsOf(c'.n, p) == [])
      && (forall p :: p in c.n.parked && p !in c'.n.parked ==> ChannelsOf(c'.n, p) == [])
    decreases |order|
  {
    if order == [] {
      UnchangedCarries(c, c);
    } else {
      var d := ExpireParked(c, order[0], now);
      ExpireParkedCarries(c, order[0], now);
      hide ExpireParked, NodeSound, Carries, ChannelsOf;
      CarriesIsSound(c, d);
      ExpireAllParkedCarries(d, order[1..], now);
      CarriesThen(c, d, ExpireAllParked(c, order, now));
    }
  }

  lemma SettleParkedCarries(c: Course, peer: PubKey, now: Millis)
    requires NodeSound(c.n)
    ensures Carries(c, SettleParked(c, peer, now))
    ensures var c' := SettleParked(c, peer, now);
      && c'.n.cfg == c.n.cfg && (forall p :: p != peer ==> ChannelsOf(c'.n, p) == ChannelsOf(c.n, p))
      && (forall p :: p in c'.n.parked <==> p in c.n.parked)
      && (peer !in c.n.parked ==> c' == c)
      && (peer in c.n.parked ==> ClearOf(c'.n, peer, now))
  {
    if peer !in c.n.parked {
      UnchangedCarries(c, c);
    } else {
      SettleExpiringIsOrdinary(c.n.cfg, peer, Turn(c.n.parked[peer].session, 0, []), now);
      SettlingRests(c.n.cfg, peer, c.n.parked[peer].session, now);
      hide SettleExpiring;
      OnePeerCarries(c, SettleParked(c, peer, now), peer);
    }
  }

  lemma SettlingRests(cfg: Config, peer: PubKey, s: PeerSession, now: Millis)
    requires Resting(s)
    ensures Resting(SettleExpiring(cfg, peer, Turn(s, 0, []), now).s)
  {
    SettleExpiringIsOrdinary(cfg, peer, Turn(s, 0, []), now);
    hide SettleEach;
  }

  lemma {:induction false} SettleAllParkedCarries(c: Course, order: seq<PubKey>, now: Millis)
    requires NodeSound(c.n) && forall i, j :: 0 <= i < j < |order| ==> order[i] != order[j]
    ensures var c' := SettleAllParked(c, order, now);
      && Carries(c, c') && c'.n.cfg == c.n.cfg
      && (forall p :: p in c'.n.parked <==> p in c.n.parked)
      && (forall p :: p !in order || p !in c.n.parked ==> ChannelsOf(c'.n, p) == ChannelsOf(c.n, p))
      && (forall p :: p in order && p in c.n.parked ==> ClearOf(c'.n, p, now))
    decreases |order|
  {
    if order == [] {
      UnchangedCarries(c, c);
    } else {
      var d := SettleParked(c, order[0], now);
      SettleParkedCarries(c, order[0], now);
      hide SettleParked, NodeSound, Carries, ChannelsOf;
      CarriesIsSound(c, d);
      SettleAllParkedCarries(d, order[1..], now);
      CarriesThen(c, d, SettleAllParked(c, order, now));
      assert order[0] !in order[1..];
      assert forall p :: p in order <==> p == order[0] || p in order[1..];
    }
  }

  lemma {:induction false} KeepAllAliveCarries(c: Course, order: seq<PubKey>, now: Millis)
    requires NodeSound(c.n)
    ensures Carries(c, KeepAllAlive(c, order, now)) && KeepAllAlive(c, order, now).n.cfg == c.n.cfg
    ensures forall p: PubKey :: ChannelsOf(KeepAllAlive(c, order, now).n, p) == ChannelsOf(c.n, p)
    decreases |order|
  {
    if order == [] {
      UnchangedCarries(c, c);
    } else {
      var d := KeepAlive(c, order[0], now);
      UnchangedCarries(c, d);
      assert d.n.cfg == c.n.cfg && forall p: PubKey :: ChannelsOf(d.n, p) == ChannelsOf(c.n, p);
      hide KeepAlive, Carries, ChannelsOf, NodeSound;
      CarriesIsSound(c, d);
      KeepAllAliveCarries(d, order[1..], now);
      CarriesThen(c, d, KeepAllAlive(c, order, now));
    }
  }

  lemma TickCarries(n: Node, order: seq<PubKey>, now: Millis)
    requires NodeSound(n) && Visits(order, n)
    ensures Carries(Course(n, []), Ticked(n, order, now))
  {
    var start := Course(n, []);
    var ticked := TickPeers(start, order, now);
    var expired := ExpireAllParked(ticked, order, now);
    var settled := SettleAllParked(expired, order, now);
    var noted := NoteSent(settled, now);
    var last := KeepAllAlive(noted, order, now);
    hide NodeSound, Carries, TickPeers, ExpireAllParked, SettleAllParked, NoteSent, KeepAllAlive, ChannelsOf;
    TickPeersCarry(start, order, now);
    CarriesIsSound(start, ticked);
    ExpireAllParkedCarries(ticked, order, now);
    CarriesIsSound(ticked, expired);
    SettleAllParkedCarries(expired, order, now);
    CarriesIsSound(expired, settled);
    NoteSentCarries(settled, now);
    CarriesIsSound(settled, noted);
    KeepAllAliveCarries(noted, order, now);
    CarriesThen(start, ticked, expired);
    CarriesThen(start, expired, settled);
    CarriesThen(start, settled, noted);
    CarriesThen(start, noted, last);
  }

  /** After a tick no channel held for anyone, live or parked, is within the lead of its expiry. */
  lemma TickLeavesNoneNearExpiry(n: Node, order: seq<PubKey>, now: Millis, p: PubKey)
    requires NodeSound(n) && Visits(order, n)
    ensures ClearOf(Ticked(n, order, now).n, p, now)
  {
    var start := Course(n, []);
    var ticked := TickPeers(start, order, now);
    var expired := ExpireAllParked(ticked, order, now);
    var settled := SettleAllParked(expired, order, now);
    var noted := NoteSent(settled, now);
    var last := KeepAllAlive(noted, order, now);
    assert p !in order ==> ChannelsOf(n, p) == [];
    hide NodeSound, Carries, TickPeers, ExpireAllParked, SettleAllParked, KeepAllAlive, ChannelsOf;
    TickPeersCarry(start, order, now);
    CarriesIsSound(start, ticked);
    ExpireAllParkedCarries(ticked, order, now);
    CarriesIsSound(ticked, expired);
    SettleAllParkedCarries(expired, order, now);
    CarriesIsSound(expired, settled);
    NoteSentCarries(settled, now);
    CarriesIsSound(settled, noted);
    KeepAllAliveCarries(noted, order, now);
    assert noted.n.cfg == settled.n.cfg;
    ClearThrough(ticked.n, expired.n, settled.n, last.n, order, p, now);
  }

  lemma ClearThrough(ticked: Node, expired: Node, settled: Node, last: Node, order: seq<PubKey>, p: PubKey, now: Millis)
    requires ticked.cfg == expired.cfg == settled.cfg == last.cfg
    requires if p in order then p in ticked.parked || ClearOf(ticked, p, now) else ChannelsOf(ticked, p) == []
    requires ChannelsOf(expired, p) == ChannelsOf(ticked, p) || ChannelsOf(expired, p) == []
    requires p !in order || p !in expired.parked ==> ChannelsOf(settled, p) == ChannelsOf(expired, p)
    requires p in order && p in expired.parked ==> ClearOf(settled, p, now)
    requires p in ticked.parked && p !in expired.parked ==> ChannelsOf(expired, p) == []
    requires ChannelsOf(last, p) == ChannelsOf(settled, p)
    ensures ClearOf(last, p, now)
  {
  }

  // ------------------------------------------------------------------------
  // Winding down
  // ------------------------------------------------------------------------

  lemma WindDownPeerCarries(c: Course, peer: PubKey, now: Millis)
    requires NodeSound(c.n)
    ensures Carries(c, WindDownPeer(c, peer, now))
  {
    if peer !in c.n.peers {
      UnchangedCarries(c, c);
    } else {
      var saved := Save(peer, Close(Enter(c.n, peer)), now);
      DiscardIsOrdinary(peer, saved, now);
      hide Discard;
      InstallCarries(c, peer, Discard(peer, saved).Does(Send(peer, MDisconnect(Other))));
    }
  }

  lemma {:induction false} WindDownPeersCarry(c: Course, order: seq<PubKey>, now: Millis)
    requires NodeSound(c.n)
    ensures Carries(c, WindDownPeers(c, order, now))
    decreases |order|
  {
    if order == [] {
      UnchangedCarries(c, c);
    } else {
      var d := WindDownPeer(c, order[0], now);
      WindDownPeerCarries(c, order[0], now);
      hide WindDownPeer, NodeSound, Carries;
      CarriesIsSound(c, d);
      WindDownPeersCarry(d, order[1..], now);
      CarriesThen(c, d, WindDownPeers(c, order, now));
    }
  }

  lemma {:induction false} WindDownAllParkedCarries(c: Course, order: seq<PubKey>, now: Millis)
    requires NodeSound(c.n)
    ensures Carries(c, WindDownAllParked(c, order, now))
    decreases |order|
  {
    if order == [] {
      UnchangedCarries(c, c);
    } else {
      var p := order[0];
      var d := WindDownParked(c, p, now);
      if p in c.n.parked {
        LetGoAccounts(p, c.n.parked[p].session, now);
        hide LetGo;
        OnePeerCarries(c, d, p);
      } else {
        UnchangedCarries(c, c);
      }
      hide WindDownParked, NodeSound, Carries;
      CarriesIsSound(c, d);
      WindDownAllParkedCarries(d, order[1..], now);
      CarriesThen(c, d, WindDownAllParked(c, order, now));
    }
  }

  lemma DisconnectCarries(n: Node, peer: PubKey, now: Millis)
    requires NodeSound(n)
    ensures Carries(Course(n, []), Disconnect(n, peer, now))
  {
    var start := Course(n, []);
    if peer !in n.peers {
      UnchangedCarries(start, start);
    } else if n.peers[peer].phase.Closing? {
      LetGoAccounts(peer, n.peers[peer], now);
      hide LetGo;
      OnePeerCarries(start, Disconnect(n, peer, now), peer);
    } else {
      ParkPeerCarries(start, peer, now);
    }
  }

  lemma ForgetCarries(n: Node, peer: PubKey, now: Millis)
    requires NodeSound(n)
    ensures Carries(Course(n, []), Forget(n, peer, now))
  {
    if peer in n.peers {
      LetGoAccounts(peer, n.peers[peer], now);
    }
    if peer in n.parked {
      LetGoAccounts(peer, n.parked[peer].session, now);
    }
    hide LetGo;
    OnePeerCarries(Course(n, []), Forget(n, peer, now), peer);
  }

  // ------------------------------------------------------------------------
  // Every event
  // ------------------------------------------------------------------------

  /** Every channel held before an event is held after it, or settled by it with its expiry. */
  ghost predicate NoneDropped(n: Node, c: Course) {
    forall p: PubKey, ch :: ch in ChannelsOf(n, p) ==>
      (exists d :: d in ChannelsOf(c.n, p) && d.id == ch.id) || SettleChannel(p, ch.id, ch.expiresAt) in c.out
  }

  lemma CarryingDropsNone(n: Node, c: Course)
    requires Carries(Course(n, []), c)
    ensures NoneDropped(n, c) && NodeSound(c.n)
  {
    forall p: PubKey, ch | ch in ChannelsOf(n, p)
      ensures (exists d :: d in ChannelsOf(c.n, p) && d.id == ch.id) || SettleChannel(p, ch.id, ch.expiresAt) in c.out
    {
      assert Held(ChannelsOf(c.n, p), ch) || Settled(c.out, p, ch);
    }
  }

  lemma {:induction false} OpenHoldsId(g: Grant, id: ChannelId, capacity: u64, expiresAt: Option<Millis>, c: IncomingChannel)
    requires Distinct(g.channels) && c in g.channels
    ensures exists d :: d in g.OpenChannel(id, capacity, expiresAt).channels && d.id == c.id
    ensures c.id != id ==> c in g.OpenChannel(id, capacity, expiresAt).channels
  {
    var found := Find(g.channels, id);
    var after := g.OpenChannel(id, capacity, expiresAt).channels;
    if found.Some? {
      PutReads(g.channels, found.value.(capacity := capacity, expiresAt := expiresAt), c.id);
      FindMember(g.channels, c);
    } else {
      assert c in after;
    }
  }

  /** Events about one peer, live or not, that are not its coming or going. */
  ghost predicate AboutOne(e: Event) {
    !e.PeerConnected? && !e.PeerDisconnected? && !e.Tick? && !e.BuyerPolicySet? && !e.Forgotten? && !e.ShutDown?
  }

  lemma SessionDropsNone(n: Node, t: Turn, e: Event, elsewhere: u64, ch: IncomingChannel, now: Millis)
    requires AboutOne(e) && Sound(t.s) && ch in t.s.grant.channels
    ensures var after := OnSession(n, t, e, elsewhere, now);
      (exists d :: d in after.s.grant.channels && d.id == ch.id) || SettleChannel(e.peer, ch.id, ch.expiresAt) in after.out
  {
    var after := OnSession(n, t, e, elsewhere, now);
    if Verifies(n, e) {
      VerifiedIsOrdinary(n, t, e, now);
      OpenHoldsId(t.s.grant, e.channelId, e.capacity, e.expiresAt, ch);
      hide OnIncomingVerified, Grant.OpenChannel;
    } else {
      EventKeepsSound(n, t, e, elsewhere, now);
      assert Basis(n, t, e, now).s.grant.channels == t.s.grant.channels;
      hide OnSession, Basis;
      assert Held(after.s.grant.channels, ch) || Settled(after.out, e.peer, ch);
    }
  }

  lemma OnPeerDropsNone(n: Node, e: Event, now: Millis)
    requires NodeSound(n) && AboutOne(e)
    ensures NoneDropped(n, OnPeer(n, e.peer, e, now)) && NodeSound(OnPeer(n, e.peer, e, now).n)
  {
    var c := OnPeer(n, e.peer, e, now);
    if e.peer in n.peers {
      var t, elsewhere := Enter(n, e.peer), ReservedElsewhere(n, e.peer);
      EventKeepsSound(n, t, e, elsewhere, now);
      var after := OnSession(n, t, e, elsewhere, now);
      assert c == Install(Course(n, []), e.peer, after);
      hide OnSession, Basis, OnPeer, ReservedElsewhere, Accounted, Distinct, Grant.Valid;
      forall ch | ch in t.s.grant.channels
        ensures (exists d :: d in after.s.grant.channels && d.id == ch.id) || SettleChannel(e.peer, ch.id, ch.expiresAt) in after.out
      {
        SessionDropsNone(n, t, e, elsewhere, ch, now);
      }
    }
  }

  lemma NotingDropsNone(n: Node, c: Course, now: Millis)
    requires NoneDropped(n, c) && NodeSound(c.n)
    ensures NoneDropped(n, NoteSent(c, now)) && NodeSound(NoteSent(c, now).n)
  {
    NoteSentCarries(c, now);
  }

  /** Coming, going, and time: every channel is carried through, and nothing is signed. */
  lemma StepCarries(n: Node, e: Event, now: Millis)
    requires NodeSound(n) && Possible(n, e) && !AboutOne(e)
    ensures Carries(Course(n, []), Step(n, e, now))
  {
    var start := Course(n, []);
    hide NodeSound, Carries, NoteSent, Connect, Disconnect, Forget, Ticked, WindDownPeers, WindDownAllParked, ChannelsOf;
    match e
    case PeerConnected(peer, budget) =>
      ConnectCarries(n, peer, budget, now);
      NotingCarries(start, Connect(n, peer, budget, now), now);
    case PeerDisconnected(peer) =>
      DisconnectCarries(n, peer, now);
      NotingCarries(start, Disconnect(n, peer, now), now);
    case Tick(order) => TickCarries(n, order, now);
    case Forgotten(peer) => ForgetCarries(n, peer, now);
    case ShutDown(order) =>
      var c := WindDownPeers(start, order, now);
      WindDownPeersCarry(start, order, now);
      CarriesIsSound(start, c);
      WindDownAllParkedCarries(c, order, now);
      CarriesThen(start, c, WindDownAllParked(c, order, now));
    case BuyerPolicySet(buying) => SettingCarries(n, buying);
  }

  lemma NotingCarries(start: Course, c: Course, now: Millis)
    requires Carries(start, c)
    ensures Carries(start, NoteSent(c, now))
  {
    hide Carries, NoteSent, NodeSound;
    CarriesIsSound(start, c);
    NoteSentCarries(c, now);
    CarriesThen(start, c, NoteSent(c, now));
  }

  lemma SettingCarries(n: Node, buying: BuyerPolicy)
    requires NodeSound(n)
    ensures Carries(Course(n, []), Course(n.(cfg := n.cfg.(buying := buying)), []))
  {
    UnchangedCarries(Course(n, []), Course(n.(cfg := n.cfg.(buying := buying)), []));
  }

  /**
    No earnings are dropped, whatever happens: a peer connects, leaves, is forgotten, comes back,
    pays, fails to, or the node ticks or winds down. And no peer is ever both live and parked.
   */
  lemma NoEarningsDropped(n: Node, e: Event, now: Millis)
    requires NodeSound(n) && Possible(n, e)
    ensures NoneDropped(n, Step(n, e, now)) && NodeSound(Step(n, e, now).n)
  {
    hide NoneDropped, NodeSound, Carries, NoteSent, OnPeer;
    if !AboutOne(e) {
      hide Step;
      StepCarries(n, e, now);
      CarryingDropsNone(n, Step(n, e, now));
    } else if e.PeerPolicySet? {
      var overridden := n.(overrides := n.overrides[e.peer := e.policy]);
      SameChannelsDropNone(n, Course(overridden, []));
      OnPeerDropsNone(overridden, e, now);
      DropsNoneAs(n, overridden, OnPeer(overridden, e.peer, e, now));
      NotingDropsNone(n, OnPeer(overridden, e.peer, e, now), now);
    } else {
      OnPeerDropsNone(n, e, now);
      NotingDropsNone(n, OnPeer(n, e.peer, e, now), now);
    }
  }

  lemma SameChannelsDropNone(n: Node, c: Course)
    requires NodeSound(n) && c.n.peers == n.peers && c.n.parked == n.parked
    ensures NoneDropped(n, c) && NodeSound(c.n)
  {
  }

  lemma DropsNoneAs(n: Node, m: Node, c: Course)
    requires m.peers == n.peers && m.parked == n.parked && NoneDropped(m, c)
    ensures NoneDropped(n, c)
  {
    assert forall p: PubKey :: ChannelsOf(n, p) == ChannelsOf(m, p);
  }

  /** When a purchase fills a channel, the state that filled it is recorded before it is settled. */
  lemma PurchaseIsRecordedFirst(n: Node, e: Event, now: Millis)
    requires NodeSound(n) && e.MessageReceived? && e.peer in n.peers
    requires Buys(n, Enter(n, e.peer), e, ReservedElsewhere(n, e.peer), now)
    ensures Step(n, e, now).out != [] && Step(n, e, now).out[0] == RecordUpdates(e.peer, e.msg.topup.updates)
  {
    var t, elsewhere := Enter(n, e.peer), ReservedElsewhere(n, e.peer);
    EventMoves(n, t, e, elsewhere, now);
    var after := OnSession(n, t, e, elsewhere, now);
    assert Honored(e.peer, Basis(n, t, e, now), after, e.msg.topup, now) && Basis(n, t, e, now).out == [];
    hide OnSession, Basis, Buys, ReservedElsewhere;
    assert [] + after.out == after.out;
  }
}
