/**
  What a tick leaves behind, and what winding down does: no live peer that has been silent too long,
  no live link of ours that has been quiet for the keepalive interval, and in the end nothing held.
 */
module NodeTicks {
  import opened Numbers
  import opened Wire
  import opened Grants
  import opened Buyers
  import opened Sessions
  import opened SessionFrames
  import opened Nodes
  import opened NodeFrames
  import opened NodeEarnings

  // ------------------------------------------------------------------------
  // A turn of a tick, as the clock sees it
  // ------------------------------------------------------------------------

  /** A turn that neither hears from the peer nor says when it was last sent to. */
  ghost predicate SameClock(t: Turn, t': Turn) {
    t'.s.lastSeen == t.s.lastSeen && t'.s.lastSent == t.s.lastSent && t'.s.offerSent == t.s.offerSent && t'.s.phase == t.s.phase
  }

  lemma PollsKeepClock(cfg: Config, peer: PubKey, t: Turn, now: Millis)
    ensures SameClock(t, PollBuyer(cfg, peer, t, now)) && SameClock(t, PollRollover(cfg, peer, t, now))
    ensures SameClock(t, PollOpening(cfg, peer, t, now)) && SameClock(t, Refresh(cfg, peer, t, now))
  {
    hide Poll, Buyer.Record, Buyer.RetireExpiring, DemandOf, Buyer.RolloverDue, NodePolicy.GrownCapacity, RateOf, AccessOf, BalanceOf;
  }

  lemma TickKeepsClock(cfg: Config, peer: PubKey, t: Turn, now: Millis)
    ensures SameClock(t, OnTick(cfg, peer, t, now))
  {
    hide PollBuyer, PollRollover, PollOpening, Refresh, SettleEach;
    var settled := SettleExpiring(cfg, peer, t.(s := t.s.(grant := t.s.grant.ExpireIfDue(now))), now);
    var shown := Refresh(cfg, peer, settled, now);
    var bought := PollBuyer(cfg, peer, shown, now);
    PollsKeepClock(cfg, peer, settled, now);
    PollsKeepClock(cfg, peer, shown, now);
    PollsKeepClock(cfg, peer, bought, now);
    PollsKeepClock(cfg, peer, PollRollover(cfg, peer, bought, now), now);
  }

  // ------------------------------------------------------------------------
  // Silence
  // ------------------------------------------------------------------------

  /** Everyone live at `c'` was live at `c`, heard from when they were; those in `order` are not silent. */
  ghost predicate Heard(c: Course, c': Course, order: seq<PubKey>, now: Millis) {
    && c'.n.cfg == c.n.cfg
    && (forall p :: p in c'.n.peers ==> p in c.n.peers && c'.n.peers[p].lastSeen == c.n.peers[p].lastSeen)
    && (forall p :: p in order && p in c'.n.peers ==> !Stale(c'.n.cfg, c'.n.peers[p], now))
  }

  lemma TickingOneHears(c: Course, peer: PubKey, now: Millis)
    ensures Heard(c, TickPeer(c, peer, now), [peer], now)
  {
    hide Park, Discard, OnTick;
    if peer in c.n.peers {
      TickKeepsClock(c.n.cfg, peer, Enter(c.n, peer), now);
    }
  }

  lemma {:induction false} TickingHears(c: Course, order: seq<PubKey>, now: Millis)
    ensures Heard(c, TickPeers(c, order, now), order, now)
    decreases |order|
  {
    hide TickPeer;
    if order != [] {
      TickingOneHears(c, order[0], now);
      TickingHears(TickPeer(c, order[0], now), order[1..], now);
      assert forall p :: p in order <==> p == order[0] || p in order[1..];
      assert order[0] in [order[0]];
    }
  }

  lemma OneMoreHears(c: Course, peer: PubKey, now: Millis)
    ensures Heard(c, ExpireParked(c, peer, now), [], now) && Heard(c, SettleParked(c, peer, now), [], now)
    ensures Heard(c, KeepAlive(c, peer, now), [], now)
  {
    hide Discard, SettleExpiring;
  }

  lemma {:induction false} RestHears(c: Course, order: seq<PubKey>, now: Millis)
    ensures Heard(c, ExpireAllParked(c, order, now), [], now) && Heard(c, SettleAllParked(c, order, now), [], now)
    ensures Heard(c, KeepAllAlive(c, order, now), [], now)
    decreases |order|
  {
    if order == [] {
      assert Heard(c, c, [], now);
    } else {
      hide ExpireParked, SettleParked, KeepAlive, Heard;
      var p := order[0];
      OneMoreHears(c, p, now);
      RestHears(ExpireParked(c, p, now), order[1..], now);
      RestHears(SettleParked(c, p, now), order[1..], now);
      RestHears(KeepAlive(c, p, now), order[1..], now);
      HeardThen(c, ExpireParked(c, p, now), ExpireAllParked(c, order, now), [], now);
      HeardThen(c, SettleParked(c, p, now), SettleAllParked(c, order, now), [], now);
      HeardThen(c, KeepAlive(c, p, now), KeepAllAlive(c, order, now), [], now);
    }
  }

  lemma HeardThen(c: Course, d: Course, e: Course, order: seq<PubKey>, now: Millis)
    requires Heard(c, d, order, now) && Heard(d, e, [], now)
    ensures Heard(c, e, order, now)
  {
  }

  /** After a tick no live session is one whose peer has said nothing for longer than the timeout. */
  lemma TickLeavesNoneSilent(n: Node, order: seq<PubKey>, now: Millis, p: PubKey)
    requires Visits(order, n) && p in Ticked(n, order, now).n.peers
    ensures !Stale(n.cfg, Ticked(n, order, now).n.peers[p], now)
    ensures n.cfg.node.staleTimeoutMs == 0 || SatSub(now, Ticked(n, order, now).n.peers[p].lastSeen) <= n.cfg.node.staleTimeoutMs
  {
    var start := Course(n, []);
    var ticked := TickPeers(start, order, now);
    var expired := ExpireAllParked(ticked, order, now);
    var settled := SettleAllParked(expired, order, now);
    var noted := NoteSent(settled, now);
    assert Heard(settled, noted, [], now);
    hide TickPeers, ExpireAllParked, SettleAllParked, NoteSent, KeepAllAlive;
    TickingHears(start, order, now);
    RestHears(ticked, order, now);
    RestHears(expired, order, now);
    RestHears(noted, order, now);
    HeardThen(start, ticked, expired, order, now);
    HeardThen(start, expired, settled, order, now);
    HeardThen(start, settled, noted, order, now);
    HeardThen(start, noted, KeepAllAlive(noted, order, now), order, now);
  }

  // ------------------------------------------------------------------------
  // Keeping links alive
  // ------------------------------------------------------------------------

  /** A live link sent something within the interval; an ending one aside. */
  predicate Fresh(cfg: Config, s: PeerSession, now: Millis) {
    s.phase.Closing? || SatSub(now, s.lastSent) < cfg.node.KeepaliveIntervalMs()
  }

  /** Every live session has been sent an Offer, which a keepalive repeats. */
  ghost predicate Offered(n: Node) {
    forall p :: p in n.peers ==> n.peers[p].offerSent.Some?
  }

  ghost predicate Kept(c: Course, c': Course, order: seq<PubKey>, now: Millis) {
    && c'.n.cfg == c.n.cfg && c'.n.peers.Keys == c.n.peers.Keys
    && (forall p :: p in c.n.peers && (p in order || Fresh(c.n.cfg, c.n.peers[p], now)) ==> Fresh(c'.n.cfg, c'.n.peers[p], now))
    && (forall p :: p in c.n.peers && p !in order ==> c'.n.peers[p] == c.n.peers[p])
  }

  lemma {:induction false} KeepingAliveKeeps(c: Course, order: seq<PubKey>, now: Millis)
    requires Offered(c.n)
    ensures Kept(c, KeepAllAlive(c, order, now), order, now)
    decreases |order|
  {
    if order != [] {
      var d := KeepAlive(c, order[0], now);
      assert Kept(c, d, [order[0]], now) && Offered(d.n);
      hide KeepAlive, Fresh;
      KeepingAliveKeeps(d, order[1..], now);
      assert forall p :: p in order <==> p == order[0] || p in order[1..];
    }
  }

  lemma {:induction false} TickingAddsNone(c: Course, order: seq<PubKey>, now: Millis)
    ensures TickPeers(c, order, now).n.peers.Keys <= c.n.peers.Keys
    ensures Offered(c.n) ==> Offered(TickPeers(c, order, now).n)
    decreases |order|
  {
    hide OnTick, Park, Discard;
    if order != [] {
      if order[0] in c.n.peers {
        TickKeepsClock(c.n.cfg, order[0], Enter(c.n, order[0]), now);
      }
      TickingAddsNone(TickPeer(c, order[0], now), order[1..], now);
    }
  }

  lemma {:induction false} ParkedLoopsAside(c: Course, order: seq<PubKey>, now: Millis)
    ensures ExpireAllParked(c, order, now).n.peers == c.n.peers && ExpireAllParked(c, order, now).n.cfg == c.n.cfg
    ensures SettleAllParked(c, order, now).n.peers == c.n.peers && SettleAllParked(c, order, now).n.cfg == c.n.cfg
    decreases |order|
  {
    hide Discard, SettleExpiring;
    if order != [] {
      ParkedLoopsAside(ExpireParked(c, order[0], now), order[1..], now);
      ParkedLoopsAside(SettleParked(c, order[0], now), order[1..], now);
    }
  }

  /** After a tick every live link has carried something of ours within the keepalive interval. */
  lemma TickLeavesNoneQuiet(n: Node, order: seq<PubKey>, now: Millis, p: PubKey)
    requires Offered(n) && Visits(order, n) && p in Ticked(n, order, now).n.peers
    ensures Fresh(n.cfg, Ticked(n, order, now).n.peers[p], now)
  {
    var start := Course(n, []);
    var ticked := TickPeers(start, order, now);
    var expired := ExpireAllParked(ticked, order, now);
    var settled := SettleAllParked(expired, order, now);
    var noted := NoteSent(settled, now);
    assert noted.n.peers.Keys == settled.n.peers.Keys && noted.n.cfg == settled.n.cfg && (Offered(settled.n) ==> Offered(noted.n));
    hide TickPeers, ExpireAllParked, SettleAllParked, NoteSent, KeepAllAlive, Fresh;
    TickingAddsNone(start, order, now);
    TickingKeepsSettings(start, order, now);
    ParkedLoopsAside(ticked, order, now);
    ParkedLoopsAside(expired, order, now);
    KeepingAliveKeeps(noted, order, now);
    assert p in n.peers;
  }

  // ------------------------------------------------------------------------
  // Winding down
  // ------------------------------------------------------------------------

  /** One session over: nothing held on it, its peer told, and its budget saved if it was charged. */
  ghost predicate Over(n: Node, c: Course, p: PubKey, now: Millis)
    requires p in n.peers && p in c.n.peers
  {
    && c.n.peers[p].phase.Closing? && c.n.peers[p].grant.channels == []
    && Send(p, MDisconnect(Other)) in c.out
    && (!n.peers[p].policy.noCharge ==> SaveBudget(p, n.peers[p].grant.BudgetAt(now)) in c.out)
  }

  lemma WindingDownOneEnds(c: Course, peer: PubKey, now: Millis)
    requires NodeSound(c.n)
    ensures var c' := WindDownPeer(c, peer, now);
      && c'.n.peers.Keys == c.n.peers.Keys && c'.n.parked == c.n.parked && (forall a :: a in c.out ==> a in c'.out)
      && (forall p :: p in c.n.peers && p != peer ==> c'.n.peers[p] == c.n.peers[p])
      && (peer in c.n.peers ==> Over(c.n, c', peer, now))
  {
    if peer in c.n.peers {
      var saved := Save(peer, Close(Enter(c.n, peer)), now);
      assert Sound(c.n.peers[peer]);
      DiscardIsOrdinary(peer, saved, now);
      DiscardKeepsPhase(peer, saved);
      hide Discard, Grant.BudgetAt;
    }
  }

  lemma DiscardKeepsPhase(peer: PubKey, t: Turn)
    ensures Discard(peer, t).s.phase == t.s.phase
  {
    hide SettleEach;
  }

  lemma {:induction false} WindingDownEndsAll(n: Node, c: Course, order: seq<PubKey>, now: Millis)
    requires NodeSound(c.n) && c.n.peers.Keys == n.peers.Keys
    requires forall i, j :: 0 <= i < j < |order| ==> order[i] != order[j]
    requires forall p :: p in n.peers && p in order ==> c.n.peers[p] == n.peers[p]
    requires forall p :: p in n.peers && p !in order ==> Over(n, c, p, now)
    ensures var c' := WindDownPeers(c, order, now);
      && c'.n.peers.Keys == n.peers.Keys && c'.n.parked == c.n.parked
      && forall p :: p in n.peers ==> Over(n, c', p, now)
    decreases |order|
  {
    if order != [] {
      var q := order[0];
      var d := WindDownPeer(c, q, now);
      WindingDownOneEnds(c, q, now);
      WindDownPeerCarries(c, q, now);
      CarriesIsSound(c, d);
      hide WindDownPeer, NodeSound, Carries;
      assert q !in order[1..];
      assert forall p :: p in order <==> p == q || p in order[1..];
      forall p | p in n.peers && p !in order[1..] ensures Over(n, d, p, now) {
        if p == q {
          assert c.n.peers[p] == n.peers[p];
        } else {
          assert Over(n, c, p, now);
        }
      }
      WindingDownEndsAll(n, d, order[1..], now);
    }
  }

  lemma {:induction false} ParkedAreLetGo(c: Course, order: seq<PubKey>, now: Millis)
    ensures var c' := WindDownAllParked(c, order, now);
      && c'.n.peers == c.n.peers && (forall a :: a in c.out ==> a in c'.out)
      && (forall p :: p in c'.n.parked ==> p in c.n.parked && p !in order)
    decreases |order|
  {
    hide LetGo;
    if order != [] {
      ParkedAreLetGo(WindDownParked(c, order[0], now), order[1..], now);
      assert forall p :: p in order <==> p == order[0] || p in order[1..];
    }
  }

  /** Wound down, a node holds no parked session, no channel, and no session but ones that are over. */
  lemma NothingIsLeft(n: Node, order: seq<PubKey>, now: Millis)
    requires NodeSound(n) && Visits(order, n)
    ensures var c := Step(n, ShutDown(order), now);
      && c.n.parked == map[] && c.n.peers.Keys == n.peers.Keys
      && forall p :: p in n.peers ==> Over(n, c, p, now)
  {
    var start := Course(n, []);
    var closed := WindDownPeers(start, order, now);
    hide WindDownPeers, WindDownAllParked, NodeSound;
    WindingDownEndsAll(n, start, order, now);
    ParkedAreLetGo(closed, order, now);
    var c := WindDownAllParked(closed, order, now);
    forall p | p in n.peers ensures Over(n, c, p, now) {
      assert Over(n, closed, p, now);
    }
    assert c.n.parked.Keys == {};
  }
}
