/**
  Verification work is bounded. Checking a signature costs the provider and not the payer, so the
  host asks whether a TopUp comes too soon before it checks any; and then, valid or not, the instants
  at which one session's TopUps are checked are at least the gap apart.
 */
module NodeChecks {
  import opened Numbers
  import opened Wrappers
  import opened Wire
  import opened Grants
  import opened GrantChannels
  import opened Sessions
  import opened SessionFrames
  import opened Nodes
  import opened NodeFrames
  import opened NodeEarnings

  // ------------------------------------------------------------------------
  // When a session's signatures were last checked
  // ------------------------------------------------------------------------

  /** A session held live afterwards was held before, its signatures last checked when they were. */
  ghost predicate SameCheck(c: Course, c': Course, p: PubKey) {
    p in c'.n.peers ==> p in c.n.peers && c'.n.peers[p].grant.lastTopup == c.n.peers[p].grant.lastTopup
  }

  lemma SameCheckThen(c: Course, d: Course, e: Course, p: PubKey)
    requires SameCheck(c, d, p) && SameCheck(d, e, p)
    ensures SameCheck(c, e, p)
  {
  }

  lemma {:induction false} TickingChecksNothing(c: Course, order: seq<PubKey>, p: PubKey, now: Millis)
    requires NodeSound(c.n)
    ensures SameCheck(c, TickPeers(c, order, now), p)
    decreases |order|
  {
    if order != [] {
      var q := order[0];
      var d := TickPeer(c, q, now);
      if q in c.n.peers {
        OnTickIsOrdinary(c.n.cfg, q, Enter(c.n, q), now);
      }
      TickPeerCarries(c, q, now);
      CarriesIsSound(c, d);
      assert SameCheck(c, d, p) by { hide OnTick, Park, Discard; }
      hide TickPeer, NodeSound, SameCheck;
      TickingChecksNothing(d, order[1..], p, now);
      SameCheckThen(c, d, TickPeers(c, order, now), p);
    }
  }

  lemma {:induction false} LoopsCheckNothing(c: Course, order: seq<PubKey>, p: PubKey, now: Millis)
    ensures SameCheck(c, ExpireAllParked(c, order, now), p) && SameCheck(c, SettleAllParked(c, order, now), p)
    ensures SameCheck(c, KeepAllAlive(c, order, now), p)
    ensures SameCheck(c, WindDownAllParked(c, order, now), p) && SameCheck(c, WindDownPeers(c, order, now), p)
    decreases |order|
  {
    if order != [] {
      hide Discard, SettleExpiring, LetGo;
      var q := order[0];
      LoopsCheckNothing(ExpireParked(c, q, now), order[1..], p, now);
      LoopsCheckNothing(SettleParked(c, q, now), order[1..], p, now);
      LoopsCheckNothing(KeepAlive(c, q, now), order[1..], p, now);
      LoopsCheckNothing(WindDownParked(c, q, now), order[1..], p, now);
      LoopsCheckNothing(WindDownPeer(c, q, now), order[1..], p, now);
      assert SameCheck(c, WindDownPeer(c, q, now), p) by { WindingDownChecksNothing(c, q, p, now); }
    }
  }

  lemma WindingDownChecksNothing(c: Course, q: PubKey, p: PubKey, now: Millis)
    ensures SameCheck(c, WindDownPeer(c, q, now), p)
  {
    hide SettleEach;
  }

  lemma TickChecksNothing(n: Node, order: seq<PubKey>, p: PubKey, now: Millis)
    requires NodeSound(n)
    ensures SameCheck(Course(n, []), Ticked(n, order, now), p)
  {
    var ticked := TickPeers(Course(n, []), order, now);
    var expired := ExpireAllParked(ticked, order, now);
    var settled := SettleAllParked(expired, order, now);
    var noted := NoteSent(settled, now);
    assert SameCheck(settled, noted, p);
    hide TickPeers, ExpireAllParked, SettleAllParked, NoteSent, KeepAllAlive;
    TickingChecksNothing(Course(n, []), order, p, now);
    LoopsCheckNothing(ticked, order, p, now);
    LoopsCheckNothing(expired, order, p, now);
    LoopsCheckNothing(noted, order, p, now);
  }

  /** A TopUp from `p` whose signatures the host checks before core hears of it, found good or bad. */
  predicate Delivers(e: Event, p: PubKey) {
    (e.MessageReceived? && e.peer == p && e.msg.MTopUp?) || (e.TopUpSignatureInvalid? && e.peer == p)
  }

  lemma EventChecks(n: Node, e: Event, p: PubKey, now: Millis)
    requires NodeSound(n) && AboutOne(e) && p in n.peers
    ensures var after := OnPeer(n, e.peer, e, now).n;
      p in after.peers && after.peers[p].grant.lastTopup ==
        if e.peer == p && ChecksSignatures(n, n.peers[p], e, now) then Some(now) else n.peers[p].grant.lastTopup
  {
    hide OnSession, ReservedElsewhere, Buys, Basis, ChecksSignatures, Accounted, Adds, Distinct;
    if e.peer in n.peers {
      var t, elsewhere := Enter(n, e.peer), ReservedElsewhere(n, e.peer);
      assert Sound(t.s);
      EventMoves(n, t, e, elsewhere, now);
      BasisChecks(n, t, e, now);
      hide NodeSound;
    }
  }

  lemma BasisChecks(n: Node, t: Turn, e: Event, now: Millis)
    ensures Basis(n, t, e, now).s.grant.lastTopup == if ChecksSignatures(n, t.s, e, now) then Some(now) else t.s.grant.lastTopup
  {
    hide Find, ChecksSignatures;
  }

  /** Of all events but a connection, only a TopUp checked moves the time of the last one. */
  lemma OnlyDeliveryChecks(n: Node, e: Event, p: PubKey, now: Millis)
    requires NodeSound(n) && p in n.peers && !(e.PeerConnected? && e.peer == p) && p in Step(n, e, now).n.peers
    ensures Step(n, e, now).n.peers[p].grant.lastTopup ==
      if Delivers(e, p) && !(e.MessageReceived? && n.peers[p].grant.TooSoon(now, n.cfg.node.grants.minTopupGapMs))
      then Some(now) else n.peers[p].grant.lastTopup
  {
    hide OnPeer, Connect, Disconnect, Forget, Ticked, WindDownPeers, WindDownAllParked, NoteSent, NodeSound, Grant.TooSoon;
    match e
    case Tick(order) => TickChecksNothing(n, order, p, now);
    case ShutDown(order) =>
      LoopsCheckNothing(Course(n, []), order, p, now);
      LoopsCheckNothing(WindDownPeers(Course(n, []), order, now), order, p, now);
    case PeerPolicySet(peer, policy) =>
      var m := n.(overrides := n.overrides[peer := policy]);
      assert NodeSound(m) by { OverriddenIsSound(n, m); }
      EventChecks(m, e, p, now);
      NotingChecksNothing(OnPeer(m, peer, e, now), p, now);
    case PeerConnected(peer, budget) =>
      ComingAndGoingChecksNothing(n, peer, budget, p, now);
      NotingChecksNothing(Connect(n, peer, budget, now), p, now);
    case PeerDisconnected(peer) =>
      ComingAndGoingChecksNothing(n, peer, None, p, now);
      NotingChecksNothing(Disconnect(n, peer, now), p, now);
    case Forgotten(peer) =>
      ComingAndGoingChecksNothing(n, peer, None, p, now);
    case BuyerPolicySet(_) =>
    case _ =>
      EventChecks(n, e, p, now);
      NotingChecksNothing(OnPeer(n, e.peer, e, now), p, now);
  }

  lemma OverriddenIsSound(n: Node, m: Node)
    requires NodeSound(n) && m == n.(overrides := m.overrides)
    ensures NodeSound(m)
  {
  }

  lemma NotingChecksNothing(c: Course, p: PubKey, now: Millis)
    ensures SameCheck(c, NoteSent(c, now), p)
  {
  }

  lemma ComingAndGoingChecksNothing(n: Node, peer: PubKey, budget: Option<Budget>, p: PubKey, now: Millis)
    ensures p != peer ==> SameCheck(Course(n, []), Connect(n, peer, budget, now), p)
    ensures SameCheck(Course(n, []), Disconnect(n, peer, now), p) && SameCheck(Course(n, []), Forget(n, peer, now), p)
  {
    hide LetGo, Begin, Greet, Kept, Park, Discard;
  }

  // ------------------------------------------------------------------------
  // A host that asks first
  // ------------------------------------------------------------------------

  /** An event, when the host took it up, and when core handled it. */
  datatype Heard = Heard(event: Event, asked: Millis, handled: Millis)

  /** What is heard over one session of `p`: a TopUp is passed on only if it was not too soon when asked. */
  ghost predicate OneSession(n: Node, hs: seq<Heard>, p: PubKey, from: Millis)
    decreases |hs|
  {
    hs == [] ||
    (&& Possible(n, hs[0].event) && from <= hs[0].asked <= hs[0].handled
     && p in n.peers && !(hs[0].event.PeerConnected? && hs[0].event.peer == p)
     && (Delivers(hs[0].event, p) ==> !n.peers[p].grant.TooSoon(hs[0].asked, n.cfg.node.grants.minTopupGapMs))
     && OneSession(Step(n, hs[0].event, hs[0].handled).n, hs[1..], p, hs[0].handled))
  }

  /** The instants at which signatures of `p` were checked. */
  function Instants(hs: seq<Heard>, p: PubKey): seq<Millis>
    decreases |hs|
  {
    if hs == [] then []
    else (if Delivers(hs[0].event, p) then [hs[0].asked] else []) + Instants(hs[1..], p)
  }

  ghost predicate Spaced(xs: seq<Millis>, gap: nat) {
    forall i, j :: 0 <= i < j < |xs| ==> xs[i] + gap <= xs[j]
  }

  /** The earliest the next check can be. */
  ghost function Earliest(n: Node, p: PubKey, from: Millis): nat
    requires p in n.peers
  {
    var last := n.peers[p].grant.lastTopup;
    if last.Some? && n.cfg.node.grants.minTopupGapMs > 0 then Max(from, last.value + n.cfg.node.grants.minTopupGapMs) else from
  }

  /** Core finds no TopUp too soon that the host did not. */
  lemma CoreAgreesWithHost(g: Grant, asked: Millis, handled: Millis, gapMs: u64)
    requires asked <= handled && !g.TooSoon(asked, gapMs)
    ensures !g.TooSoon(handled, gapMs)
  {
  }

  /** Within a session signatures are checked at instants at least the gap apart, valid or not. */
  lemma {:induction false} ChecksAreSpaced(n: Node, hs: seq<Heard>, p: PubKey, from: Millis)
    requires NodeSound(n) && OneSession(n, hs, p, from)
    ensures Spaced(Instants(hs, p), n.cfg.node.grants.minTopupGapMs)
    ensures p in n.peers ==> forall x :: x in Instants(hs, p) ==> Earliest(n, p, from) <= x
    decreases |hs|
  {
    if hs != [] {
      var h := hs[0];
      var n' := Step(n, h.event, h.handled).n;
      var gap := n.cfg.node.grants.minTopupGapMs;
      NoEarningsDropped(n, h.event, h.handled);
      StepKeepsSettings(n, h.event, h.handled);
      if p in n'.peers {
        EarliestMoves(n, h, p, from);
      }
      if Delivers(h.event, p) {
        NotTooSoonIsLate(n, p, from, h.asked);
      }
      assert p !in n'.peers ==> Instants(hs[1..], p) == [];
      hide Step, NodeSound, NoneDropped, Earliest, Grant.TooSoon, Spaced, Delivers;
      ChecksAreSpaced(n', hs[1..], p, h.handled);
      hide OneSession;
      SpacedOnto(h.asked, Instants(hs[1..], p), gap);
    }
  }

  lemma SpacedOnto(x: Millis, rest: seq<Millis>, gap: nat)
    requires Spaced(rest, gap)
    ensures (forall y :: y in rest ==> x + gap <= y) ==> Spaced([x] + rest, gap)
    ensures [] + rest == rest
  {
    if forall y :: y in rest ==> x + gap <= y {
      forall k | 0 <= k < |rest| ensures x + gap <= rest[k] {
        assert rest[k] in rest;
      }
      SpacedCons(x, rest, gap);
    }
  }

  lemma SpacedCons(x: Millis, rest: seq<Millis>, gap: nat)
    requires Spaced(rest, gap) && forall k :: 0 <= k < |rest| ==> x + gap <= rest[k]
    ensures Spaced([x] + rest, gap)
  {
  }

  lemma NotTooSoonIsLate(n: Node, p: PubKey, from: Millis, asked: Millis)
    requires p in n.peers && from <= asked && !n.peers[p].grant.TooSoon(asked, n.cfg.node.grants.minTopupGapMs)
    ensures Earliest(n, p, from) <= asked
  {
  }

  /** What one event does to how early the next check can be. */
  lemma EarliestMoves(n: Node, h: Heard, p: PubKey, from: Millis)
    requires NodeSound(n) && OneSession(n, [h], p, from) && p in Step(n, h.event, h.handled).n.peers
    requires Step(n, h.event, h.handled).n.cfg.node == n.cfg.node
    ensures var next := Earliest(Step(n, h.event, h.handled).n, p, h.handled);
      && Earliest(n, p, from) <= next
      && (Delivers(h.event, p) ==> h.asked + n.cfg.node.grants.minTopupGapMs <= next)
  {
    OnlyDeliveryChecks(n, h.event, p, h.handled);
    hide Step, NodeSound;
    if Delivers(h.event, p) {
      CoreAgreesWithHost(n.peers[p].grant, h.asked, h.handled, n.cfg.node.grants.minTopupGapMs);
    }
  }

  /** So a session checked over `span` milliseconds is checked at most once, and once more for each gap in it. */
  lemma ChecksAreBounded(n: Node, hs: seq<Heard>, p: PubKey, from: Millis, span: nat)
    requires NodeSound(n) && OneSession(n, hs, p, from) && n.cfg.node.grants.minTopupGapMs > 0
    requires forall x :: x in Instants(hs, p) ==> from <= x <= from + span
    ensures |Instants(hs, p)| <= 1 + span / n.cfg.node.grants.minTopupGapMs
  {
    ChecksAreSpaced(n, hs, p, from);
    SpacedFit(Instants(hs, p), n.cfg.node.grants.minTopupGapMs, from, span);
  }

  lemma SpacedFit(xs: seq<Millis>, gap: nat, from: nat, span: nat)
    requires Spaced(xs, gap) && gap > 0 && forall x :: x in xs ==> from <= x <= from + span
    ensures |xs| <= 1 + span / gap
  {
    if xs != [] {
      SpacedSpan(xs, gap);
      assert xs[0] in xs && xs[|xs| - 1] in xs;
      assert (|xs| - 1) * gap <= span;
      CountFits(|xs| - 1, gap, span);
    }
  }

  lemma CountFits(k: nat, gap: nat, span: nat)
    requires k * gap <= span && gap > 0
    ensures k <= span / gap
  {
    var q := span / gap;
    assert span < (q + 1) * gap;
    assert (k - q - 1) * gap < 0;
  }

  lemma {:induction false} SpacedSpan(xs: seq<Millis>, gap: nat)
    requires Spaced(xs, gap) && xs != []
    ensures xs[0] + (|xs| - 1) * gap <= xs[|xs| - 1]
    decreases |xs|
  {
    if |xs| > 1 {
      var front := xs[..|xs| - 1];
      SpacedSpan(front, gap);
      assert front[|front| - 1] + gap <= xs[|xs| - 1];
    }
  }
}
