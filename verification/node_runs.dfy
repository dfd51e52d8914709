/**
  Runs from a node that holds no one to the moments at which a promise is broken: an ending session
  verified late, and one reconnected over.
 */
module NodeRuns {
  import opened Numbers
  import opened Wrappers
  import opened Wire
  import opened Grants
  import opened GrantChannels
  import opened Sessions
  import opened SessionFrames
  import opened SessionPurchases
  import opened Nodes
  import opened NodeFrames
  import opened NodeEarnings
  import opened NodeCapacity
  import opened BudgetRecords
  import opened NodeBudgets
  import NodeClosings
  import NodeSettlements

  lemma {:induction false} RunOn(n: Node, es: seq<(Event, Millis)>, fs: seq<(Event, Millis)>)
    ensures Run(n, es + fs) == Run(Run(n, es), fs)
    decreases |es|
  {
    if es == [] {
      assert es + fs == fs;
    } else {
      hide Step;
      assert (es + fs)[1..] == es[1..] + fs;
      RunOn(Step(n, es[0].0, es[0].1).n, es[1..], fs);
    }
  }

  lemma RunOne(n: Node, e: Event, now: Millis)
    ensures Run(n, [(e, now)]) == Step(n, e, now).n
  {
    hide Step;
    assert [(e, now)][1..] == [];
  }

  // ------------------------------------------------------------------------
  // One event about one peer
  // ------------------------------------------------------------------------

  /** Everyone else as they were, but for when they were last sent something. */
  ghost predicate OthersStay(n: Node, n': Node, p: PubKey) {
    && n'.cfg == n.cfg && n'.parked == n.parked && n'.overrides == n.overrides
    && n'.peers.Keys == n.peers.Keys + {p}
    && forall q :: q in n.peers && q != p ==> n'.peers[q].phase == n.peers[q].phase && n'.peers[q].grant == n.peers[q].grant
  }

  lemma NotingLeaves(c: Course, now: Millis)
    ensures var d := NoteSent(c, now);
      && d.n == c.n.(peers := d.n.peers) && d.out == c.out && d.n.peers.Keys == c.n.peers.Keys
      && forall q :: q in c.n.peers ==> d.n.peers[q] == c.n.peers[q].(lastSent := d.n.peers[q].lastSent)
  {
  }

  lemma StepsOnSession(n: Node, e: Event, now: Millis)
    requires NodeSound(n) && AboutOne(e) && !e.PeerPolicySet? && e.peer in n.peers
    ensures var c, after := Step(n, e, now), OnSession(n, Enter(n, e.peer), e, ReservedElsewhere(n, e.peer), now);
      && NodeSound(c.n) && OthersStay(n, c.n, e.peer) && c.out == after.out
      && c.n.peers[e.peer] == after.s.(lastSent := c.n.peers[e.peer].lastSent)
  {
    hide OnSession, ReservedElsewhere, NodeSound, NoneDropped, NoteSent;
    var after := OnSession(n, Enter(n, e.peer), e, ReservedElsewhere(n, e.peer), now);
    NoEarningsDropped(n, e, now);
    var c := Install(Course(n, []), e.peer, after);
    NotingLeaves(c, now);
    assert [] + after.out == after.out;
    assert Step(n, e, now) == NoteSent(c, now);
    hide Step;
  }

  /** A payer the default policy applies to, known to no one. */
  ghost predicate Stranger(n: Node, p: PubKey) {
    p !in n.peers && p !in n.parked && p !in n.overrides
  }

  lemma StrangerConnects(n: Node, p: PubKey, now: Millis)
    requires NodeSound(n) && Stranger(n, p)
    ensures var n' := Step(n, PeerConnected(p, None), now).n;
      && NodeSound(n') && OthersStay(n, n', p)
      && n'.peers[p].grant == NewGrant() && n'.peers[p].policy == DEFAULT_POLICY && n'.peers[p].meter == Counters(0, 0)
  {
    hide Connect, NodeSound, NoneDropped, NoteSent, NewGrant;
    NoEarningsDropped(n, PeerConnected(p, None), now);
    StrangerGreeted(n, p, now);
    NotingLeaves(Connect(n, p, None, now), now);
  }

  lemma StrangerGreeted(n: Node, p: PubKey, now: Millis)
    requires Stranger(n, p)
    ensures var n' := Connect(n, p, None, now).n;
      && n' == n.(peers := n.peers[p := n'.peers[p]], nextRequest := n'.nextRequest)
      && n'.peers[p].grant == NewGrant() && n'.peers[p].policy == DEFAULT_POLICY && n'.peers[p].meter == Counters(0, 0)
  {
    var t := Begin(n.cfg, p, DEFAULT_POLICY, None, None, now, n.nextRequest);
    var greeted := Greet(n.cfg, p, DEFAULT_POLICY, t, now);
    assert greeted.s.grant == NewGrant() && greeted.s.policy == DEFAULT_POLICY && greeted.s.meter == Counters(0, 0) by {
      hide RateOf, AccessOf, BalanceOf, OfferFor, Readies;
    }
    hide Greet;
    assert n.parked - {p} == n.parked && n.peers - {p} == n.peers;
    assert Connect(n, p, None, now) == Install(Course(n, []), p, greeted);
  }

  // ------------------------------------------------------------------------
  // A payer that connects, is funded and buys
  // ------------------------------------------------------------------------

  /** The node takes this mint, and a reservation of 6 for this window if the others leave it free. */
  ghost predicate Sells(cfg: Config, mint: Text, windowMs: u64) {
    && mint in cfg.node.acceptedMints && cfg.node.grants.WindowAcceptable(windowMs) && windowMs >= 1_000
    && cfg.node.grants.minReservedRate <= 6
  }

  function Purchase(id: ChannelId, windowMs: u64, signature: Signature): TopUp {
    TopUp([ChannelUpdate(id, 50, signature)], windowMs, 6)
  }

  /** The budget such a payer has bought: 50 units from `now`, at 6 a second. */
  ghost predicate Bought(s: PeerSession, id: ChannelId, windowMs: u64, now: Millis) {
    && s.phase == Established && s.policy == DEFAULT_POLICY && s.access == Active && s.meter == Counters(0, 0)
    && s.grant.authorized == 50 && s.grant.consumed == 0 && s.grant.reservedRate == 6
    && s.grant.deadline == SatAdd(now, windowMs) && s.grant.second == Some(Limits.Starting(now))
    && s.grant.channels == [IncomingChannel(id, 100, 50, 0, None)] && s.grant.lastTopup == Some(now)
  }

  lemma FundedTurn(n: Node, t: Turn, e: Event, elsewhere: u64, now: Millis)
    requires Verifies(n, e) && t.s.grant == NewGrant()
    ensures var s := OnSession(n, t, e, elsewhere, now).s;
      && s.grant == NewGrant().(channels := [IncomingChannel(e.channelId, e.capacity, 0, 0, e.expiresAt)])
      && s.phase == Established && s.policy == t.s.policy && s.meter == t.s.meter
  {
    hide RateOf, AccessOf, BalanceOf;
    assert [] + [IncomingChannel(e.channelId, e.capacity, 0, 0, e.expiresAt)] == [IncomingChannel(e.channelId, e.capacity, 0, 0, e.expiresAt)];
  }

  /** The first purchase on a channel of 100 with nothing on it. */
  lemma BoughtTurn(cfg: Config, peer: PubKey, t: Turn, id: ChannelId, mint: Text, windowMs: u64, signature: Signature, elsewhere: u64, now: Millis)
    requires t.s.grant == NewGrant().(channels := [IncomingChannel(id, 100, 0, 0, None)])
    requires t.s.phase == Established && t.s.policy == DEFAULT_POLICY && t.s.meter == Counters(0, 0)
    requires Sells(cfg, mint, windowMs) && 6 <= Admission(cfg.node.grants, elsewhere).RateAvailable()
    ensures Bought(OnTopUp(cfg, peer, t, Purchase(id, windowMs, signature), elsewhere, now).s, id, windowMs, now)
    ensures Judged(cfg, Checked(t, now), Purchase(id, windowMs, signature), elsewhere).Accept?
    ensures !t.s.grant.TooSoon(now, cfg.node.grants.minTopupGapMs)
  {
    var m, checked := Purchase(id, windowMs, signature), Checked(t, now);
    var cs := t.s.grant.channels;
    assert cs[1..] == [] && m.updates[1..] == [];
    assert Find(cs, id) == Some(cs[0]);
    assert [] + [Ratchet(id, 50)] == [Ratchet(id, 50)];
    assert Gather(cs, m.updates[1..], [Ratchet(id, 50)], 50) == Ok(([Ratchet(id, 50)], 50));
    assert Judged(cfg, checked, m, elsewhere) == Accept([Ratchet(id, 50)], 50);
    HonoredFirst(cfg, peer, checked, m, id, now);
    var honored := Honor(peer, checked, m, [Ratchet(id, 50)], 50, now);
    hide Evaluate, Honor, RateOf, BalanceOf;
    assert OnTopUp(cfg, peer, t, m, elsewhere, now) == Refresh(cfg, peer, honored, now);
  }

  lemma HonoredFirst(cfg: Config, peer: PubKey, t: Turn, m: TopUp, id: ChannelId, now: Millis)
    requires t.s.grant.channels == [IncomingChannel(id, 100, 0, 0, None)]
    requires t.s.grant == NewGrant().(channels := t.s.grant.channels, lastTopup := t.s.grant.lastTopup) && m.reservedRate == 6
    ensures var s := Honor(peer, t, m, [Ratchet(id, 50)], 50, now).s;
      && s == t.s.(grant := s.grant, budgetLive := s.budgetLive)
      && s.grant.channels == [IncomingChannel(id, 100, 50, 0, None)] && s.grant.lastTopup == t.s.grant.lastTopup
      && s.grant.authorized == 50 && s.grant.consumed == 0 && s.grant.reservedRate == 6
      && s.grant.deadline == SatAdd(now, m.windowMs) && s.grant.second == Some(Limits.Starting(now))
  {
    var cs := t.s.grant.channels;
    var turned := [IncomingChannel(id, 100, 50, 0, None)];
    assert cs[1..] == [] && [Ratchet(id, 50)][1..] == [] && turned[1..] == [];
    assert turned == [turned[0]] + cs[1..];
    assert Put(cs, turned[0]) == turned;
    assert TurnRatchets(cs, [Ratchet(id, 50)]) == TurnRatchets(turned, []);
    assert ExhaustedIds(turned) == [] + ExhaustedIds([]);
    HonorActions(peer, t, m, [Ratchet(id, 50)], 50, now);
    hide Honor, TurnRatchets, ExhaustedIds, BalanceOf;
  }

  lemma OthersReserveAsMuch(n: Node, n': Node, p: PubKey)
    requires OthersStay(n, n', p) && p !in n.peers
    ensures TotalReserved(n'.peers - {p}) == TotalReserved(n.peers)
  {
    TotalAgrees(n.peers, n'.peers - {p});
  }

  lemma SoundSession(n: Node, p: PubKey, now: Millis)
    requires NodeSound(n) && p in n.peers
    ensures Distinct(n.peers[p].grant.channels) && n.peers[p].grant.Valid()
  {
    assert Sound(n.peers[p]);
  }

  lemma SessionHears(n: Node, t: Turn, p: PubKey, m: TopUp, elsewhere: u64, now: Millis)
    ensures OnSession(n, t, MessageReceived(p, MTopUp(m)), elsewhere, now) == OnTopUp(n.cfg, p, t.(s := t.s.(lastSeen := now)), m, elsewhere, now)
  {
    hide OnTopUp;
  }

  lemma FreeRate(n: Node, p: PubKey)
    requires TotalReserved(n.peers - {p}) == 0 && (n.cfg.node.grants.maxRate.Some? ==> n.cfg.node.grants.maxRate.value >= 6)
    ensures 6 <= Admission(n.cfg.node.grants, ReservedElsewhere(n, p)).RateAvailable()
  {
  }

  lemma HonoredSaves(p: PubKey, t: Turn, t': Turn, m: TopUp, now: Millis)
    requires Honored(p, t, t', m, now) && t.out == [] && !t.s.policy.noCharge
    ensures LastSaved(t'.out, p) == Some(t'.s.grant.BudgetAt(now))
  {
    hide LastSaved, Grant.BudgetAt, Accounted, Adds;
    OnlySaved(t'.out, p, t'.s.grant.BudgetAt(now), true);
  }

  lemma BoughtAside(s: PeerSession, s': PeerSession, id: ChannelId, windowMs: u64, now: Millis)
    requires Bought(s, id, windowMs, now) && s' == s.(lastSent := s'.lastSent)
    ensures Bought(s', id, windowMs, now)
  {
  }

  lemma HeardTopUp(n: Node, p: PubKey, id: ChannelId, mint: Text, windowMs: u64, signature: Signature, now: Millis)
    requires NodeSound(n) && p in n.peers && n.peers[p].grant == NewGrant().(channels := [IncomingChannel(id, 100, 0, 0, None)])
    requires n.peers[p].phase == Established && n.peers[p].policy == DEFAULT_POLICY && n.peers[p].meter == Counters(0, 0)
    requires Sells(n.cfg, mint, windowMs) && TotalReserved(n.peers - {p}) == 0
    requires n.cfg.node.grants.maxRate.Some? ==> n.cfg.node.grants.maxRate.value >= 6
    ensures var c := Step(n, MessageReceived(p, MTopUp(Purchase(id, windowMs, signature))), now);
      && OthersStay(n, c.n, p) && NodeSound(c.n) && Bought(c.n.peers[p], id, windowMs, now)
      && LastSaved(c.out, p) == Some(c.n.peers[p].grant.BudgetAt(now))
  {
    var e, m := MessageReceived(p, MTopUp(Purchase(id, windowMs, signature))), Purchase(id, windowMs, signature);
    var t, elsewhere := Enter(n, p), ReservedElsewhere(n, p);
    var heard := t.(s := t.s.(lastSeen := now));
    var after := OnSession(n, t, e, elsewhere, now);
    hide OnSession, OnTopUp, Step, NodeSound, TotalReserved, Judged, LastSaved, Grant.BudgetAt, Honored, Bought, Evaluate, OthersStay;
    SessionHears(n, t, p, m, elsewhere, now);
    SoundSession(n, p, now);
    FreeRate(n, p);
    StepsOnSession(n, e, now);
    BoughtTurn(n.cfg, p, heard, id, mint, windowMs, signature, elsewhere, now);
    AcceptedTopUp(n.cfg, p, heard, m, elsewhere, now);
    HonoredSaves(p, Checked(heard, now), after, m, now);
    BoughtAside(after.s, Step(n, e, now).n.peers[p], id, windowMs, now);
  }

  /** From a stranger to a payer with 50 units at 6 a second. */
  function BuyingIn(p: PubKey, id: ChannelId, mint: Text, windowMs: u64, signature: Signature, now: Millis): seq<(Event, Millis)> {
    [(PeerConnected(p, None), now), (IncomingFundingVerified(p, id, 100, None, mint), now),
     (MessageReceived(p, MTopUp(Purchase(id, windowMs, signature))), now)]
  }

  lemma BuysIn(n: Node, p: PubKey, id: ChannelId, mint: Text, windowMs: u64, signature: Signature, now: Millis)
    requires NodeSound(n) && Stranger(n, p) && Sells(n.cfg, mint, windowMs)
    requires TotalReserved(n.peers) == 0 && (n.cfg.node.grants.maxRate.Some? ==> n.cfg.node.grants.maxRate.value >= 6)
    ensures var es := BuyingIn(p, id, mint, windowMs, signature, now);
      var n' := Run(n, es);
      && NodeSound(n') && OthersStay(n, n', p) && Bought(n'.peers[p], id, windowMs, now) && AllPossible(n, es)
      && LastSaved(Step(Run(n, es[..2]), es[2].0, now).out, p) == Some(n'.peers[p].grant.BudgetAt(now))
  {
    hide LastSaved, Grant.BudgetAt, OnSession, NodeSound, TotalReserved, Bought, Step, OthersStay, Sells, ReservedElsewhere, Run, AllPossible;
    var es := BuyingIn(p, id, mint, windowMs, signature, now);
    var e1, e2, e3 := es[0].0, es[1].0, es[2].0;
    SellsMint(n.cfg, mint, windowMs);
    StrangerConnects(n, p, now);
    var n1 := Step(n, e1, now).n;
    Stayed(n, n1, p);
    StepsOnSession(n1, e2, now);
    FundedTurn(n1, Enter(n1, p), e2, ReservedElsewhere(n1, p), now);
    var n2 := Step(n1, e2, now).n;
    StayedOn(n, n1, n2, p);
    OthersReserveAsMuch(n, n2, p);
    HeardTopUp(n2, p, id, mint, windowMs, signature, now);
    StayedOn(n, n2, Step(n2, e3, now).n, p);
    ThreeSteps(n, es, now);
  }

  lemma ThreeSteps(n: Node, es: seq<(Event, Millis)>, now: Millis)
    requires |es| == 3 && es[0].1 == es[1].1 == es[2].1 == now
    requires forall i :: 0 <= i < 3 ==> !es[i].0.Tick? && !es[i].0.ShutDown?
    ensures var n1 := Step(n, es[0].0, now).n;
      var n2 := Step(n1, es[1].0, now).n;
      Run(n, es[..2]) == n2 && Run(n, es) == Step(n2, es[2].0, now).n
    ensures AllPossible(n, es)
  {
    hide Step;
    var a, b, c := [es[0]], [es[1]], [es[2]];
    assert es == a + b + c && es[..2] == a + b;
    assert a[1..] == [] && b[1..] == [] && c[1..] == [];
    RunOn(n, a, b);
    RunOn(n, a + b, c);
    PossibleOn(n, a, b);
    PossibleOn(n, a + b, c);
  }

  lemma Stayed(n: Node, n': Node, p: PubKey)
    requires OthersStay(n, n', p)
    ensures p in n'.peers && n'.cfg == n.cfg
  {
  }

  lemma StayedOn(n: Node, m: Node, n': Node, p: PubKey)
    requires OthersStay(n, m, p) && OthersStay(m, n', p)
    ensures OthersStay(n, n', p) && p in n'.peers && n'.cfg == n.cfg
  {
  }

  lemma SaysGoodbye(n: Node, p: PubKey, now: Millis)
    requires NodeSound(n) && p in n.peers
    ensures var c := Step(n, MessageReceived(p, MDisconnect(Other)), now);
      && NodeSound(c.n) && OthersStay(n, c.n, p) && c.out == [DropPeer(p)]
      && c.n.peers[p].phase.Closing? && c.n.peers[p].grant == n.peers[p].grant && c.n.peers[p].policy == n.peers[p].policy
  {
    hide Step, NodeSound, ReservedElsewhere, OnSession, OthersStay;
    StepsOnSession(n, MessageReceived(p, MDisconnect(Other)), now);
    GoodbyeTurn(n, Enter(n, p), p, ReservedElsewhere(n, p), now);
  }

  lemma GoodbyeTurn(n: Node, t: Turn, p: PubKey, elsewhere: u64, now: Millis)
    requires t.out == []
    ensures OnSession(n, t, MessageReceived(p, MDisconnect(Other)), elsewhere, now) ==
      t.(s := t.s.(lastSeen := now, phase := Closing), out := [DropPeer(p)])
  {
    assert [] + [DropPeer(p)] == [DropPeer(p)];
  }

  // ------------------------------------------------------------------------
  // The capacity passed
  // ------------------------------------------------------------------------

  /**
    From a node with no one: one peer reserves 6 of 10 and says Disconnect, another is admitted at 6, and
    the late verification of the first brings back a session whose 6 no longer fit.
   */
  lemma LateVerificationReached(cfg: Config, p: PubKey, q: PubKey, id: ChannelId, mint: Text, windowMs: u64, signature: Signature)
    returns (es: seq<(Event, Millis)>, last: Event)
    requires p != q && Sells(cfg, mint, windowMs) && cfg.node.grants.maxRate == Some(10)
    ensures AllPossible(NewNode(cfg), es) && Within(Run(NewNode(cfg), es))
    ensures Revives(Run(NewNode(cfg), es), last) && !Within(Run(NewNode(cfg), es + [(last, 3)]))
  {
    hide NodeSound, Sells, Step, Bought, Within, Run, AllPossible;
    var n := NewNode(cfg);
    NewNodeWithin(cfg);
    var first := BuyingIn(p, id, mint, windowMs, signature, 0);
    BuysIn(n, p, id, mint, windowMs, signature, 0);
    var n1 := Run(n, first);
    var bye := MessageReceived(p, MDisconnect(Other));
    var n2 := Step(n1, bye, 1).n;
    SaysGoodbye(n1, p, 1);
    EndingReservesNothing(n2, p);
    var second := BuyingIn(q, id, mint, windowMs, signature, 2);
    BuysIn(n2, q, id, mint, windowMs, signature, 2);
    var n3 := Run(n2, second);
    last := IncomingFundingVerified(p, id, 100, None, mint);
    BoughtStands(n1.peers[p], id, windowMs, 0);
    BoughtStands(n3.peers[q], id, windowMs, 2);
    assert mint in cfg.node.acceptedMints by { SellsMint(cfg, mint, windowMs); }
    LateVerificationOversubscribes(n3, p, q, last, 3);
    es := first + [(bye, 1)] + second;
    RunOn(n, first + [(bye, 1)], second);
    RunOn(n, first, [(bye, 1)]);
    RunOne(n1, bye, 1);
    RunOn(n, es, [(last, 3)]);
    RunOne(n3, last, 3);
    assert AllPossible(n1, [(bye, 1)]) by { OnePossible(n1, bye, 1); }
    PossibleOn(n, first, [(bye, 1)]);
    PossibleOn(n, first + [(bye, 1)], second);
  }

  lemma EndingReservesNothing(n: Node, p: PubKey)
    requires n.peers.Keys == {p} && n.peers[p].phase.Closing?
    ensures TotalReserved(n.peers) == 0
  {
    TotalWithout(n.peers, p);
    assert n.peers - {p} == map[];
  }

  lemma BoughtStands(s: PeerSession, id: ChannelId, windowMs: u64, now: Millis)
    requires Bought(s, id, windowMs, now)
    ensures s.phase.Established? && s.grant.reservedRate == 6
  {
  }

  lemma SellsMint(cfg: Config, mint: Text, windowMs: u64)
    requires Sells(cfg, mint, windowMs)
    ensures mint in cfg.node.acceptedMints
  {
  }

  lemma OnePossible(n: Node, e: Event, now: Millis)
    requires AboutOne(e)
    ensures AllPossible(n, [(e, now)])
  {
    hide Step;
    assert [(e, now)][1..] == [];
  }

  lemma {:induction false} PossibleOn(n: Node, es: seq<(Event, Millis)>, fs: seq<(Event, Millis)>)
    requires AllPossible(n, es) && AllPossible(Run(n, es), fs)
    ensures AllPossible(n, es + fs)
    decreases |es|
  {
    if es == [] {
      assert es + fs == fs;
    } else {
      hide Step, Possible;
      assert (es + fs)[1..] == es[1..] + fs;
      PossibleOn(Step(n, es[0].0, es[0].1).n, es[1..], fs);
    }
  }

  // ------------------------------------------------------------------------
  // The record overtaken
  // ------------------------------------------------------------------------

  /** A reading at this many units toward the peer, with nothing carried back. */
  function Reads(p: PubKey, units: u64): Event {
    Metered(p, Counters(units, 0), true)
  }

  /** Four units moved within the first second are drawn, and nothing is saved. */
  lemma FourUnitsDrawn(n: Node, p: PubKey, id: ChannelId, windowMs: u64, at: Millis)
    requires NodeSound(n) && p in n.peers && Bought(n.peers[p], id, windowMs, at) && windowMs >= 1_000 && at + windowMs <= U64_MAX
    ensures var c := Step(n, Reads(p, 4), at + 1);
      && NodeSound(c.n) && OthersStay(n, c.n, p) && NothingSaved(c.out, p)
      && c.n.peers[p].grant == n.peers[p].grant.(consumed := 4, second := c.n.peers[p].grant.second)
      && c.n.peers[p].policy == DEFAULT_POLICY
  {
    hide Step, NodeSound, ReservedElsewhere;
    var e, now := Reads(p, 4), at + 1;
    var t := Enter(n, p);
    StepsOnSession(n, e, now);
    DrawnTurn(n.cfg, p, t, id, windowMs, at);
    assert OnSession(n, t, e, ReservedElsewhere(n, p), now) == Refresh(n.cfg, p, t.(s := OnMetered(t.s, Counters(4, 0), true, now)), now);
  }

  lemma DrawnTurn(cfg: Config, p: PubKey, t: Turn, id: ChannelId, windowMs: u64, at: Millis)
    requires Bought(t.s, id, windowMs, at) && windowMs >= 1_000 && at + windowMs <= U64_MAX && t.out == []
    ensures var after := Refresh(cfg, p, t.(s := OnMetered(t.s, Counters(4, 0), true, at + 1)), at + 1);
      && NothingSaved(after.out, p) && after.s.policy == DEFAULT_POLICY
      && after.s.grant == t.s.grant.(consumed := 4, second := after.s.grant.second)
  {
    hide RateOf, AccessOf;
    var metered := OnMetered(t.s, Counters(4, 0), true, at + 1);
    assert Counters(4, 0).DeltaSince(Counters(0, 0)).Weighted(t.s.weight) == 4;
    assert metered.grant.IsLive(at + 1);
  }

  /**
    A charged payer with some of its budget drawn since it was last saved says Disconnect and connects
    again, and the host hands back the record it had: the session that was ending is saved as it stood,
    the new one starts with more, and the record no longer covers it.
   */
  lemma ReconnectionOverAnEnding(l: Ledger, n: Node, p: PubKey, now: Millis, later: Millis)
    requires NodeSound(n) && Covers(l, n, p, now) && p in n.peers && !PolicyFor(n, p).blocked
    requires now <= later && n.peers[p].grant.IsLive(later) && l.drawn > 0
    ensures var bye, back := MessageReceived(p, MDisconnect(Other)), PeerConnected(p, Some(l.saved));
      var c := Step(n, bye, now);
      var d := Step(c.n, back, later);
      && Entered(l, n, bye, c, p) == l && Covers(l, c.n, p, later)
      && Handed(Some(l.saved), later) == l.saved.At(later)
      && !Covers(Entered(l, c.n, back, d, p), d.n, p, later)
  {
    hide Step, NodeSound, LastSaved, Covered, Worth, Grant.BudgetAt, Budget.At;
    var bye := MessageReceived(p, MDisconnect(Other));
    var c := Step(n, bye, now);
    SaysGoodbye(n, p, now);
    assert n.peers[p].grant.BudgetAt(later).remaining == n.peers[p].grant.Remaining() by { LiveIsWorth(n.peers[p].grant, later); }
    LastSavedIsSaved(c.out, p);
    StepKeepsCovers(l, n, bye, p, now);
    TimePasses(l, c.n, p, now, later);
    RecordIsWorth(l, c.n, p, later);
    ConnectCoversIff(l, c.n, p, Some(l.saved), later);
  }

  lemma {:induction false} RecordedOn(l: Ledger, n: Node, es: seq<(Event, Millis)>, fs: seq<(Event, Millis)>, p: PubKey, from: Millis)
    ensures Recorded(l, n, es + fs, p) == Recorded(Recorded(l, n, es, p), Run(n, es), fs, p)
    ensures WellKept(l, n, es, p, from) && WellKept(Recorded(l, n, es, p), Run(n, es), fs, p, Ending(es, from)) ==>
      WellKept(l, n, es + fs, p, from)
    decreases |es|
  {
    if es == [] {
      assert es + fs == fs;
    } else {
      hide Step, HostKeeps, Entered;
      assert (es + fs)[1..] == es[1..] + fs;
      var c := Step(n, es[0].0, es[0].1);
      assert Ending(es, from) == Ending(es[1..], es[0].1);
      RecordedOn(Entered(l, n, es[0].0, c, p), c.n, es[1..], fs, p, es[0].1);
    }
  }

  lemma KeptOnce(l: Ledger, n: Node, e: Event, p: PubKey, now: Millis, from: Millis)
    requires from <= now && ((AboutOne(e) && !e.PeerPolicySet?) || (e == PeerConnected(p, None) && p !in n.peers && l.saved.At(now) == NO_BUDGET))
    ensures WellKept(l, n, [(e, now)], p, from)
    ensures Recorded(l, n, [(e, now)], p) == Entered(l, n, e, Step(n, e, now), p)
  {
    hide Step, Entered;
    assert [(e, now)][1..] == [];
  }

  lemma LiveIsWorth(g: Grant, now: Millis)
    requires g.IsLive(now)
    ensures g.BudgetAt(now) == Budget(g.Remaining(), g.deadline)
  {
  }

  /** And such a moment is reached, from a node with no one and nothing on record. */
  lemma ReconnectionUncovers(cfg: Config, p: PubKey, id: ChannelId, mint: Text, windowMs: u64, signature: Signature)
    returns (es: seq<(Event, Millis)>, back: Event)
    requires Sells(cfg, mint, windowMs) && (cfg.node.grants.maxRate.Some? ==> cfg.node.grants.maxRate.value >= 6)
    ensures var start, node := Ledger(NO_BUDGET, 0), NewNode(cfg);
      var l, n := Recorded(start, node, es, p), Run(node, es);
      && WellKept(start, node, es, p, 0) && Covers(l, n, p, 3)
      && back == PeerConnected(p, Some(l.saved))
      && !Covers(Entered(l, n, back, Step(n, back, 3), p), Step(n, back, 3).n, p, 3)
  {
    hide NodeSound, Step, Bought, Run, Recorded, WellKept, Entered, Covers, AllPossible, OthersStay, LastSaved, Grant.BudgetAt, Grant.IsLive, Sells, PolicyFor, NewNode, Budget.At;
    var start, node := Ledger(NO_BUDGET, 0), NewNode(cfg);
    Alone(cfg, p, mint, windowMs);
    var first := BuyingIn(p, id, mint, windowMs, signature, 0);
    BuysIn(node, p, id, mint, windowMs, signature, 0);
    var n1, l1 := Run(node, first), Recorded(start, node, first, p);
    StillAlone(node, n1, p);
    FirstRecorded(cfg, p, first);
    var read, bye := Reads(p, 4), MessageReceived(p, MDisconnect(Other));
    var n2, l2 := Step(n1, read, 1).n, Entered(l1, n1, read, Step(n1, read, 1), p);
    FourUnitsRecorded(l1, n1, p, id, windowMs);
    StillAlone(n1, n2, p);
    ReconnectionOverAnEnding(l2, n2, p, 2, 3);
    back := PeerConnected(p, Some(l2.saved));
    es := first + [(read, 1)] + [(bye, 2)];
    KeptOnce(l1, n1, read, p, 1, 0);
    RecordedOn(start, node, first, [(read, 1)], p, 0);
    RunOn(node, first, [(read, 1)]);
    RunOne(n1, read, 1);
    KeptOnce(l2, n2, bye, p, 2, 1);
    RecordedOn(start, node, first + [(read, 1)], [(bye, 2)], p, 0);
    RunOn(node, first + [(read, 1)], [(bye, 2)]);
    RunOne(n2, bye, 2);
  }

  lemma Alone(cfg: Config, p: PubKey, mint: Text, windowMs: u64)
    requires Sells(cfg, mint, windowMs)
    ensures var n := NewNode(cfg); NodeSound(n) && Stranger(n, p) && n.cfg == cfg && TotalReserved(n.peers) == 0
    ensures NewNode(cfg).overrides == map[] && NewNode(cfg).parked == map[] && windowMs >= 1_000
  {
  }

  lemma StillAlone(n: Node, n': Node, p: PubKey)
    requires OthersStay(n, n', p) && n.overrides == map[] && n.parked == map[]
    ensures n'.overrides == map[] && n'.parked == map[] && !PolicyFor(n', p).blocked && p in n'.peers
  {
  }

  lemma FirstRecorded(cfg: Config, p: PubKey, first: seq<(Event, Millis)>)
    requires |first| == 3 && first[0] == (PeerConnected(p, None), 0)
    requires first[1].1 == 0 && AboutOne(first[1].0) && !first[1].0.PeerPolicySet?
    requires first[2].1 == 0 && AboutOne(first[2].0) && !first[2].0.PeerPolicySet?
    requires p in Run(NewNode(cfg), first).peers
    requires LastSaved(Step(Run(NewNode(cfg), first[..2]), first[2].0, 0).out, p) == Some(Run(NewNode(cfg), first).peers[p].grant.BudgetAt(0))
    ensures Recorded(Ledger(NO_BUDGET, 0), NewNode(cfg), first, p) == Ledger(Run(NewNode(cfg), first).peers[p].grant.BudgetAt(0), 0)
    ensures WellKept(Ledger(NO_BUDGET, 0), NewNode(cfg), first, p, 0)
  {
    hide Step, Run, Recorded, WellKept, LastSaved, Grant.BudgetAt;
    var start, node := Ledger(NO_BUDGET, 0), NewNode(cfg);
    var a, b, c := [first[0]], [first[1]], [first[2]];
    assert first == a + b + c && first[..2] == a + b;
    KeptOnce(start, node, first[0].0, p, 0, 0);
    KeptOnce(Recorded(start, node, a, p), Run(node, a), first[1].0, p, 0, 0);
    RecordedOn(start, node, a, b, p, 0);
    KeptOnce(Recorded(start, node, a + b, p), Run(node, a + b), first[2].0, p, 0, 0);
    RecordedOn(start, node, a + b, c, p, 0);
  }

  lemma FourUnitsRecorded(l: Ledger, n: Node, p: PubKey, id: ChannelId, windowMs: u64)
    requires NodeSound(n) && p in n.peers && Bought(n.peers[p], id, windowMs, 0) && windowMs >= 1_000
    requires l == Ledger(n.peers[p].grant.BudgetAt(0), 0) && n.overrides == map[] && n.parked == map[]
    ensures var c := Step(n, Reads(p, 4), 1);
      var l' := Entered(l, n, Reads(p, 4), c, p);
      && NodeSound(c.n) && OthersStay(n, c.n, p)
      && l'.drawn == 4 && Covers(l', c.n, p, 2) && c.n.peers[p].grant.IsLive(3)
  {
    hide Step, LastSaved;
    FourUnitsDrawn(n, p, id, windowMs, 0);
    LastSavedIsSaved(Step(n, Reads(p, 4), 1).out, p);
  }

  // ------------------------------------------------------------------------
  // Sold on after it was settled
  // ------------------------------------------------------------------------

  /** The same channel raised to 90. */
  function More(id: ChannelId, windowMs: u64, signature: Signature): TopUp {
    TopUp([ChannelUpdate(id, 90, signature)], windowMs, 6)
  }

  lemma SaysItIsClosed(n: Node, p: PubKey, id: ChannelId, signature: Signature, now: Millis)
    requires NodeSound(n) && p in n.peers
    ensures var e := MessageReceived(p, MChannelClose(id, 50, signature, Normal));
      var c := Step(n, e, now);
      && NodeClosings.SaysClosed(n, e, p, id) && NodeClosings.SettledIn(c.out, p, id)
      && NodeSound(c.n) && OthersStay(n, c.n, p) && c.n.peers[p].grant == n.peers[p].grant
  {
    var e := MessageReceived(p, MChannelClose(id, 50, signature, Normal));
    hide Step, NodeSound, ReservedElsewhere, ExpiryOf, NodeClosings.Settles, OthersStay;
    StepsOnSession(n, e, now);
    assert NodeClosings.SaysClosed(n, e, p, id);
    NodeClosings.SaysClosedCourse(n, e, p, id, now);
    ClosedTurn(n, Enter(n, p), p, id, signature, ReservedElsewhere(n, p), now);
  }

  lemma ClosedTurn(n: Node, t: Turn, p: PubKey, id: ChannelId, signature: Signature, elsewhere: u64, now: Millis)
    ensures OnSession(n, t, MessageReceived(p, MChannelClose(id, 50, signature, Normal)), elsewhere, now).s == t.s.(lastSeen := now)
  {
    hide ExpiryOf;
  }

  /** With 50 signed and 6 reserved, 40 more are honored once the gap has passed. */
  lemma MoreIsHonored(n: Node, p: PubKey, id: ChannelId, mint: Text, windowMs: u64, signature: Signature, later: Millis)
    requires p in n.peers && Sells(n.cfg, mint, windowMs) && n.cfg.node.grants.minTopupGapMs <= later
    requires n.peers[p].grant.channels == [IncomingChannel(id, 100, 50, 0, None)]
    requires n.peers[p].grant.lastTopup == Some(0) && n.peers[p].grant.reservedRate == 6
    ensures var e := MessageReceived(p, MTopUp(More(id, windowMs, signature)));
      && NodeSettlements.Purchases(n, e, p, later) && NodeSettlements.GrantedBy(n, e, p, later) == 40 && NodeClosings.Names(e, id)
  {
    hide ReservedElsewhere;
    var e, m := MessageReceived(p, MTopUp(More(id, windowMs, signature))), More(id, windowMs, signature);
    var cs := n.peers[p].grant.channels;
    assert m.updates[0] in m.updates && m.updates[1..] == [] && Find(cs, id) == Some(cs[0]);
    assert [] + [Ratchet(id, 90)] == [Ratchet(id, 90)];
    assert Gather(cs, m.updates[1..], [Ratchet(id, 90)], 40) == Ok(([Ratchet(id, 90)], 40));
    assert Judged(n.cfg, Checked(Enter(n, p), later), m, ReservedElsewhere(n, p)) == Accept([Ratchet(id, 90)], 40);
  }

  /**
    From a node with no one: a payer buys 50 on a channel and says that it is closed, the host is asked to
    settle it, and 40 more are then sold on it. What a second settlement would be asked for is more than
    the first was.
   */
  lemma SoldAfterSettled(cfg: Config, p: PubKey, id: ChannelId, mint: Text, windowMs: u64, signature: Signature, later: Millis)
    returns (es: seq<(Event, Millis)>, close: Event, more: Event)
    requires Sells(cfg, mint, windowMs) && (cfg.node.grants.maxRate.Some? ==> cfg.node.grants.maxRate.value >= 6)
    requires 1 <= later && cfg.node.grants.minTopupGapMs <= later
    ensures var n := Run(NewNode(cfg), es);
      var c := Step(n, close, 1);
      && AllPossible(NewNode(cfg), es) && ChannelsOf(n, p) == [IncomingChannel(id, 100, 50, 0, None)]
      && NodeClosings.SaysClosed(n, close, p, id) && NodeClosings.SettledIn(c.out, p, id)
      && NodeSettlements.Purchases(c.n, more, p, later) && NodeClosings.Names(more, id)
      && NodeSettlements.GrantedBy(c.n, more, p, later) == 40
  {
    hide NodeSound, Step, Run, AllPossible, OthersStay, LastSaved, Grant.BudgetAt, Sells, NewNode, NodeSettlements.Purchases,
      NodeSettlements.GrantedBy, NodeClosings.Names, NodeClosings.SettledIn, NodeClosings.SaysClosed;
    Alone(cfg, p, mint, windowMs);
    es := BuyingIn(p, id, mint, windowMs, signature, 0);
    BuysIn(NewNode(cfg), p, id, mint, windowMs, signature, 0);
    var n := Run(NewNode(cfg), es);
    Stayed(NewNode(cfg), n, p);
    close := MessageReceived(p, MChannelClose(id, 50, signature, Normal));
    SaysItIsClosed(n, p, id, signature, 1);
    var m := Step(n, close, 1).n;
    Stayed(n, m, p);
    more := MessageReceived(p, MTopUp(More(id, windowMs, signature)));
    MoreIsHonored(m, p, id, mint, windowMs, signature, later);
  }
}
