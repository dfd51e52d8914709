/**
  What the host has recorded against what the node has signed. The host keeps the last total recorded
  for every channel of a payer; over any run that total is what the channel is signed to, it never falls
  while the channel is held, and all that is granted is all that is recorded.
 */
module NodeSettlements {
  import opened Numbers
  import opened Wrappers
  import opened Wire
  import opened Grants
  import opened GrantChannels
  import opened Sessions
  import opened SessionFrames
  import opened SessionPurchases
  import opened Nodes
  import opened NodeFrames
  import opened NodeEarnings
  import NodeCapacity
  import GrantProperties

  // ------------------------------------------------------------------------
  // The host's book on one payer
  // ------------------------------------------------------------------------

  /** The last total recorded for each channel. */
  type Book = map<ChannelId, u64>

  function At(book: Book, id: ChannelId): u64 {
    if id in book then book[id] else 0
  }

  function Entered(book: Book, updates: seq<ChannelUpdate>): Book
    decreases |updates|
  {
    if updates == [] then book else Entered(book[updates[0].channelId := updates[0].cumulative], updates[1..])
  }

  /** The book after some actions, those that record a purchase of `p`'s entered in turn. */
  function Recorded(book: Book, out: seq<Action>, p: PubKey): Book
    decreases |out|
  {
    if out == [] then book
    else
      Recorded(if out[0].RecordUpdates? && out[0].peer == p then Entered(book, out[0].updates) else book, out[1..], p)
  }

  lemma {:induction false} NoneForHim(book: Book, out: seq<Action>, p: PubKey)
    requires forall a :: a in out && a.RecordUpdates? ==> a.peer != p
    ensures Recorded(book, out, p) == book
    decreases |out|
  {
    if out != [] {
      NoneForHim(book, out[1..], p);
    }
  }

  /** No channel is named twice. */
  ghost predicate Once(updates: seq<ChannelUpdate>) {
    forall i, j :: 0 <= i < j < |updates| ==> updates[i].channelId != updates[j].channelId
  }

  lemma {:induction false} EnterReads(book: Book, updates: seq<ChannelUpdate>, id: ChannelId)
    requires Once(updates)
    ensures GrantProperties.NotNamed(id, updates) ==> (id in Entered(book, updates) <==> id in book) && At(Entered(book, updates), id) == At(book, id)
    ensures forall u :: u in updates && u.channelId == id ==> id in Entered(book, updates) && Entered(book, updates)[id] == u.cumulative
    decreases |updates|
  {
    if updates != [] {
      var u, rest := updates[0], updates[1..];
      assert forall v :: v in updates <==> v == u || v in rest;
      assert GrantProperties.NotNamed(u.channelId, rest);
      EnterReads(book[u.channelId := u.cumulative], rest, id);
    }
  }

  lemma EnterTwice(book: Book, updates: seq<ChannelUpdate>)
    requires Once(updates)
    ensures Entered(Entered(book, updates), updates) == Entered(book, updates)
  {
    var once, twice := Entered(book, updates), Entered(Entered(book, updates), updates);
    forall id: ChannelId ensures (id in twice <==> id in once) && At(twice, id) == At(once, id) {
      EnterReads(book, updates, id);
      EnterReads(once, updates, id);
    }
    assert forall id :: id in once ==> At(twice, id) == At(once, id);
  }

  /** However often one purchase is recorded, it is entered. */
  lemma {:induction false} OneForHim(book: Book, out: seq<Action>, p: PubKey, updates: seq<ChannelUpdate>)
    requires Once(updates) && forall a :: a in out && a.RecordUpdates? ==> a == RecordUpdates(p, updates)
    ensures Recorded(book, out, p) == book || Recorded(book, out, p) == Entered(book, updates)
    ensures RecordUpdates(p, updates) in out ==> Recorded(book, out, p) == Entered(book, updates)
    ensures Recorded(Entered(book, updates), out, p) == Entered(book, updates)
    decreases |out|
  {
    if out != [] {
      hide Once, Enter;
      EnterTwice(book, updates);
      OneForHim(book, out[1..], p, updates);
      assert forall a :: a in out <==> a == out[0] || a in out[1..];
    }
  }

  // ------------------------------------------------------------------------
  // What one event signs
  // ------------------------------------------------------------------------

  /** A purchase of `p`'s is honored. */
  ghost predicate Purchases(n: Node, e: Event, p: PubKey, now: Millis) {
    e.MessageReceived? && e.peer == p && p in n.peers && Buys(n, Nodes.Enter(n, p), e, ReservedElsewhere(n, p), now)
  }

  /** A channel is verified for `p`, who is held. */
  ghost predicate VerifiesFor(n: Node, e: Event, p: PubKey) {
    Verifies(n, e) && e.peer == p && p in n.peers
  }

  /** `d` is a channel just verified, with nothing signed, and not one held before. */
  ghost predicate JustOpened(before: seq<IncomingChannel>, id: ChannelId, d: IncomingChannel) {
    d.id == id && d.signed == 0 && forall c :: c in before ==> c.id != id
  }

  /** What any event signs of one payer's, and what it has the host record. */
  ghost predicate Signing(n: Node, e: Event, c: Course, p: PubKey, now: Millis) {
    var before, after := ChannelsOf(n, p), ChannelsOf(c.n, p);
    if Purchases(n, e, p, now) then
      && Signs(before, e.msg.topup.updates, after)
      && RecordUpdates(p, e.msg.topup.updates) in c.out
      && forall a :: a in c.out && a.RecordUpdates? ==> a == RecordUpdates(p, e.msg.topup.updates)
    else
      && (forall d :: d in after ==> From(before, d) || (VerifiesFor(n, e, p) && JustOpened(before, e.channelId, d)))
      && (forall a :: a in c.out && a.RecordUpdates? ==> a.peer != p)
  }

  lemma OnPeerSigns(n: Node, e: Event, p: PubKey, now: Millis)
    requires NodeSound(n) && AboutOne(e)
    ensures Signing(n, e, OnPeer(n, e.peer, e, now), p, now)
  {
    hide Buys, OnSession, ReservedElsewhere, Basis, Ordinary, Honored, Signs, From, NodeSound;
    var c := OnPeer(n, e.peer, e, now);
    if e.peer !in n.peers {
      SameThinned(ChannelsOf(n, p));
    } else {
      SoundPeer(n, e.peer);
      var t, elsewhere := Nodes.Enter(n, e.peer), ReservedElsewhere(n, e.peer);
      var after := OnSession(n, t, e, elsewhere, now);
      assert c == Install(Course(n, []), e.peer, after);
      EventMoves(n, t, e, elsewhere, now);
      hide OnPeer;
      if e.peer != p {
        SameThinned(ChannelsOf(n, p));
        AboutThatPeer(n, t, e, elsewhere, now);
      } else if Buys(n, t, e, elsewhere, now) {
        BuyingSigns(n, t, e, elsewhere, now);
      } else {
        NotBuyingSigns(n, t, e, elsewhere, now);
      }
    }
  }

  lemma SoundPeer(n: Node, p: PubKey)
    requires NodeSound(n) && p in n.peers
    ensures Sound(n.peers[p]) && p !in n.parked
  {
  }

  lemma BasisIsBare(n: Node, t: Turn, e: Event, now: Millis)
    ensures Basis(n, t, e, now).out == t.out
    ensures Basis(n, t, e, now).s.grant.channels ==
      if !ChecksSignatures(n, t.s, e, now) && Verifies(n, e) then t.s.grant.OpenChannel(e.channelId, e.capacity, e.expiresAt).channels else t.s.grant.channels
  {
  }

  lemma AboutThatPeer(n: Node, t: Turn, e: Event, elsewhere: u64, now: Millis)
    requires AboutOne(e) && Sound(t.s) && t.out == []
    ensures forall a :: a in OnSession(n, t, e, elsewhere, now).out ==> a.peer == e.peer
  {
    EventMoves(n, t, e, elsewhere, now);
    BasisIsBare(n, t, e, now);
    hide OnSession, Basis, Buys, Accounted, Drawn, Thinned, Signs;
  }

  lemma BuyingSigns(n: Node, t: Turn, e: Event, elsewhere: u64, now: Millis)
    requires Sound(t.s) && t.out == [] && Buys(n, t, e, elsewhere, now)
    ensures e.MessageReceived? && e.msg.MTopUp?
    ensures var after, updates := OnSession(n, t, e, elsewhere, now), e.msg.topup.updates;
      && Signs(t.s.grant.channels, updates, after.s.grant.channels)
      && RecordUpdates(e.peer, updates) in after.out
      && forall a :: a in after.out && a.RecordUpdates? ==> a == RecordUpdates(e.peer, updates)
  {
    EventMoves(n, t, e, elsewhere, now);
    BasisIsBare(n, t, e, now);
    hide OnSession, Basis, Judged, Accounted, Signs;
  }

  lemma NotBuyingSigns(n: Node, t: Turn, e: Event, elsewhere: u64, now: Millis)
    requires Sound(t.s) && t.out == [] && AboutOne(e) && !Buys(n, t, e, elsewhere, now)
    ensures var after := OnSession(n, t, e, elsewhere, now);
      && (forall d :: d in after.s.grant.channels ==>
            From(t.s.grant.channels, d) || (Verifies(n, e) && JustOpened(t.s.grant.channels, e.channelId, d)))
      && forall a :: a in after.out && a.RecordUpdates? ==> false
  {
    var after := OnSession(n, t, e, elsewhere, now);
    EventMoves(n, t, e, elsewhere, now);
    BasisIsBare(n, t, e, now);
    hide OnSession, Buys, Accounted, Drawn, Basis;
    var basis := Basis(n, t, e, now).s.grant.channels;
    forall d | d in after.s.grant.channels
      ensures From(t.s.grant.channels, d) || (Verifies(n, e) && JustOpened(t.s.grant.channels, e.channelId, d))
    {
      assert From(basis, d);
      if Verifies(n, e) {
        OpenedFrom(t.s.grant, e.channelId, e.capacity, e.expiresAt, d);
      }
    }
  }

  lemma OpenedFrom(g: Grant, id: ChannelId, capacity: u64, expiresAt: Option<Millis>, d: IncomingChannel)
    requires From(g.OpenChannel(id, capacity, expiresAt).channels, d)
    ensures From(g.channels, d) || JustOpened(g.channels, id, d)
  {
    var after := g.OpenChannel(id, capacity, expiresAt).channels;
    var c :| c in after && c.id == d.id && c.signed == d.signed;
    var found := Find(g.channels, id);
    if found.Some? {
      GrantProperties.PutMembers(g.channels, found.value.(capacity := capacity, expiresAt := expiresAt));
    }
  }

  lemma StepSigns(n: Node, e: Event, p: PubKey, now: Millis)
    requires NodeSound(n) && Possible(n, e)
    ensures Signing(n, e, Step(n, e, now), p, now)
  {
    if AboutOne(e) {
      var m := if e.PeerPolicySet? then n.(overrides := n.overrides[e.peer := e.policy]) else n;
      OverridesKeepSound(n, m);
      OnPeerSigns(m, e, p, now);
      hide OnPeer, NodeSound;
      var c := OnPeer(m, e.peer, e, now);
      OnPeerSound(m, e, now);
      NoteSentCarries(c, now);
      hide NoteSent;
      SigningAs(n, m, e, c, NoteSent(c, now), p, now);
    } else {
      StepCarries(n, e, now);
      hide Step, NodeSound;
      assert Thinned(ChannelsOf(n, p), ChannelsOf(Step(n, e, now).n, p));
    }
  }

  lemma OverridesKeepSound(n: Node, m: Node)
    requires NodeSound(n) && m.peers == n.peers && m.parked == n.parked
    ensures NodeSound(m)
  {
  }

  lemma OnPeerSound(n: Node, e: Event, now: Millis)
    requires NodeSound(n) && AboutOne(e)
    ensures NodeSound(OnPeer(n, e.peer, e, now).n)
  {
    OnPeerDropsNone(n, e, now);
  }

  lemma SigningAs(n: Node, m: Node, e: Event, c: Course, c': Course, p: PubKey, now: Millis)
    requires Signing(m, e, c, p, now) && m == n.(overrides := m.overrides) && (m != n ==> e.PeerPolicySet?)
    requires ChannelsOf(c'.n, p) == ChannelsOf(c.n, p) && c'.out == c.out
    ensures Signing(n, e, c', p, now)
  {
    hide Buys, Signs, From;
    assert ChannelsOf(m, p) == ChannelsOf(n, p);
  }

  // ------------------------------------------------------------------------
  // Never down
  // ------------------------------------------------------------------------

  /** Whatever happens, what is signed on a channel does not fall while it is held. */
  lemma SignedNeverFalls(n: Node, e: Event, p: PubKey, now: Millis, c: IncomingChannel, d: IncomingChannel)
    requires NodeSound(n) && Possible(n, e) && c in ChannelsOf(n, p) && d in ChannelsOf(Step(n, e, now).n, p) && c.id == d.id
    ensures c.signed <= d.signed
    ensures c.signed < d.signed ==> Purchases(n, e, p, now) && RecordUpdates(p, e.msg.topup.updates) in Step(n, e, now).out
  {
    hide Step, Purchases, NodeSound;
    StepSigns(n, e, p, now);
    DistinctChannels(n, p);
    var before := ChannelsOf(n, p);
    if Purchases(n, e, p, now) {
      PurchaseIsTopUp(n, e, p, now);
      assert SignedBy(before, e.msg.topup.updates, d);
      var b :| b in before && b.id == d.id && Raised(b, e.msg.topup.updates, d);
      SameChannel(before, b, c);
    } else if From(before, d) {
      var b :| b in before && b.id == d.id && b.signed == d.signed;
      SameChannel(before, b, c);
    }
  }

  lemma PurchaseIsTopUp(n: Node, e: Event, p: PubKey, now: Millis)
    requires Purchases(n, e, p, now)
    ensures e.MessageReceived? && e.msg.MTopUp?
  {
  }

  lemma DistinctChannels(n: Node, p: PubKey)
    requires NodeSound(n)
    ensures Distinct(ChannelsOf(n, p))
  {
    if p in n.peers {
      assert Sound(n.peers[p]);
    } else if p in n.parked {
      assert Resting(n.parked[p].session);
    }
  }

  lemma SameChannel(cs: seq<IncomingChannel>, b: IncomingChannel, c: IncomingChannel)
    requires Distinct(cs) && b in cs && c in cs && b.id == c.id
    ensures b == c
  {
    FindMember(cs, b);
    FindMember(cs, c);
  }

  // ------------------------------------------------------------------------
  // The book is what is signed
  // ------------------------------------------------------------------------

  /** Every channel held is signed to what is recorded for it. */
  ghost predicate Backed(book: Book, n: Node, p: PubKey) {
    forall c :: c in ChannelsOf(n, p) ==> c.signed == At(book, c.id)
  }

  /** The host verifies no channel it has recorded something for, unless it is held still. */
  ghost predicate OpensNew(book: Book, n: Node, e: Event, p: PubKey) {
    VerifiesFor(n, e, p) && e.channelId in book ==> exists c :: c in ChannelsOf(n, p) && c.id == e.channelId
  }

  lemma {:induction false} RatchetedOnce(cs: seq<IncomingChannel>, updates: seq<ChannelUpdate>)
    requires GrantProperties.AllRatchet(cs, updates)
    ensures Once(updates)
  {
    if updates != [] {
      hide GrantProperties.Ratchets;
      RatchetedOnce(cs, updates[1..]);
      forall j | 0 < j < |updates| ensures updates[0].channelId != updates[j].channelId {
        assert updates[j] == updates[1..][j - 1] && updates[j] in updates[1..];
      }
      forall i, j | 0 <= i < j < |updates| ensures updates[i].channelId != updates[j].channelId {
        if i > 0 {
          assert updates[1..][i - 1].channelId != updates[1..][j - 1].channelId;
        }
      }
    }
  }

  /** What an honored purchase grants. */
  ghost function GrantedBy(n: Node, e: Event, p: PubKey, now: Millis): nat {
    if Purchases(n, e, p, now) then Judged(n.cfg, Checked(Nodes.Enter(n, p), now), e.msg.topup, ReservedElsewhere(n, p)).grant else 0
  }

  /** An honored purchase ratchets each of its channels, and grants their rise. */
  lemma PurchaseRatchets(n: Node, e: Event, p: PubKey, now: Millis)
    requires Purchases(n, e, p, now)
    ensures e.MessageReceived? && e.msg.MTopUp?
    ensures var cs, updates := ChannelsOf(n, p), e.msg.topup.updates;
      && GrantProperties.AllRatchet(cs, updates) && Once(updates)
      && Rise(cs, GrantProperties.ToRatchets(updates)) >= 0
      && GrantedBy(n, e, p, now) == Saturate(Rise(cs, GrantProperties.ToRatchets(updates)))
  {
    var m, admission := e.msg.topup, Admission(n.cfg.node.grants, ReservedElsewhere(n, p));
    var g := Checked(Nodes.Enter(n, p), now).s.grant;
    hide Evaluate, ReservedElsewhere, GrantProperties.AllRatchet, Rise;
    GrantProperties.HonoredExactlyWhen(g, admission, m.updates, m.windowMs, m.reservedRate);
    RatchetedOnce(g.channels, m.updates);
  }

  lemma StepKeepsBacked(book: Book, n: Node, e: Event, p: PubKey, now: Millis)
    requires NodeSound(n) && Possible(n, e) && Backed(book, n, p) && OpensNew(book, n, e, p)
    ensures var c := Step(n, e, now);
      && Backed(Recorded(book, c.out, p), c.n, p)
      && Recorded(book, c.out, p) == if Purchases(n, e, p, now) then Entered(book, e.msg.topup.updates) else book
  {
    hide Step, NodeSound, Entered, Recorded, Purchases;
    var c := Step(n, e, now);
    StepSigns(n, e, p, now);
    if Purchases(n, e, p, now) {
      PurchaseRatchets(n, e, p, now);
      hide GrantProperties.AllRatchet;
      OneForHim(book, c.out, p, e.msg.topup.updates);
      SignedIsBacked(book, ChannelsOf(n, p), e.msg.topup.updates, ChannelsOf(c.n, p));
    } else {
      NoneForHim(book, c.out, p);
    }
  }

  lemma SignedIsBacked(book: Book, before: seq<IncomingChannel>, updates: seq<ChannelUpdate>, after: seq<IncomingChannel>)
    requires Once(updates) && Signs(before, updates, after) && forall c :: c in before ==> c.signed == At(book, c.id)
    ensures forall d :: d in after ==> d.signed == At(Entered(book, updates), d.id)
  {
    hide Entered;
    forall d | d in after ensures d.signed == At(Entered(book, updates), d.id) {
      assert SignedBy(before, updates, d);
      EnterReads(book, updates, d.id);
    }
  }

  // ------------------------------------------------------------------------
  // Value conserved over every run of the node
  // ------------------------------------------------------------------------

  ghost function Total(book: Book): nat
    decreases |book|
  {
    if book == map[] then 0
    else
      var id :| id in book;
      book[id] + Total(book - {id})
  }

  lemma {:induction false} TotalWithout(book: Book, id: ChannelId)
    ensures Total(book) == At(book, id) + Total(book - {id})
    decreases |book|
  {
    if id !in book {
      assert book - {id} == book;
    } else {
      var other :| other in book && Total(book) == book[other] + Total(book - {other});
      if other != id {
        TotalWithout(book - {other}, id);
        TotalWithout(book - {id}, other);
        assert book - {other} - {id} == book - {id} - {other};
      }
    }
  }

  lemma TotalWith(book: Book, id: ChannelId, total: u64)
    ensures Total(book[id := total]) == Total(book) - At(book, id) + total
  {
    TotalWithout(book, id);
    TotalWithout(book[id := total], id);
    assert book[id := total] - {id} == book - {id};
  }

  /** A purchase entered adds to the book exactly what it raises its channels by. */
  lemma {:induction false} EnteredTotal(book: Book, cs: seq<IncomingChannel>, updates: seq<ChannelUpdate>)
    requires GrantProperties.AllRatchet(cs, updates)
    requires forall u :: u in updates && Find(cs, u.channelId).Some? ==> Find(cs, u.channelId).value.signed == At(book, u.channelId)
    ensures Total(Entered(book, updates)) == Total(book) + Rise(cs, GrantProperties.ToRatchets(updates))
    decreases |updates|
  {
    if updates != [] {
      hide Find, Total;
      var u, rest := updates[0], updates[1..];
      TotalWith(book, u.channelId, u.cumulative);
      assert GrantProperties.ToRatchets(updates)[1..] == GrantProperties.ToRatchets(rest);
      EnteredTotal(book[u.channelId := u.cumulative], cs, rest);
    }
  }

  /** A run in which the host verifies no channel it has recorded something for, unless it is held still. */
  ghost predicate WellHosted(book: Book, n: Node, es: seq<(Event, Millis)>, p: PubKey)
    decreases |es|
  {
    es == [] ||
    var (e, now) := es[0];
    var c := Step(n, e, now);
    Possible(n, e) && OpensNew(book, n, e, p) && WellHosted(Recorded(book, c.out, p), c.n, es[1..], p)
  }

  /** What an honored purchase raises its channels by together fits the 64 bits its grant is counted in. */
  ghost predicate RiseFits(n: Node, e: Event, p: PubKey, now: Millis) {
    Purchases(n, e, p, now) ==> Rise(ChannelsOf(n, p), GrantProperties.ToRatchets(e.msg.topup.updates)) <= U64_MAX
  }

  ghost predicate AllRisesFit(n: Node, es: seq<(Event, Millis)>, p: PubKey)
    decreases |es|
  {
    es == [] || (RiseFits(n, es[0].0, p, es[0].1) && AllRisesFit(Step(n, es[0].0, es[0].1).n, es[1..], p))
  }

  /** The book at the end of a run. */
  ghost function BookAfter(book: Book, n: Node, es: seq<(Event, Millis)>, p: PubKey): Book
    decreases |es|
  {
    if es == [] then book
    else
      var c := Step(n, es[0].0, es[0].1);
      BookAfter(Recorded(book, c.out, p), c.n, es[1..], p)
  }

  /** All that a run grants one payer. */
  ghost function GrantedOver(n: Node, es: seq<(Event, Millis)>, p: PubKey): nat
    decreases |es|
  {
    if es == [] then 0
    else GrantedBy(n, es[0].0, p, es[0].1) + GrantedOver(Step(n, es[0].0, es[0].1).n, es[1..], p)
  }

  lemma StepConserves(book: Book, n: Node, e: Event, p: PubKey, now: Millis)
    requires NodeSound(n) && Possible(n, e) && Backed(book, n, p) && OpensNew(book, n, e, p)
    ensures Total(Recorded(book, Step(n, e, now).out, p)) >= Total(book) + GrantedBy(n, e, p, now)
    ensures Total(Recorded(book, Step(n, e, now).out, p)) == Total(book) + GrantedBy(n, e, p, now) <==> RiseFits(n, e, p, now)
  {
    StepKeepsBacked(book, n, e, p, now);
    hide Step, NodeSound, Purchases, Recorded, Total, Entered;
    if Purchases(n, e, p, now) {
      PurchaseRatchets(n, e, p, now);
      hide GrantProperties.AllRatchet;
      EnteredTotal(book, ChannelsOf(n, p), e.msg.topup.updates);
    }
  }

  /**
    Over any run of the node, whatever connects, pays, fails, leaves and returns: every channel held is
    signed to what the host has on record for it, and what was granted to a payer is at most what its
    record grew by, and exactly that when no one purchase raises its channels by more than a grant can say.
   */
  lemma {:induction false} GrantsAreOnRecord(book: Book, n: Node, es: seq<(Event, Millis)>, p: PubKey)
    requires NodeSound(n) && Backed(book, n, p) && WellHosted(book, n, es, p)
    ensures Backed(BookAfter(book, n, es, p), NodeCapacity.Run(n, es), p)
    ensures Total(BookAfter(book, n, es, p)) >= Total(book) + GrantedOver(n, es, p)
    ensures Total(BookAfter(book, n, es, p)) == Total(book) + GrantedOver(n, es, p) <==> AllRisesFit(n, es, p)
    decreases |es|
  {
    if es != [] {
      var (e, now) := es[0];
      hide Step, NodeSound, Backed, Recorded, Total, GrantedBy, Purchases, OpensNew, NoneDropped, RiseFits;
      StepKeepsBacked(book, n, e, p, now);
      StepConserves(book, n, e, p, now);
      NoEarningsDropped(n, e, now);
      GrantsAreOnRecord(Recorded(book, Step(n, e, now).out, p), Step(n, e, now).n, es[1..], p);
    }
  }

  lemma NewNodeIsBacked(cfg: Config, p: PubKey)
    ensures NodeSound(NewNode(cfg)) && Backed(map[], NewNode(cfg), p)
  {
  }

  /** So from a node with no one, and an empty book. */
  lemma GrantsAreOnRecordFromTheStart(cfg: Config, es: seq<(Event, Millis)>, p: PubKey)
    requires WellHosted(map[], NewNode(cfg), es, p)
    ensures Backed(BookAfter(map[], NewNode(cfg), es, p), NodeCapacity.Run(NewNode(cfg), es), p)
    ensures Total(BookAfter(map[], NewNode(cfg), es, p)) == GrantedOver(NewNode(cfg), es, p) <==> AllRisesFit(NewNode(cfg), es, p)
  {
    NewNodeIsBacked(cfg, p);
    assert Total(map[]) == 0;
    GrantsAreOnRecord(map[], NewNode(cfg), es, p);
  }
}
