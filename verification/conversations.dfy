/**
  What two sessions say to one another. A turn leaves actions for the host to carry out; here are the
  messages among them, what hearing them comes to at the other end, and that each is what the turn has to say.
 */
module Conversations {
  import opened Numbers
  import opened Wrappers
  import opened Wire
  import opened Limits
  import opened Grants
  import opened Buyers
  import opened Sessions
  import opened SessionFrames
  import opened SessionPurchases
  import GrantProperties
  import Nodes

  // ------------------------------------------------------------------------
  // Saying and hearing
  // ------------------------------------------------------------------------

  function Bare(s: PeerSession): Turn {
    Turn(s, 0, [])
  }

  /** The messages for a peer among some actions, in the order they are sent. */
  function Said(out: seq<Action>, peer: PubKey): seq<Message> {
    if out == [] then []
    else (if out[0].Send? && out[0].peer == peer then [out[0].msg] else []) + Said(out[1..], peer)
  }

  lemma {:induction false} SaidMore(a: seq<Action>, b: seq<Action>, peer: PubKey)
    ensures Said(a + b, peer) == Said(a, peer) + Said(b, peer)
    decreases |a|
  {
    if a == [] {
      assert a + b == b;
    } else {
      assert (a + b)[0] == a[0] && (a + b)[1..] == a[1..] + b;
      SaidMore(a[1..], b, peer);
    }
  }

  lemma {:induction false} NothingSaid(out: seq<Action>, peer: PubKey)
    requires forall a :: a in out ==> !a.Send?
    ensures Said(out, peer) == []
  {
    if out != [] {
      assert out[0] in out;
      NothingSaid(out[1..], peer);
    }
  }

  lemma SaidOne(peer: PubKey, msg: Message)
    ensures Said([Send(peer, msg)], peer) == [msg]
  {
    assert [Send(peer, msg)][1..] == [];
  }

  function HearAll(cfg: Config, peer: PubKey, t: Turn, msgs: seq<Message>, now: Millis): Turn
    decreases |msgs|
  {
    if msgs == [] then t else HearAll(cfg, peer, OnMessage(cfg, peer, t, msgs[0], 0, now), msgs[1..], now)
  }

  lemma {:induction false} HearAllMore(cfg: Config, peer: PubKey, t: Turn, a: seq<Message>, b: seq<Message>, now: Millis)
    ensures HearAll(cfg, peer, t, a + b, now) == HearAll(cfg, peer, HearAll(cfg, peer, t, a, now), b, now)
    decreases |a|
  {
    hide OnMessage;
    if a == [] {
      assert a + b == b;
    } else {
      assert (a + b)[1..] == a[1..] + b;
      HearAllMore(cfg, peer, OnMessage(cfg, peer, t, a[0], 0, now), a[1..], b, now);
    }
  }

  /** What a payer makes of a confirmation or a refusal, before it looks whether to buy. */
  function Took(s: PeerSession, msg: Message, holdMs: u64, now: Millis): PeerSession {
    var heard := s.(lastSeen := now);
    match msg
    case MChannelReady(id) =>
      var b := if s.buyer.IsActive(id) then s.buyer else s.buyer.Confirmed(id);
      heard.(buyer := b, keptByPeer := s.keptByPeer || b.IsActive(id))
    case MRolloverReady(_, id) => heard.(buyer := s.buyer.Confirmed(id))
    case MTopUpReject(m) => heard.(buyer := s.buyer.RecordReject(ToRefused(m.refused), m.reason, m.maxReservedRate, now, holdMs))
    case _ => heard
  }

  /** Hearing one ends in a poll. */
  lemma HearingEndsInAPoll(cfg: Config, peer: PubKey, t: Turn, msg: Message, elsewhere: u64, now: Millis)
    requires msg.MChannelReady? || msg.MRolloverReady? || msg.MTopUpReject?
    ensures OnMessage(cfg, peer, t, msg, elsewhere, now) == PollBuyer(cfg, peer, t.(s := Took(t.s, msg, cfg.buying.capHoldMs, now)), now)
  {
    hide PollBuyer;
  }

  // ------------------------------------------------------------------------
  // What a purchase is sent as
  // ------------------------------------------------------------------------

  /** The purchases the host is asked to sign and send. */
  function TopUpsIn(out: seq<Action>): seq<Action> {
    if out == [] then [] else (if out[0].SignAndSendTopUp? then [out[0]] else []) + TopUpsIn(out[1..])
  }

  lemma {:induction false} TopUpsMore(a: seq<Action>, b: seq<Action>)
    ensures TopUpsIn(a + b) == TopUpsIn(a) + TopUpsIn(b)
    decreases |a|
  {
    if a == [] {
      assert a + b == b;
    } else {
      assert (a + b)[0] == a[0] && (a + b)[1..] == a[1..] + b;
      TopUpsMore(a[1..], b);
    }
  }

  /** The TopUp a host makes of it: the totals signed, and the window and rate as they are. */
  ghost predicate SignedFrom(a: Action, m: TopUp) {
    && a.SignAndSendTopUp?
    && GrantProperties.ToRatchets(m.updates) == a.ratchets && m.windowMs == a.windowMs && m.reservedRate == a.reservedRate
  }

  /** The payer's record once it has stopped paying on what is about to expire. */
  function Retired(cfg: Config, b: Buyer, now: Millis): Buyer {
    b.RetireExpiring(now, cfg.node.safetyMarginMs, cfg.node.SettleLeadMs())
  }

  /** What the payer decides on now, if it may buy at all. */
  function Decided(cfg: Config, s: PeerSession, now: Millis): Option<Purchase> {
    if s.offer.None? || s.offer.value.noCharge || s.refusedTerms then None
    else Poll(Retired(cfg, s.buyer, now), cfg.buying, DemandOf(s, s.offer.value.terms), now)
  }

  /**
    Inside the safety margin a channel gives way to the one behind it, and once the peer is due to settle it,
    half the margin before it expires, nothing is signed on it at all.
   */
  lemma RetiresInTime(cfg: Config, s: PeerSession, now: Millis)
    requires s.buyer.active.Some?
    ensures var c, b := s.buyer.active.value, Retired(cfg, s.buyer, now);
      var left := if c.expiresAt.Some? then c.expiresAt.value - now else U64_MAX + 1;
      && (left > cfg.node.safetyMarginMs ==> b.active == s.buyer.active && b.next == s.buyer.next)
      && (left <= cfg.node.safetyMarginMs && s.buyer.next.Some? ==> b.active == s.buyer.next && b.next.None?)
      && (left <= cfg.node.safetyMarginMs / 2 && s.buyer.next.None? && now + cfg.node.safetyMarginMs <= U64_MAX ==> Decided(cfg, s, now).None?)
      && (Decided(cfg, s, now).Some? ==> b.active.Some? && Decided(cfg, s, now).value.first.id == b.active.value.id)
  {
    hide ToReserve, Why, DemandOf;
  }

  /** The purchase itself: all its totals, first to last, for its window and at its rate. */
  ghost predicate Asks(a: Action, peer: PubKey, p: Purchase) {
    && a.SignAndSendTopUp? && a.peer == peer && a.windowMs == p.windowMs && a.reservedRate == p.reservedRate
    && |a.ratchets| == (if p.second.Some? then 2 else 1)
    && a.ratchets[0] == p.first && (p.second.Some? ==> a.ratchets[1] == p.second.value)
  }

  /** What a purchase fills is settled with its own expiry, if another channel waits. */
  ghost function Drained(b: Buyer, p: Purchase, peer: PubKey): seq<Action> {
    if b.active.Some? && b.next.Some? && p.first.cumulative >= b.active.value.capacity
    then [SettleChannel(peer, b.active.value.id, b.active.value.expiresAt)] else []
  }

  lemma RecordRetires(b: Buyer, p: Purchase, now: Millis)
    ensures b.Record(p, now).1 ==
      if b.active.Some? && b.next.Some? && p.first.cumulative >= b.active.value.capacity then Some(b.active.value.id) else None
  {
    hide Second.Close;
  }

  /**
    A poll asks the host for exactly one TopUp when a purchase is decided on, and that one is the purchase
    it records; and for none when it is not. Besides it settles the channel the purchase filled.
   */
  lemma PollSays(cfg: Config, peer: PubKey, t: Turn, now: Millis)
    ensures var b, d, after := Retired(cfg, t.s.buyer, now), Decided(cfg, t.s, now), PollBuyer(cfg, peer, t, now);
      if d.None? then after.out == t.out
      else
        && |after.out| > |t.out| && Asks(after.out[|t.out|], peer, d.value)
        && after.out == t.out + [after.out[|t.out|]] + Drained(b, d.value, peer)
        && after.s.buyer == b.Record(d.value, now).0
  {
    hide Poll, DemandOf, Buyer.Record;
    var d := Decided(cfg, t.s, now);
    if d.Some? {
      RecordRetires(Retired(cfg, t.s.buyer, now), d.value, now);
    }
  }

  lemma PollSaysOnce(cfg: Config, peer: PubKey, t: Turn, now: Millis)
    ensures var after := PollBuyer(cfg, peer, t, now);
      && |TopUpsIn(after.out)| == |TopUpsIn(t.out)| + (if Decided(cfg, t.s, now).Some? then 1 else 0)
      && Said(after.out, peer) == Said(t.out, peer)
  {
    hide PollBuyer, Decided;
    PollSays(cfg, peer, t, now);
    var d, after := Decided(cfg, t.s, now), PollBuyer(cfg, peer, t, now);
    if d.Some? {
      var a, settled := after.out[|t.out|], Drained(Retired(cfg, t.s.buyer, now), d.value, peer);
      assert [a][1..] == [] && (settled != [] ==> settled[1..] == []);
      TopUpsMore(t.out + [a], settled);
      TopUpsMore(t.out, [a]);
      SaidMore(t.out + [a], settled, peer);
      SaidMore(t.out, [a], peer);
    }
  }

  // ------------------------------------------------------------------------
  // What else is said
  // ------------------------------------------------------------------------

  /** The Balance a payer is told the moment it has nothing left. */
  function Gone(s: PeerSession, now: Millis): seq<Message> {
    if s.budgetLive && !s.grant.IsLive(now) && !s.policy.noCharge then [BalanceOf(s, now)] else []
  }

  lemma ShowingSays(cfg: Config, peer: PubKey, s: PeerSession, now: Millis)
    ensures Said(GateActions(peer, s, now) + GoneActions(peer, s, now) + SpeedActions(cfg, peer, s, now), peer) == Gone(s, now)
  {
    hide RateOf, BalanceOf, AccessOf, Grant.IsLive;
    var gate, gone, speed := GateActions(peer, s, now), GoneActions(peer, s, now), SpeedActions(cfg, peer, s, now);
    SaidMore(gate + gone, speed, peer);
    SaidMore(gate, gone, peer);
    NothingSaid(gate, peer);
    NothingSaid(speed, peer);
    NothingSaid([SaveBudget(peer, NO_BUDGET)], peer);
    assert gone != [] ==> gone[1..] == [SaveBudget(peer, NO_BUDGET)];
  }

  lemma RefreshSays(cfg: Config, peer: PubKey, t: Turn, now: Millis)
    ensures Said(Refresh(cfg, peer, t, now).out, peer) == Said(t.out, peer) + Gone(t.s, now)
  {
    hide Refresh, GateActions, GoneActions, SpeedActions, Gone, Said;
    RefreshActs(cfg, peer, t, now);
    ShowingSays(cfg, peer, t.s, now);
    SaidMore(t.out, GateActions(peer, t.s, now) + GoneActions(peer, t.s, now) + SpeedActions(cfg, peer, t.s, now), peer);
  }

  lemma {:induction false} SettlingSaysNothing(peer: PubKey, cs: seq<IncomingChannel>, ids: seq<ChannelId>)
    ensures forall a :: a in SettleEach(peer, cs, ids).1 ==> a.SettleChannel?
    decreases |ids|
  {
    if ids != [] {
      SettlingSaysNothing(peer, Remove(cs, ids[0]), ids[1..]);
    }
  }

  lemma SettleSays(peer: PubKey, t: Turn, ids: seq<ChannelId>)
    ensures Said(Settle(peer, t, ids).out, peer) == Said(t.out, peer)
  {
    var settled := SettleEach(peer, t.s.grant.channels, ids).1;
    SettlingSaysNothing(peer, t.s.grant.channels, ids);
    hide SettleEach;
    SaidMore(t.out, settled, peer);
    NothingSaid(settled, peer);
  }

  lemma {:induction false} CountingSays(peer: PubKey, t: Turn, ids: seq<ChannelId>)
    ensures Said(CountFailures(peer, t, ids).out, peer) == Said(t.out, peer)
    decreases |ids|
  {
    hide Settle, Grant.RecordFailure;
    if ids != [] {
      var (g, failures) := t.s.grant.RecordFailure(ids[0]);
      var counted := t.(s := t.s.(grant := g));
      SettleSays(peer, counted, [ids[0]]);
      CountingSays(peer, if failures.Some? && failures.value >= MAX_VERIFICATION_FAILURES then Settle(peer, counted, [ids[0]]) else counted, ids[1..]);
    }
  }

  lemma DoesSays(t: Turn, peer: PubKey, msg: Message)
    ensures Said(t.Does(Send(peer, msg)).out, peer) == Said(t.out, peer) + [msg]
  {
    SaidMore(t.out, [Send(peer, msg)], peer);
    SaidOne(peer, msg);
  }

  /** A refusal names each total the purchase did, in order, the rate still free, and why. */
  ghost predicate RefusesFor(r: TopUpReject, m: TopUp, admission: Admission, reason: ReasonCode) {
    && |r.refused| == |m.updates| && r.maxReservedRate == admission.RateAvailable() && r.reason == reason
    && forall i :: 0 <= i < |m.updates| ==> r.refused[i] == RefusedUpdate(m.updates[i].channelId, m.updates[i].cumulative)
  }

  /** How a TopUp is answered: too soon, unverified, refused, or with the budget it leaves. */
  ghost predicate Answers(cfg: Config, t: Turn, m: TopUp, elsewhere: u64, after: PeerSession, msg: Message, now: Millis) {
    var admission := Admission(cfg.node.grants, elsewhere);
    if t.s.grant.TooSoon(now, cfg.node.grants.minTopupGapMs) then msg.MTopUpReject? && RefusesFor(msg.topupReject, m, admission, TooSoon)
    else
      match Judged(cfg, Checked(t, now), m, elsewhere)
      case Accept(_, _) => msg == BalanceOf(after, now)
      case Refuse(reason, _) =>
        if reason == GrantInvalid then msg == MReject(TOPUP, GrantInvalid, None)
        else msg.MTopUpReject? && RefusesFor(msg.topupReject, m, admission, reason)
  }

  lemma RefusalIsForIt(m: TopUp, admission: Admission, reason: ReasonCode)
    ensures RefusesFor(TopUpReject(RefusedUpdates(m.updates), admission.RateAvailable(), reason), m, admission, reason)
  {
  }

  lemma RefusedWithAvailable(g: Grant, admission: Admission, updates: seq<ChannelUpdate>, windowMs: u64, rate: u64)
    ensures var v := Evaluate(g, admission, updates, windowMs, rate); v.Refuse? ==> v.maxReservedRate == admission.RateAvailable()
  {
  }

  /** Every TopUp is answered, once and first; after a refusal a payer whose budget has just gone is told so too. */
  lemma EveryTopUpIsAnswered(cfg: Config, peer: PubKey, t: Turn, m: TopUp, elsewhere: u64, now: Millis) returns (answer: Message, rest: seq<Message>)
    ensures var after := OnTopUp(cfg, peer, t, m, elsewhere, now);
      && Said(after.out, peer) == Said(t.out, peer) + [answer] + rest && Answers(cfg, t, m, elsewhere, after.s, answer, now)
      && |rest| <= 1 && (rest != [] ==> rest[0].MBalance? && !answer.MBalance?)
  {
    hide Refresh, Honor, Evaluate, CountFailures, NotIncreasing, RefusesFor, Settle;
    var admission := Admission(cfg.node.grants, elsewhere);
    var after, checked := OnTopUp(cfg, peer, t, m, elsewhere, now), Checked(t, now);
    rest := [];
    if t.s.grant.TooSoon(now, cfg.node.grants.minTopupGapMs) {
      answer := MTopUpReject(TopUpReject(RefusedUpdates(m.updates), admission.RateAvailable(), TooSoon));
      RefusalIsForIt(m, admission, TooSoon);
      DoesSays(t, peer, answer);
    } else {
      match Judged(cfg, checked, m, elsewhere)
      case Accept(ratchets, grant) => answer := HonorSays(cfg, peer, checked, m, ratchets, grant, now);
      case Refuse(reason, available) =>
        RefusedWithAvailable(checked.s.grant, admission, m.updates, m.windowMs, m.reservedRate);
        if reason == GrantInvalid {
          answer := MReject(TOPUP, GrantInvalid, None);
          DoesSays(checked, peer, answer);
          var told, ids := checked.Does(Send(peer, answer)), NotIncreasing(checked.s.grant.channels, m.updates, [], []);
          CountingSays(peer, told, ids);
          RefreshSays(cfg, peer, CountFailures(peer, told, ids), now);
          rest := Gone(CountFailures(peer, told, ids).s, now);
        } else {
          answer := MTopUpReject(TopUpReject(RefusedUpdates(m.updates), available, reason));
          RefusalIsForIt(m, admission, reason);
          DoesSays(checked, peer, answer);
          RefreshSays(cfg, peer, checked.Does(Send(peer, answer)), now);
          rest := Gone(checked.s, now);
        }
    }
  }

  lemma HonorSays(cfg: Config, peer: PubKey, t: Turn, m: TopUp, ratchets: seq<Ratchet>, grant: u64, now: Millis) returns (answer: Message)
    ensures var after := Refresh(cfg, peer, Honor(peer, t, m, ratchets, grant, now), now);
      answer == BalanceOf(after.s, now) && Said(after.out, peer) == Said(t.out, peer) + [answer]
  {
    var honored := Honor(peer, t, m, ratchets, grant, now);
    var applied := t.s.grant.Apply(ratchets, grant, m.windowMs, m.reservedRate, now);
    var (cs, settled) := SettleEach(peer, applied.channels, ExhaustedIds(applied.channels));
    HonorActions(peer, t, m, ratchets, grant, now);
    SettlingSaysNothing(peer, applied.channels, ExhaustedIds(applied.channels));
    hide Honor, Grant.Apply, SettleEach, ExhaustedIds;
    answer := BalanceOf(honored.s, now);
    var recorded, saved := [RecordUpdates(peer, m.updates)], if t.s.policy.noCharge then [] else [SaveBudget(peer, applied.BudgetAt(now))];
    SaidMore(t.out + recorded + settled + saved, [Send(peer, answer)], peer);
    SaidMore(t.out + recorded + settled, saved, peer);
    SaidMore(t.out + recorded, settled, peer);
    SaidMore(t.out, recorded, peer);
    NothingSaid(recorded, peer);
    NothingSaid(settled, peer);
    NothingSaid(saved, peer);
    SaidOne(peer, answer);
    RefreshSays(cfg, peer, honored, now);
    assert honored.s.grant.IsLive(now) == applied.IsLive(now);
    SameBalance(cfg, peer, honored, now);
  }

  lemma SameBalance(cfg: Config, peer: PubKey, t: Turn, now: Millis)
    ensures BalanceOf(Refresh(cfg, peer, t, now).s, now) == BalanceOf(t.s, now)
  {
    hide RateOf, Grant.BudgetAt;
  }

  // ------------------------------------------------------------------------
  // Opening a channel
  // ------------------------------------------------------------------------

  /** A payer with a channel in use announces its replacement, and one with none its first. */
  lemma OutgoingFundedSays(cfg: Config, peer: PubKey, t: Turn, id: ChannelId, capacity: u64, expiresAt: Option<Millis>, funding: Bytes, now: Millis)
    ensures Said(OnOutgoingFunded(cfg, peer, t, id, capacity, expiresAt, funding, now).out, peer) == Said(t.out, peer)
      + [if t.s.buyer.active.Some? then MRolloverInit(t.s.buyer.active.value.id, funding) else MAccept(funding)] + Gone(t.s, now)
  {
    hide Refresh, BalanceOf;
    var b := t.s.buyer.FundedWith(id, capacity, expiresAt);
    var msg := if b.active.Some? then MRolloverInit(b.active.value.id, funding) else MAccept(funding);
    DoesSays(t.(s := t.s.(buyer := b)), peer, msg);
    GoneAlike(t.s, t.s.(buyer := b), now);
    RefreshSays(cfg, peer, t.(s := t.s.(buyer := b)).Does(Send(peer, msg)), now);
  }

  lemma GoneAlike(s: PeerSession, s': PeerSession, now: Millis)
    requires s'.grant == s.grant && s'.budgetLive == s.budgetLive && s'.policy == s.policy
    ensures Gone(s', now) == Gone(s, now)
  {
  }

  /** A provider that has verified a channel says so: that it replaces one it holds, or that it is the first. */
  lemma IncomingVerifiedSays(cfg: Config, peer: PubKey, t: Turn, id: ChannelId, capacity: u64, expiresAt: Option<Millis>, now: Millis)
    returns (reply: Message, rest: seq<Message>)
    ensures Said(OnIncomingVerified(cfg, peer, t, id, capacity, expiresAt, now).out, peer) == Said(t.out, peer) + [reply] + rest
    ensures (forall c :: c in t.s.grant.channels ==> c.id == id) ==> reply == MChannelReady(id)
    ensures (exists c :: c in t.s.grant.channels && c.id != id) ==>
      reply.MRolloverReady? && reply.newChannelId == id && reply.oldChannelId != id
      && exists c :: c in t.s.grant.channels && c.id == reply.oldChannelId
  {
    hide Refresh, Grant.OpenChannel;
    var replacing := FirstBesides(t.s.grant.channels, id);
    FirstBesidesReads(t.s.grant.channels, id);
    reply := if replacing.Some? then MRolloverReady(replacing.value, id) else MChannelReady(id);
    var taken := t.(s := t.s.(grant := t.s.grant.OpenChannel(id, capacity, expiresAt), phase := Established));
    DoesSays(taken, peer, reply);
    RefreshSays(cfg, peer, taken.Does(Send(peer, reply)), now);
    rest := Gone(taken.s, now);
  }

  lemma {:induction false} FirstBesidesReads(cs: seq<IncomingChannel>, id: ChannelId)
    ensures FirstBesides(cs, id).None? <==> forall c :: c in cs ==> c.id == id
    ensures FirstBesides(cs, id).Some? ==> FirstBesides(cs, id).value != id && exists c :: c in cs && c.id == FirstBesides(cs, id).value
  {
    if cs != [] {
      FirstBesidesReads(cs[1..], id);
      assert forall c :: c in cs <==> c == cs[0] || c in cs[1..];
    }
  }

  // ------------------------------------------------------------------------
  // The two directions of a link
  // ------------------------------------------------------------------------

  /** What a provider hears of anything but a purchase or a first channel leaves what it sells as it was. */
  lemma BuyingLeavesGrant(cfg: Config, peer: PubKey, t: Turn, msg: Message, elsewhere: u64, now: Millis)
    requires !msg.MTopUp? && !msg.MAccept?
    ensures var s := OnMessage(cfg, peer, t, msg, elsewhere, now).s;
      Leaves(t.s, s, now)
  {
    hide Poll, Buyer.Record, Buyer.RetireExpiring, DemandOf, Buyer.RecordReject, Buyer.Confirmed, Buyer.NoteBalance, RateOf, ExpiryOf, BalanceOf,
      Buyer.StartOver;
    if msg.MOffer? {
      OfferLeavesGrant(cfg, peer, t.(s := t.s.(lastSeen := now)), msg.offer, now);
    }
  }

  /** What is sold, and to whom it is shown. */
  ghost predicate Leaves(s: PeerSession, s': PeerSession, now: Millis) {
    && s'.grant == s.grant && s'.weight == s.weight && s'.meter == s.meter && s'.policy == s.policy
    && (s'.access == s.access || s'.access == AccessOf(s, now))
  }

  lemma LeavesThen(s: PeerSession, u: PeerSession, v: PeerSession, now: Millis)
    requires Leaves(s, u, now) && Leaves(u, v, now)
    ensures Leaves(s, v, now)
  {
  }

  lemma TurnsLeave(cfg: Config, peer: PubKey, t: Turn, now: Millis)
    ensures Leaves(t.s, Refresh(cfg, peer, t, now).s, now) && Leaves(t.s, PollBuyer(cfg, peer, t, now).s, now)
    ensures Leaves(t.s, PollOpening(cfg, peer, t, now).s, now)
  {
    hide Poll, Buyer.Record, Buyer.RetireExpiring, DemandOf, RateOf, BalanceOf, NodePolicy.FirstChannelCapacity;
  }

  lemma OfferLeavesGrant(cfg: Config, peer: PubKey, t: Turn, m: Offer, now: Millis)
    ensures Leaves(t.s, OnOffer(cfg, peer, t, m, now).s, now)
  {
    hide PollBuyer, Refresh, PollOpening, Buyer.StartOver, NodePolicy.FirstChannelCapacity, AccessOf;
    var taken := t.(s := TakeOffer(t.s, m));
    AccessReads(t.s, taken.s, now);
    TurnsLeave(cfg, peer, taken, now);
    if t.s.offer.None? {
      OpeningLeavesGrant(cfg, peer, taken, m, now);
    }
    LeavesThen(t.s, taken.s, OnOffer(cfg, peer, t, m, now).s, now);
  }

  lemma OpeningLeavesGrant(cfg: Config, peer: PubKey, t: Turn, m: Offer, now: Millis)
    ensures Leaves(t.s, OnOpeningOffer(cfg, peer, t, m, now).s, now)
  {
    hide PollBuyer, Refresh, Buyer.StartOver, NodePolicy.FirstChannelCapacity, AccessOf;
    var refused := !m.noCharge && !cfg.buying.AcceptsWeight(m.fromPayerWeight);
    var u := if refused then t.(s := t.s.(refusedTerms := true)).Does(Send(peer, MReject(OFFER, FromPayerWeightUnacceptable, None))) else t;
    var resumed := u.(s := u.s.(buyer := u.s.buyer.ForgetPending(), phase := Established));
    var anew := u.(s := u.s.(buyer := u.s.buyer.StartOver()));
    AccessReads(t.s, resumed.s, now);
    AccessReads(t.s, anew.s, now);
    TurnsLeave(cfg, peer, resumed, now);
    TurnsLeave(cfg, peer, Refresh(cfg, peer, resumed, now), now);
    LeavesThen(resumed.s, Refresh(cfg, peer, resumed, now).s, PollBuyer(cfg, peer, Refresh(cfg, peer, resumed, now), now).s, now);
    TurnsLeave(cfg, peer, anew, now);
    TurnsLeave(cfg, peer, anew.Does(Send(peer, MAccept([]))), now);
    if m.acceptedMints != [] {
      var asked := RequestFunding(peer, anew, m.acceptedMints[0], cfg.node.FirstChannelCapacity(), now);
      AccessReads(t.s, asked.s, now);
      TurnsLeave(cfg, peer, asked, now);
    }
  }

  lemma AccessReads(s: PeerSession, s': PeerSession, now: Millis)
    requires s'.grant == s.grant && s'.policy == s.policy
    ensures AccessOf(s', now) == AccessOf(s, now)
  {
  }

  /** And what a payer hears of what it sells leaves what it buys as it was. */
  lemma SellingLeavesBuyer(cfg: Config, peer: PubKey, t: Turn, msg: Message, elsewhere: u64, now: Millis)
    requires msg.MTopUp? || msg.MAccept? || msg.MRolloverInit? || msg.MChannelClose? || msg.MCloseAck? || msg.MReject? || msg.MAnnounce? || msg.MDisconnect?
    ensures var s := OnMessage(cfg, peer, t, msg, elsewhere, now).s;
      && s.buyer == t.s.buyer && s.offer == t.s.offer && s.refusedTerms == t.s.refusedTerms && s.meter == t.s.meter
  {
    hide Evaluate, RateOf, BalanceOf, ExpiryOf, Discard, Grant.Apply, SettleEach, NotIncreasing, CountFailures, Honor;
    var heard := t.(s := t.s.(lastSeen := now));
    if msg.MTopUp? {
      TopUpLeavesBuyer(cfg, peer, heard, msg.topup, elsewhere, now);
    } else if msg.MAccept? {
      DiscardAside(peer, heard);
    }
  }

  lemma DiscardAside(peer: PubKey, t: Turn)
    ensures Discard(peer, t).s == t.s.(grant := Discard(peer, t).s.grant)
  {
    hide SettleEach;
  }

  lemma {:induction false} CountingAside(peer: PubKey, t: Turn, ids: seq<ChannelId>)
    ensures CountFailures(peer, t, ids).s == t.s.(grant := CountFailures(peer, t, ids).s.grant)
    decreases |ids|
  {
    hide SettleEach, Grant.RecordFailure;
    if ids != [] {
      var (g, failures) := t.s.grant.RecordFailure(ids[0]);
      var counted := t.(s := t.s.(grant := g));
      CountingAside(peer, if failures.Some? && failures.value >= MAX_VERIFICATION_FAILURES then Settle(peer, counted, [ids[0]]) else counted, ids[1..]);
    }
  }

  lemma TopUpLeavesBuyer(cfg: Config, peer: PubKey, t: Turn, m: TopUp, elsewhere: u64, now: Millis)
    ensures var s := OnTopUp(cfg, peer, t, m, elsewhere, now).s;
      && s.buyer == t.s.buyer && s.offer == t.s.offer && s.refusedTerms == t.s.refusedTerms && s.meter == t.s.meter
  {
    hide Evaluate, RateOf, BalanceOf, Grant.Apply, SettleEach, NotIncreasing, CountFailures;
    var told := Checked(t, now).Does(Send(peer, MReject(TOPUP, GrantInvalid, None)));
    CountingAside(peer, told, NotIncreasing(told.s.grant.channels, m.updates, [], []));
  }

  // ------------------------------------------------------------------------
  // A new connection
  // ------------------------------------------------------------------------

  function ReadyMessages(ids: seq<ChannelId>): seq<Message> {
    seq(|ids|, i requires 0 <= i < |ids| => MChannelReady(ids[i]))
  }

  lemma {:induction false} ReadiesSay(peer: PubKey, ids: seq<ChannelId>)
    ensures Said(Nodes.Readies(peer, ids), peer) == ReadyMessages(ids)
  {
    if ids != [] {
      assert ReadyMessages(ids) == [MChannelReady(ids[0])] + ReadyMessages(ids[1..]);
      SaidMore([Send(peer, MChannelReady(ids[0]))], Nodes.Readies(peer, ids[1..]), peer);
      SaidOne(peer, MChannelReady(ids[0]));
      ReadiesSay(peer, ids[1..]);
    }
  }

  function Announcement(cfg: Config): Message {
    MAnnounce(Announce(PROTOCOL_VERSION, cfg.local, cfg.node.unit, 0))
  }

  /** A greeting, before gate and speed are shown. */
  function Greeted(cfg: Config, peer: PubKey, policy: PeerPolicy, t: Turn, now: Millis): Turn {
    var announced := t.DoAll([SetAccess(peer, AccessLevel.Nothing), Send(peer, Announcement(cfg))] + Nodes.Readies(peer, Ids(t.s.grant.channels)));
    var offered := SendOffer(peer, announced, OfferFor(cfg, policy, policy.Weight(cfg.node)));
    if policy.noCharge then offered
    else offered.(s := offered.s.(budgetLive := offered.s.grant.IsLive(now))).Does(Send(peer, BalanceOf(offered.s, now)))
  }

  lemma GreetedSays(cfg: Config, peer: PubKey, policy: PeerPolicy, t: Turn, now: Millis)
    requires t.s.policy == policy
    ensures var told := Greeted(cfg, peer, policy, t, now);
      && Nodes.Greet(cfg, peer, policy, t, now) == Refresh(cfg, peer, told, now) && Gone(told.s, now) == []
      && BalanceOf(told.s, now) == BalanceOf(t.s, now)
      && told.out == t.out + [SetAccess(peer, AccessLevel.Nothing), Send(peer, Announcement(cfg))] + Nodes.Readies(peer, Ids(t.s.grant.channels))
           + [Send(peer, MOffer(OfferFor(cfg, policy, policy.Weight(cfg.node))))] + (if policy.noCharge then [] else [Send(peer, BalanceOf(t.s, now))])
  {
    hide Refresh, OfferFor, Nodes.Readies, Grant.BudgetAt;
  }

  /** Who we are, each channel still held, our terms, and what is left of a budget: in that order. */
  lemma GreetSays(cfg: Config, peer: PubKey, policy: PeerPolicy, t: Turn, now: Millis) returns (rest: seq<Message>)
    requires t.s.policy == policy
    ensures Said(Nodes.Greet(cfg, peer, policy, t, now).out, peer) == Said(t.out, peer) + [Announcement(cfg)] + ReadyMessages(Ids(t.s.grant.channels))
      + [MOffer(OfferFor(cfg, policy, policy.Weight(cfg.node)))] + rest
    ensures rest == if policy.noCharge then [] else [BalanceOf(Nodes.Greet(cfg, peer, policy, t, now).s, now)]
  {
    hide Refresh, BalanceOf, OfferFor, Nodes.Readies, Nodes.Greet, ReadyMessages, Greeted, Said, Ids, Announcement, Gone;
    GreetedSays(cfg, peer, policy, t, now);
    var told, who, ready := Greeted(cfg, peer, policy, t, now), Announcement(cfg), Nodes.Readies(peer, Ids(t.s.grant.channels));
    var offer, left := MOffer(OfferFor(cfg, policy, policy.Weight(cfg.node))), if policy.noCharge then [] else [Send(peer, BalanceOf(t.s, now))];
    var first := [SetAccess(peer, AccessLevel.Nothing), Send(peer, who)];
    SaidMore(t.out + first + ready + [Send(peer, offer)], left, peer);
    SaidMore(t.out + first + ready, [Send(peer, offer)], peer);
    SaidMore(t.out + first, ready, peer);
    SaidMore(t.out, first, peer);
    SaidMore([SetAccess(peer, AccessLevel.Nothing)], [Send(peer, who)], peer);
    assert first == [SetAccess(peer, AccessLevel.Nothing)] + [Send(peer, who)];
    NothingSaid([SetAccess(peer, AccessLevel.Nothing)], peer);
    SaidOne(peer, who);
    SaidOne(peer, offer);
    SaidOne(peer, BalanceOf(t.s, now));
    NothingSaid([], peer);
    ReadiesSay(peer, Ids(t.s.grant.channels));
    RefreshSays(cfg, peer, told, now);
    SameBalance(cfg, peer, told, now);
    rest := if policy.noCharge then [] else [BalanceOf(t.s, now)];
  }

  /** Before the peer's terms are known nothing is bought, and a channel said to be held is remembered. */
  lemma {:induction false} HeardReadies(cfg: Config, peer: PubKey, t: Turn, ids: seq<ChannelId>, now: Millis)
    requires t.s.offer.None? && t.s.buyer.pending.None? && t.s.lastSeen == now
    ensures HearAll(cfg, peer, t, ReadyMessages(ids), now) ==
      t.(s := t.s.(keptByPeer := t.s.keptByPeer || (t.s.buyer.active.Some? && t.s.buyer.active.value.id in ids)))
    decreases |ids|
  {
    if ids != [] {
      assert ReadyMessages(ids)[0] == MChannelReady(ids[0]) && ReadyMessages(ids)[1..] == ReadyMessages(ids[1..]);
      var next := t.(s := t.s.(keptByPeer := t.s.keptByPeer || t.s.buyer.IsActive(ids[0])));
      assert OnMessage(cfg, peer, t, MChannelReady(ids[0]), 0, now) == next;
      HeardReadies(cfg, peer, next, ids[1..], now);
      assert forall id :: id in ids <==> id == ids[0] || id in ids[1..];
    }
  }

  /** An Announce in the same version and unit is taken in silence. */
  lemma AnnounceHeard(cfg: Config, peer: PubKey, t: Turn, other: Config, now: Millis)
    requires other.node.unit == cfg.node.unit
    ensures HearAll(cfg, peer, t, [Announcement(other)], now) == t.(s := t.s.(lastSeen := now))
  {
    assert [Announcement(other)][1..] == [];
  }

  // ------------------------------------------------------------------------
  // Terms, and what ends a session or a channel
  // ------------------------------------------------------------------------

  /** A peer of another version is told so, one that sells something else is sent away, and any other hears nothing. */
  lemma AnnounceIsAnswered(cfg: Config, peer: PubKey, t: Turn, m: Announce, now: Millis)
    ensures Said(OnMessage(cfg, peer, t, MAnnounce(m), 0, now).out, peer) == Said(t.out, peer) +
      (if m.version != PROTOCOL_VERSION then [MReject(0x00, VersionUnsupported, None)]
       else if m.unit != cfg.node.unit then [MDisconnect(UnitNotAccepted)] else [])
  {
    var no, away := Send(peer, MReject(ANNOUNCE, VersionUnsupported, None)), Send(peer, MDisconnect(UnitNotAccepted));
    assert [no, DropPeer(peer)][1..] == [DropPeer(peer)] && [away, DropPeer(peer)][1..] == [DropPeer(peer)];
    NothingSaid([DropPeer(peer)], peer);
    SaidMore(t.out, [no, DropPeer(peer)], peer);
    SaidMore(t.out, [away, DropPeer(peer)], peer);
  }

  /** When a channel with this peer expires: one it pays us on, or else one of ours. */
  ghost predicate ExpiresAt(s: PeerSession, id: ChannelId, expiresAt: Option<Millis>) {
    && (Find(s.grant.channels, id).Some? ==> expiresAt == Find(s.grant.channels, id).value.expiresAt)
    && (Find(s.grant.channels, id).None? ==>
          && (s.buyer.IsActive(id) ==> expiresAt == s.buyer.active.value.expiresAt)
          && (!s.buyer.IsActive(id) && s.buyer.next.Some? && s.buyer.next.value.id == id ==> expiresAt == s.buyer.next.value.expiresAt))
  }

  /** A ChannelClose is acknowledged for the balance it names, and the channel settled with its expiry; a CloseAck settles it too. */
  lemma CloseIsAnswered(cfg: Config, peer: PubKey, t: Turn, id: ChannelId, final: u64, signature: Signature, reason: CloseReason, now: Millis)
    returns (expiresAt: Option<Millis>)
    ensures ExpiresAt(t.s, id, expiresAt)
    ensures OnMessage(cfg, peer, t, MChannelClose(id, final, signature, reason), 0, now).out ==
      t.out + [Send(peer, MCloseAck(id, final)), SettleChannel(peer, id, expiresAt)]
    ensures OnMessage(cfg, peer, t, MCloseAck(id, final), 0, now).out == t.out + [SettleChannel(peer, id, expiresAt)]
  {
    expiresAt := ExpiryOf(t.s, id);
  }

  /** What this payer asks its host for: a channel, in a mint and of a size. */
  function Funds(out: seq<Action>): seq<Action> {
    if out == [] then [] else (if out[0].FundChannel? then [out[0]] else []) + Funds(out[1..])
  }

  /**
    A peer's terms. A weight above what we buy at is refused, and nothing is bought or asked for. A channel both
    still hold is carried on with. Otherwise a channel is asked for if there is anything to buy and a mint to buy
    it in, and if not the peer is told that there will be none.
   */
  lemma OpeningOfferIsAnswered(cfg: Config, peer: PubKey, s: PeerSession, m: Offer, now: Millis)
    requires s.offer.None? && !s.refusedTerms
    ensures var after, told := OnMessage(cfg, peer, Bare(s), MOffer(m), 0, now), Gone(s, now);
      var said, costly := Said(after.out, peer), !m.noCharge && cfg.buying.maxFromPayerWeight.Some? && m.fromPayerWeight > cfg.buying.maxFromPayerWeight.value;
      var buys := !m.noCharge && (if cfg.buying.reserve then cfg.buying.maxRate > 0 else cfg.buying.budget > 0);
      if costly then
        said == [MReject(0x01, FromPayerWeightUnacceptable, None)] + told && after.s.refusedTerms && Funds(after.out) == [] && TopUpsIn(after.out) == []
      else
        && !after.s.refusedTerms
        && if s.buyer.active.Some? && s.keptByPeer && buys then said == told && Funds(after.out) == []
           else if buys && m.acceptedMints != [] then
             said == told && TopUpsIn(after.out) == [] &&
             Funds(after.out) == [FundChannel(peer, 0, m.acceptedMints[0], cfg.node.FirstChannelCapacity())]
           else said == [MAccept([])] + told && Funds(after.out) == [] && TopUpsIn(after.out) == []
  {
    hide Refresh, PollBuyer, Gone, BalanceOf, NodePolicy.FirstChannelCapacity, Said, Funds, TopUpsIn;
    var t := Bare(s.(lastSeen := now));
    var taken := t.(s := TakeOffer(t.s, m));
    var no := Send(peer, MReject(OFFER, FromPayerWeightUnacceptable, None));
    var refused := !m.noCharge && !cfg.buying.AcceptsWeight(m.fromPayerWeight);
    var u := if refused then taken.(s := taken.s.(refusedTerms := true)).Does(no) else taken;
    var buying := !m.noCharge && !refused && cfg.buying.Buying();
    Nothing(peer);
    One(peer, no);
    One(peer, Send(peer, MAccept([])));
    assert [] + [no] == [no];
    if s.buyer.active.Some? && s.keptByPeer && buying {
      var resumed := u.(s := u.s.(buyer := u.s.buyer.ForgetPending(), phase := Established));
      GoneAlike(s, resumed.s, now);
      ShownSays(cfg, peer, resumed, now);
      var shown := Refresh(cfg, peer, resumed, now);
      PollSaysOnce(cfg, peer, shown, now);
      PollAsksNothing(cfg, peer, shown, now);
    } else {
      var anew := u.(s := u.s.(buyer := u.s.buyer.StartOver()));
      GoneAlike(s, anew.s, now);
      if refused {
        ShownSays(cfg, peer, anew, now);
      } else if m.acceptedMints != [] && buying {
        var a := FundChannel(peer, 0, m.acceptedMints[0], cfg.node.FirstChannelCapacity());
        var asked := RequestFunding(peer, anew, m.acceptedMints[0], cfg.node.FirstChannelCapacity(), now);
        One(peer, a);
        assert asked.out == [a] by { assert [] + [a] == [a]; }
        GoneAlike(s, asked.s, now);
        ShownSays(cfg, peer, asked, now);
      } else {
        var none := Send(peer, MAccept([]));
        assert anew.Does(none).out == [none] by { assert [] + [none] == [none]; }
        ShownSays(cfg, peer, anew.Does(none), now);
      }
    }
  }

  lemma Nothing(peer: PubKey)
    ensures Said([], peer) == [] && Funds([]) == [] && TopUpsIn([]) == []
  {
  }

  lemma One(peer: PubKey, a: Action)
    requires a.peer == peer
    ensures Said([a], peer) == (if a.Send? then [a.msg] else []) && Funds([a]) == (if a.FundChannel? then [a] else []) && TopUpsIn([a]) == (if a.SignAndSendTopUp? then [a] else [])
  {
    assert [a][1..] == [];
  }

  lemma {:induction false} FundsMore(a: seq<Action>, b: seq<Action>)
    ensures Funds(a + b) == Funds(a) + Funds(b)
    decreases |a|
  {
    if a == [] {
      assert a + b == b;
    } else {
      assert (a + b)[0] == a[0] && (a + b)[1..] == a[1..] + b;
      FundsMore(a[1..], b);
    }
  }

  lemma {:induction false} NothingAsked(out: seq<Action>)
    requires forall a :: a in out ==> !a.FundChannel? && !a.SignAndSendTopUp?
    ensures Funds(out) == [] && TopUpsIn(out) == []
  {
    if out != [] {
      assert out[0] in out;
      NothingAsked(out[1..]);
    }
  }

  /** Showing access and speed says what is gone, and asks for nothing. */
  lemma ShownSays(cfg: Config, peer: PubKey, t: Turn, now: Millis)
    ensures var after := Refresh(cfg, peer, t, now);
      Said(after.out, peer) == Said(t.out, peer) + Gone(t.s, now) && Funds(after.out) == Funds(t.out) && TopUpsIn(after.out) == TopUpsIn(t.out)
      && after.s.refusedTerms == t.s.refusedTerms
  {
    hide RateOf, BalanceOf, AccessOf, Said, Gone, Funds, TopUpsIn;
    RefreshSays(cfg, peer, t, now);
    RefreshActs(cfg, peer, t, now);
    var shown := GateActions(peer, t.s, now) + GoneActions(peer, t.s, now) + SpeedActions(cfg, peer, t.s, now);
    NothingAsked(shown);
    FundsMore(t.out, shown);
    TopUpsMore(t.out, shown);
  }

  lemma PollAsksNothing(cfg: Config, peer: PubKey, t: Turn, now: Millis)
    ensures Funds(PollBuyer(cfg, peer, t, now).out) == Funds(t.out) && PollBuyer(cfg, peer, t, now).s.refusedTerms == t.s.refusedTerms
  {
    hide Decided;
    PollSays(cfg, peer, t, now);
    PollLeavesTerms(cfg, peer, t, now);
    hide PollBuyer;
    var d, after := Decided(cfg, t.s, now), PollBuyer(cfg, peer, t, now);
    if d.Some? {
      var a, settled := after.out[|t.out|], Drained(Retired(cfg, t.s.buyer, now), d.value, peer);
      NoneFunded([a]);
      NoneFunded(settled);
      FundsMore(t.out + [a], settled);
      FundsMore(t.out, [a]);
    }
  }

  lemma {:induction false} NoneFunded(out: seq<Action>)
    requires forall a :: a in out ==> !a.FundChannel?
    ensures Funds(out) == []
  {
    if out != [] {
      assert out[0] in out;
      NoneFunded(out[1..]);
    }
  }

  lemma PollLeavesTerms(cfg: Config, peer: PubKey, t: Turn, now: Millis)
    ensures PollBuyer(cfg, peer, t, now).s.refusedTerms == t.s.refusedTerms
  {
    hide Poll, DemandOf, Buyer.Record, Buyer.RetireExpiring;
  }

  /** A revision replaces every term but the weight, which is the opening Offer's for as long as the session lasts. */
  lemma RevisionKeepsWeight(cfg: Config, peer: PubKey, t: Turn, m: Offer, now: Millis)
    requires t.s.offer.Some?
    ensures OnMessage(cfg, peer, t, MOffer(m), 0, now).s.offer ==
      Some(PeerOffer(m.acceptedMints, m.unit,
                     Terms(m.minWindowMs, m.maxWindowMs, m.minReservedRate, m.minTopupGapMs, t.s.offer.value.terms.fromPayerWeight), m.noCharge))
  {
    hide NodePolicy.FirstChannelCapacity;
  }

  /** A TopUp whose signature does not verify is answered as one that does not ratchet. */
  lemma UnverifiedIsAnswered(cfg: Config, peer: PubKey, t: Turn, ids: seq<ChannelId>, now: Millis) returns (rest: seq<Message>)
    ensures Said(OnUnverified(cfg, peer, t, ids, now).out, peer) == Said(t.out, peer) + [MReject(0x04, GrantInvalid, None)] + rest
    ensures |rest| <= 1 && (rest != [] ==> rest[0].MBalance?)
  {
    hide CountFailures, Refresh, Said;
    var told := t.Does(Send(peer, MReject(TOPUP, GrantInvalid, None)));
    DoesSays(t, peer, MReject(TOPUP, GrantInvalid, None));
    CountingSays(peer, told, ids);
    RefreshSays(cfg, peer, CountFailures(peer, told, ids), now);
    rest := Gone(CountFailures(peer, told, ids).s, now);
  }

  /** Funding the host finds wanting, or in a mint we do not take, ends the session for that reason. */
  lemma FundingRefusedIsAnswered(n: Nodes.Node, peer: PubKey, t: Turn, reason: ReasonCode, id: ChannelId, capacity: u64, expiresAt: Option<Millis>,
                                 mint: Text, free: u64, now: Millis)
    ensures var after := Nodes.OnSession(n, t, Nodes.IncomingFundingRejected(peer, reason), free, now);
      Said(after.out, peer) == Said(t.out, peer) + [MDisconnect(reason)] && after.s.phase.Closing? && DropPeer(peer) in after.out
    ensures mint !in n.cfg.node.acceptedMints ==>
      (var after := Nodes.OnSession(n, t, Nodes.IncomingFundingVerified(peer, id, capacity, expiresAt, mint), free, now);
       Said(after.out, peer) == Said(t.out, peer) + [MDisconnect(MintNotAccepted)] && after.s.phase.Closing? && DropPeer(peer) in after.out)
  {
    hide Said;
    SentAwaySays(peer, t, reason);
    SentAwaySays(peer, t, MintNotAccepted);
    hide OnIncomingVerified;
  }

  lemma SentAwaySays(peer: PubKey, t: Turn, reason: ReasonCode)
    ensures Said(t.DoAll(Rejected(peer, reason)).out, peer) == Said(t.out, peer) + [MDisconnect(reason)]
  {
    SaidMore(t.out, Rejected(peer, reason), peer);
    assert Rejected(peer, reason)[1..] == [DropPeer(peer)];
    NothingSaid([DropPeer(peer)], peer);
  }
}
