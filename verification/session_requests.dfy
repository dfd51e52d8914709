/**
  What a session asks the host to fund, and what its buyer keeps of that: every turn extends the
  range of open requests by exactly what it asks for, and only two kinds of event close it.
 */
module SessionRequests {
  import opened Numbers
  import opened Wrappers
  import opened Wire
  import opened Limits
  import opened Grants
  import opened Buyers
  import opened Sessions
  import opened Nodes
  import SessionFrames
  import opened NodeEarnings

  // ------------------------------------------------------------------------
  // Requests asked, and what a buyer knows of them
  // ------------------------------------------------------------------------

  /** The funding requests for one peer among some actions. */
  function Asks(out: seq<Action>, peer: PubKey): set<u64> {
    set a | a in out && a.FundChannel? && a.peer == peer :: a.request
  }

  /** No request took the last id there is: ids are not yet used again from zero. */
  ghost predicate NoneLast(out: seq<Action>) {
    forall a :: a in out && a.FundChannel? ==> a.request < U64_MAX
  }

  /** From `f`, with these requests asked since: the range kept covers them all and starts where it did. */
  ghost predicate Extended(f: Option<FundingRequests>, asks: set<u64>, f': Option<FundingRequests>) {
    if asks == {} then
      (f.None? <==> f'.None?) && (f.Some? ==> f'.value.first == f.value.first && f'.value.latest == f.value.latest)
    else
      && f'.Some? && f'.value.latest in asks && (forall r :: r in asks ==> r <= f'.value.latest)
      && (if f.Some? then f'.value.first == f.value.first
          else f'.value.first in asks && forall r :: r in asks ==> f'.value.first <= r)
  }

  /** A turn of one session that began with the requests `f` and `next` the next id. */
  ghost predicate Since(peer: PubKey, f: Option<FundingRequests>, next: u64, t: Turn) {
    NoneLast(t.out) ==>
      (&& next <= t.nextRequest
       && (forall a :: a in t.out && a.FundChannel? ==> a.peer == peer && next <= a.request < t.nextRequest)
       && Extended(f, Asks(t.out, peer), t.s.buyer.funding))
  }

  /** Nothing is asked for, and the requests open stay as they are. */
  ghost predicate Quiet(t: Turn, t': Turn) {
    && t'.nextRequest == t.nextRequest
    && (forall a: Action :: a.FundChannel? ==> (a in t'.out <==> a in t.out))
    && Extended(t.s.buyer.funding, {}, t'.s.buyer.funding)
  }

  lemma QuietKeeps(peer: PubKey, f: Option<FundingRequests>, next: u64, t: Turn, t': Turn)
    requires Since(peer, f, next, t) && Quiet(t, t')
    ensures Since(peer, f, next, t')
  {
    assert NoneLast(t'.out) <==> NoneLast(t.out);
    assert Asks(t'.out, peer) == Asks(t.out, peer);
  }

  lemma QuietThen(t: Turn, u: Turn, v: Turn)
    requires Quiet(t, u) && Quiet(u, v)
    ensures Quiet(t, v)
  {
  }

  lemma RequestKeeps(peer: PubKey, f: Option<FundingRequests>, next: u64, t: Turn, mintUrl: Text, capacity: u64, now: Millis)
    requires Since(peer, f, next, t)
    ensures Since(peer, f, next, RequestFunding(peer, t, mintUrl, capacity, now))
  {
    var t' := RequestFunding(peer, t, mintUrl, capacity, now);
    var asked := FundChannel(peer, t.nextRequest, mintUrl, capacity);
    assert t'.out == t.out + [asked];
    if NoneLast(t'.out) {
      assert asked in t'.out && asked.request < U64_MAX;
      assert NoneLast(t.out);
      assert Asks(t'.out, peer) == Asks(t.out, peer) + {t.nextRequest};
      assert forall r :: r in Asks(t.out, peer) ==> next <= r < t.nextRequest;
    }
  }

  // ------------------------------------------------------------------------
  // Each turn of a session
  // ------------------------------------------------------------------------

  lemma RefreshIsQuiet(cfg: Config, peer: PubKey, t: Turn, now: Millis)
    ensures Quiet(t, Refresh(cfg, peer, t, now))
  {
    hide RateOf, AccessOf, BalanceOf, Grant.IsLive;
  }

  lemma PollBuyerIsQuiet(cfg: Config, peer: PubKey, t: Turn, now: Millis)
    ensures Quiet(t, PollBuyer(cfg, peer, t, now))
  {
    hide Poll, DemandOf, Second.Close;
  }

  lemma PollRolloverKeeps(cfg: Config, peer: PubKey, f: Option<FundingRequests>, next: u64, t: Turn, now: Millis)
    requires Since(peer, f, next, t)
    ensures Since(peer, f, next, PollRollover(cfg, peer, t, now))
  {
    if t.s.offer.Some? {
      var reason := t.s.buyer.RolloverDue(cfg.node.rolloverThresholdPct, now, cfg.node.safetyMarginMs);
      if reason.Some? && t.s.buyer.active.Some? && t.s.offer.value.acceptedMints != [] {
        var capacity := t.s.buyer.active.value.capacity;
        RequestKeeps(peer, f, next, t, t.s.offer.value.acceptedMints[0],
                     if reason.value.Capacity? then cfg.node.GrownCapacity(capacity) else cfg.node.ClampCapacity(capacity), now);
      }
    }
    hide Since, RequestFunding, Buyer.RolloverDue, NodePolicy.GrownCapacity;
  }

  lemma PollOpeningKeeps(cfg: Config, peer: PubKey, f: Option<FundingRequests>, next: u64, t: Turn, now: Millis)
    requires Since(peer, f, next, t)
    ensures Since(peer, f, next, PollOpening(cfg, peer, t, now))
  {
    if t.s.offer.Some? && t.s.offer.value.acceptedMints != [] {
      RequestKeeps(peer, f, next, t, t.s.offer.value.acceptedMints[0], cfg.node.FirstChannelCapacity(), now);
    }
    hide Since, RequestFunding;
  }

  /** Settling asks the host to settle, and nothing else. */
  lemma SettlingIsQuiet(peer: PubKey, t: Turn, ids: seq<ChannelId>)
    ensures Quiet(t, Settle(peer, t, ids)) && Settle(peer, t, ids).s.buyer == t.s.buyer
  {
    OnlySettles(peer, t.s.grant.channels, ids);
    hide SettleEach;
  }

  lemma {:induction false} OnlySettles(peer: PubKey, cs: seq<IncomingChannel>, ids: seq<ChannelId>)
    ensures forall a :: a in SettleEach(peer, cs, ids).1 ==> a.SettleChannel?
    decreases |ids|
  {
    if ids != [] {
      OnlySettles(peer, Remove(cs, ids[0]), ids[1..]);
    }
  }

  lemma {:induction false} CountingIsQuiet(peer: PubKey, t: Turn, ids: seq<ChannelId>)
    ensures Quiet(t, CountFailures(peer, t, ids))
    decreases |ids|
  {
    if ids != [] {
      var (g, failures) := t.s.grant.RecordFailure(ids[0]);
      var counted := t.(s := t.s.(grant := g));
      var next := if failures.Some? && failures.value >= MAX_VERIFICATION_FAILURES then Settle(peer, counted, [ids[0]]) else counted;
      SettlingIsQuiet(peer, counted, [ids[0]]);
      hide Settle, Grant.RecordFailure;
      assert Quiet(t, next);
      CountingIsQuiet(peer, next, ids[1..]);
      QuietThen(t, next, CountFailures(peer, next, ids[1..]));
    }
  }

  lemma OnUnverifiedIsQuiet(cfg: Config, peer: PubKey, t: Turn, ids: seq<ChannelId>, now: Millis)
    ensures Quiet(t, OnUnverified(cfg, peer, t, ids, now))
  {
    var told := t.Does(Send(peer, MReject(TOPUP, GrantInvalid, None)));
    CountingIsQuiet(peer, told, ids);
    RefreshIsQuiet(cfg, peer, CountFailures(peer, told, ids), now);
    hide Refresh, CountFailures;
  }

  lemma HonorIsQuiet(peer: PubKey, t: Turn, m: TopUp, ratchets: seq<Ratchet>, grant: u64, now: Millis)
    ensures Quiet(t, Honor(peer, t, m, ratchets, grant, now))
  {
    var applied := t.s.grant.Apply(ratchets, grant, m.windowMs, m.reservedRate, now);
    var recorded := t.(s := t.s.(grant := applied)).Does(RecordUpdates(peer, m.updates));
    SettlingIsQuiet(peer, recorded, ExhaustedIds(applied.channels));
    hide Grant.Apply, Settle, BalanceOf, Grant.BudgetAt, Grant.IsLive;
  }

  lemma OnTopUpIsQuiet(cfg: Config, peer: PubKey, t: Turn, m: TopUp, elsewhere: u64, now: Millis)
    ensures Quiet(t, OnTopUp(cfg, peer, t, m, elsewhere, now))
  {
    var admission := Admission(cfg.node.grants, elsewhere);
    if !t.s.grant.TooSoon(now, cfg.node.grants.minTopupGapMs) {
      var checked := t.(s := t.s.(grant := t.s.grant.TopupChecked(now)));
      match Evaluate(checked.s.grant, admission, m.updates, m.windowMs, m.reservedRate)
      case Accept(ratchets, grant) =>
        HonorIsQuiet(peer, checked, m, ratchets, grant, now);
        RefreshIsQuiet(cfg, peer, Honor(peer, checked, m, ratchets, grant, now), now);
        hide Honor, Refresh, Evaluate;
      case Refuse(reason, available) =>
        var told := checked.Does(Send(peer, MTopUpReject(TopUpReject(RefusedUpdates(m.updates), available, reason))));
        OnUnverifiedIsQuiet(cfg, peer, checked, NotIncreasing(checked.s.grant.channels, m.updates, [], []), now);
        RefreshIsQuiet(cfg, peer, told, now);
        hide OnUnverified, Refresh, Evaluate;
    }
  }

  /** An Offer that opens the session starts paying over, unless it carries on with a channel both hold. */
  ghost predicate StartsOver(cfg: Config, s: PeerSession, msg: Message) {
    msg.MOffer? && s.offer.None? && !SessionFrames.Resumes(cfg, s, msg.offer)
  }

  /** The requests still open after a message that may start over. */
  ghost function KeptBy(cfg: Config, s: PeerSession, msg: Message, f: Option<FundingRequests>): Option<FundingRequests> {
    if StartsOver(cfg, s, msg) then None else f
  }

  function WithFunding(t: Turn, f: Option<FundingRequests>): Turn {
    t.(s := t.s.(buyer := t.s.buyer.(funding := f)))
  }

  lemma OnOfferKeeps(cfg: Config, peer: PubKey, f: Option<FundingRequests>, next: u64, t: Turn, m: Offer, now: Millis)
    requires Since(peer, KeptBy(cfg, t.s, MOffer(m), f), next, WithFunding(t, KeptBy(cfg, t.s, MOffer(m), t.s.buyer.funding)))
    ensures Since(peer, KeptBy(cfg, t.s, MOffer(m), f), next, OnOffer(cfg, peer, t, m, now))
  {
    var taken := t.(s := TakeOffer(t.s, m));
    if t.s.offer.Some? {
      QuietKeeps(peer, f, next, t, taken);
      PollOpeningKeeps(cfg, peer, f, next, taken, now);
    } else if SessionFrames.Resumes(cfg, t.s, m) {
      var resumed := taken.(s := taken.s.(buyer := taken.s.buyer.ForgetPending(), phase := Established));
      QuietKeeps(peer, f, next, t, resumed);
      RefreshIsQuiet(cfg, peer, resumed, now);
      PollBuyerIsQuiet(cfg, peer, Refresh(cfg, peer, resumed, now), now);
      assert OnOffer(cfg, peer, t, m, now) == PollBuyer(cfg, peer, Refresh(cfg, peer, resumed, now), now);
      hide Refresh, PollBuyer, OnOffer;
      QuietKeeps(peer, f, next, resumed, Refresh(cfg, peer, resumed, now));
      QuietKeeps(peer, f, next, Refresh(cfg, peer, resumed, now), OnOffer(cfg, peer, t, m, now));
    } else {
      AnewKeeps(cfg, peer, next, t, taken, m, now);
    }
  }

  lemma AnewKeeps(cfg: Config, peer: PubKey, next: u64, t: Turn, taken: Turn, m: Offer, now: Millis)
    requires StartsOver(cfg, t.s, MOffer(m)) && taken == t.(s := TakeOffer(t.s, m))
    requires Since(peer, None, next, WithFunding(t, None))
    ensures Since(peer, None, next, OnOpeningOffer(cfg, peer, taken, m, now))
  {
    var u := if !m.noCharge && !cfg.buying.AcceptsWeight(m.fromPayerWeight) then
        taken.(s := taken.s.(refusedTerms := true)).Does(Send(peer, MReject(OFFER, FromPayerWeightUnacceptable, None)))
      else taken;
    var buying := !m.noCharge && !u.s.refusedTerms && cfg.buying.Buying();
    var anew := u.(s := u.s.(buyer := u.s.buyer.StartOver()));
    QuietKeeps(peer, None, next, WithFunding(t, None), anew);
    var asked := if u.s.refusedTerms then anew
      else if m.acceptedMints != [] && buying then
        RequestFunding(peer, anew, m.acceptedMints[0], cfg.node.FirstChannelCapacity(), now)
      else anew.Does(Send(peer, MAccept([])));
    if m.acceptedMints != [] {
      RequestKeeps(peer, None, next, anew, m.acceptedMints[0], cfg.node.FirstChannelCapacity(), now);
    }
    QuietKeeps(peer, None, next, anew, anew.Does(Send(peer, MAccept([]))));
    RefreshIsQuiet(cfg, peer, asked, now);
    assert OnOpeningOffer(cfg, peer, taken, m, now) == Refresh(cfg, peer, asked, now);
    hide Refresh, RequestFunding, OnOpeningOffer;
    QuietKeeps(peer, None, next, asked, Refresh(cfg, peer, asked, now));
  }

  lemma PolledIsQuiet(cfg: Config, peer: PubKey, t: Turn, b: Buyer, now: Millis)
    requires Extended(t.s.buyer.funding, {}, b.funding)
    ensures forall kept: bool :: Quiet(t, PollBuyer(cfg, peer, t.(s := t.s.(buyer := b, keptByPeer := kept)), now))
  {
    forall kept: bool
      ensures Quiet(t, PollBuyer(cfg, peer, t.(s := t.s.(buyer := b, keptByPeer := kept)), now))
    {
      PollBuyerIsQuiet(cfg, peer, t.(s := t.s.(buyer := b, keptByPeer := kept)), now);
    }
    hide PollBuyer;
  }

  lemma OtherMessagesAreQuiet(cfg: Config, peer: PubKey, t: Turn, msg: Message, elsewhere: u64, now: Millis)
    requires !msg.MOffer?
    ensures Quiet(t, OnMessage(cfg, peer, t, msg, elsewhere, now))
  {
    hide ExpiryOf, OnTopUp, PollBuyer, ToRefused, Refresh, Settle, OnOffer, Buyer.RetireExpiring;
    var heard := t.(s := t.s.(lastSeen := now));
    match msg
    case MTopUp(m) =>
      OnTopUpIsQuiet(cfg, peer, heard, m, elsewhere, now);
    case MAccept(funding) =>
      SettlingIsQuiet(peer, heard, Ids(heard.s.grant.channels));
      RefreshIsQuiet(cfg, peer, Discard(peer, heard), now);
    case MChannelReady(id) =>
      var b := if heard.s.buyer.IsActive(id) then heard.s.buyer else heard.s.buyer.Confirmed(id);
      PolledIsQuiet(cfg, peer, heard, b, now);
    case MTopUpReject(m) =>
      var b := heard.s.buyer.RecordReject(ToRefused(m.refused), m.reason, m.maxReservedRate, now, cfg.buying.capHoldMs);
      PolledIsQuiet(cfg, peer, heard, b, now);
    case MRolloverReady(_, id) =>
      PolledIsQuiet(cfg, peer, heard, heard.s.buyer.Confirmed(id), now);
    case _ =>
  }

  // ------------------------------------------------------------------------
  // One event, one session
  // ------------------------------------------------------------------------

  /** Whether an event closes every request open for the session it names. */
  ghost predicate Closes(cfg: Config, s: PeerSession, e: Event) {
    || (e.OutgoingChannelFunded? && s.buyer.Answers(e.request))
    || (e.MessageReceived? && StartsOver(cfg, s, e.msg))
  }

  ghost function OpenStill(cfg: Config, s: PeerSession, e: Event): Option<FundingRequests> {
    if Closes(cfg, s, e) then None else s.buyer.funding
  }

  lemma EventAsks(n: Node, t: Turn, e: Event, elsewhere: u64, now: Millis)
    requires AboutOne(e) && t.out == []
    ensures Since(e.peer, OpenStill(n.cfg, t.s, e), t.nextRequest, OnSession(n, t, e, elsewhere, now))
  {
    var cfg, peer, f, next := n.cfg, e.peer, OpenStill(n.cfg, t.s, e), t.nextRequest;
    var after := OnSession(n, t, e, elsewhere, now);
    if Closes(cfg, t.s, e) {
      ClosingAsks(n, t, e, elsewhere, now);
    } else if e.MessageReceived? && e.msg.MOffer? {
      MessageAsks(n, t, e, elsewhere, now);
    } else {
      assert Since(peer, f, next, t) by { assert Asks([], peer) == {}; }
      hide Since, OnSession, StartsOver;
      OthersAreQuiet(n, t, e, elsewhere, now);
      QuietKeeps(peer, f, next, t, after);
    }
  }

  lemma ClosingAsks(n: Node, t: Turn, e: Event, elsewhere: u64, now: Millis)
    requires AboutOne(e) && t.out == [] && Closes(n.cfg, t.s, e)
    ensures Since(e.peer, None, t.nextRequest, OnSession(n, t, e, elsewhere, now))
  {
    if e.MessageReceived? {
      MessageAsks(n, t, e, elsewhere, now);
    } else {
      var b := t.s.buyer.FundedWith(e.channelId, e.capacity, e.expiresAt);
      var told := t.(s := t.s.(buyer := b)).Does(Send(e.peer, if b.active.Some? then MRolloverInit(b.active.value.id, e.funding) else MAccept(e.funding)));
      assert Since(e.peer, None, t.nextRequest, told) by { assert Asks(told.out, e.peer) == {}; }
      RefreshIsQuiet(n.cfg, e.peer, told, now);
      assert OnSession(n, t, e, elsewhere, now) == Refresh(n.cfg, e.peer, told, now);
      hide Since, Refresh, Quiet, OnSession;
      QuietKeeps(e.peer, None, t.nextRequest, told, Refresh(n.cfg, e.peer, told, now));
    }
  }

  lemma OthersAreQuiet(n: Node, t: Turn, e: Event, elsewhere: u64, now: Millis)
    requires AboutOne(e) && !Closes(n.cfg, t.s, e) && !(e.MessageReceived? && e.msg.MOffer?)
    ensures Quiet(t, OnSession(n, t, e, elsewhere, now))
  {
    var cfg, peer := n.cfg, e.peer;
    hide Refresh, PollBuyer, OnMessage, OnUnverified, OnPolicy, OnMetered, OnIncomingVerified;
    match e
    case MessageReceived(_, msg) =>
      OtherMessagesAreQuiet(cfg, peer, t, msg, elsewhere, now);
    case TopUpSignatureInvalid(_, id) =>
      OnUnverifiedIsQuiet(cfg, peer, t.(s := t.s.(lastSeen := now, grant := t.s.grant.TopupChecked(now))), [id], now);
    case IncomingFundingVerified(_, id, capacity, expiresAt, mintUrl) =>
      VerifiedIsQuiet(cfg, peer, t, id, capacity, expiresAt, now);
    case Metered(_, counters, carried) =>
      var drawn := t.(s := OnMetered(t.s, counters, carried, now));
      MeteringIsQuiet(t, counters, carried, now);
      RefreshIsQuiet(cfg, peer, drawn, now);
      QuietThen(t, drawn, Refresh(cfg, peer, drawn, now));
    case DemandObserved(_, rate) =>
      PollBuyerIsQuiet(cfg, peer, t.(s := t.s.(demand := rate)), now);
    case PeerPolicySet(_, policy) =>
      PolicyIsQuiet(cfg, peer, t, policy, now);
    case _ =>
  }

  lemma MessageAsks(n: Node, t: Turn, e: Event, elsewhere: u64, now: Millis)
    requires e.MessageReceived? && e.msg.MOffer? && t.out == []
    ensures Since(e.peer, OpenStill(n.cfg, t.s, e), t.nextRequest, OnSession(n, t, e, elsewhere, now))
  {
    var f := OpenStill(n.cfg, t.s, e);
    var heard := t.(s := t.s.(lastSeen := now));
    assert Since(e.peer, f, t.nextRequest, heard.(s := heard.s.(buyer := heard.s.buyer.(funding := f)))) by {
      assert Asks([], e.peer) == {};
    }
    assert StartsOver(n.cfg, heard.s, e.msg) == StartsOver(n.cfg, t.s, e.msg);
    hide Since;
    assert heard.s.buyer.(funding := heard.s.buyer.funding) == heard.s.buyer;
    OnOfferKeeps(n.cfg, e.peer, f, t.nextRequest, heard, e.msg.offer, now);
  }

  lemma VerifiedIsQuiet(cfg: Config, peer: PubKey, t: Turn, id: ChannelId, capacity: u64, expiresAt: Option<Millis>, now: Millis)
    ensures Quiet(t, OnIncomingVerified(cfg, peer, t, id, capacity, expiresAt, now))
  {
    var replacing := FirstBesides(t.s.grant.channels, id);
    var msg := if replacing.Some? then MRolloverReady(replacing.value, id) else MChannelReady(id);
    var told := t.(s := t.s.(grant := t.s.grant.OpenChannel(id, capacity, expiresAt), phase := Established)).Does(Send(peer, msg));
    RefreshIsQuiet(cfg, peer, told, now);
    hide Refresh, Grant.OpenChannel, FirstBesides;
  }

  lemma MeteringIsQuiet(t: Turn, counters: Counters, carried: bool, now: Millis)
    ensures Quiet(t, t.(s := OnMetered(t.s, counters, carried, now)))
  {
    hide Grant.Draw, Grant.Pause, RateFrom, Second.Read, Counters.Weighted;
  }

  lemma PolicyIsQuiet(cfg: Config, peer: PubKey, t: Turn, policy: PeerPolicy, now: Millis)
    ensures Quiet(t, OnPolicy(cfg, peer, t, policy, now))
  {
    var changed := t.(s := t.s.(policy := policy));
    var revised := OfferFor(cfg, policy, t.s.weight);
    RefreshIsQuiet(cfg, peer, changed, now);
    RefreshIsQuiet(cfg, peer, SendOffer(peer, changed, revised), now);
    hide Refresh, OfferFor;
  }

  lemma TickAsks(cfg: Config, peer: PubKey, t: Turn, now: Millis)
    requires t.out == []
    ensures Since(peer, t.s.buyer.funding, t.nextRequest, OnTick(cfg, peer, t, now))
  {
    var f, next := t.s.buyer.funding, t.nextRequest;
    assert Since(peer, f, next, t) by { assert Asks([], peer) == {}; }
    var expired := t.(s := t.s.(grant := t.s.grant.ExpireIfDue(now)));
    var settled := SettleExpiring(cfg, peer, expired, now);
    var shown := Refresh(cfg, peer, settled, now);
    var bought := PollBuyer(cfg, peer, shown, now);
    SettlingIsQuiet(peer, expired, ExpiringIds(expired.s.grant.channels, now, cfg.node.SettleLeadMs()));
    RefreshIsQuiet(cfg, peer, settled, now);
    PollBuyerIsQuiet(cfg, peer, shown, now);
    hide Since, Refresh, PollBuyer, PollRollover, PollOpening, Settle, ExpiringIds, Grant.ExpireIfDue;
    QuietKeeps(peer, f, next, t, expired);
    QuietKeeps(peer, f, next, expired, settled);
    QuietKeeps(peer, f, next, settled, shown);
    QuietKeeps(peer, f, next, shown, bought);
    PollRolloverKeeps(cfg, peer, f, next, bought, now);
    PollOpeningKeeps(cfg, peer, f, next, PollRollover(cfg, peer, bought, now), now);
  }

  /** A request a tick makes: in a mint the peer takes, for a capacity within the operator's bounds, and only when none is waited on. */
  ghost predicate Wanted(cfg: Config, s: PeerSession, a: Action, now: Millis)
    requires a.FundChannel?
  {
    && s.offer.Some? && a.mintUrl in s.offer.value.acceptedMints
    && (cfg.node.minChannelCapacity <= cfg.node.maxChannelCapacity ==>
          cfg.node.minChannelCapacity <= a.capacity <= cfg.node.maxChannelCapacity)
    && !s.buyer.FundingInFlight(now)
  }

  ghost predicate AsksOnce(cfg: Config, t: Turn, t': Turn, now: Millis) {
    && (forall a :: a in t'.out && a.FundChannel? ==> a in t.out || Wanted(cfg, t.s, a, now))
    && (t'.nextRequest == t.nextRequest ==> forall a :: a in t'.out && a.FundChannel? ==> a in t.out)
    && (t'.nextRequest != t.nextRequest ==>
          t'.s.buyer.FundingInFlight(now) && t'.nextRequest == (if t.nextRequest == U64_MAX then 0 else t.nextRequest + 1))
    && t'.s.offer == t.s.offer
  }

  lemma RolloverAsksOnce(cfg: Config, peer: PubKey, t: Turn, now: Millis)
    ensures AsksOnce(cfg, t, PollRollover(cfg, peer, t, now), now)
  {
    hide Buyer.NeedsRollover, Saturate;
  }

  lemma OpeningAsksOnce(cfg: Config, peer: PubKey, t: Turn, now: Millis)
    ensures AsksOnce(cfg, t, PollOpening(cfg, peer, t, now), now)
    ensures t.s.buyer.FundingInFlight(now) ==> PollOpening(cfg, peer, t, now) == t
  {
  }

  /** A tick asks for at most one channel for a peer, and for none while an answer is still waited on. */
  lemma OneRequestAtATime(cfg: Config, peer: PubKey, t: Turn, now: Millis)
    ensures var bought := PollBuyer(cfg, peer, t, now);
      var polled := PollOpening(cfg, peer, PollRollover(cfg, peer, bought, now), now);
      AsksOnce(cfg, bought, polled, now)
  {
    hide PollBuyer, PollRollover, PollOpening, Wanted, Buyer.FundingInFlight;
    var bought := PollBuyer(cfg, peer, t, now);
    RolloverAsksOnce(cfg, peer, bought, now);
    OpeningAsksOnce(cfg, peer, PollRollover(cfg, peer, bought, now), now);
    if PollRollover(cfg, peer, bought, now).nextRequest == bought.nextRequest {
      SameAsks(cfg, peer, bought, now);
    }
  }

  lemma SameAsks(cfg: Config, peer: PubKey, t: Turn, now: Millis)
    requires PollRollover(cfg, peer, t, now).nextRequest == t.nextRequest
    ensures PollRollover(cfg, peer, t, now) == t
  {
    hide Buyer.RolloverDue, NodePolicy.GrownCapacity;
  }

  // ------------------------------------------------------------------------
  // When a channel is asked for
  // ------------------------------------------------------------------------

  /** A request has been out for less than half a minute, and the host has not said that it failed. */
  ghost predicate Waits(b: Buyer, now: Millis) {
    b.funding.Some? && b.funding.value.since.Some? && SatSub(now, b.funding.value.since.value) < 30_000
  }

  /** The payer buys from this peer and has no channel, in any state. */
  ghost predicate LacksChannel(cfg: Config, s: PeerSession, now: Millis) {
    && !s.phase.Closing? && s.offer.Some? && !s.offer.value.noCharge && !s.refusedTerms && s.offer.value.acceptedMints != []
    && (if cfg.buying.reserve then cfg.buying.maxRate > 0 else cfg.buying.budget > 0)
    && s.buyer.active.None? && s.buyer.next.None? && s.buyer.pending.None? && !Waits(s.buyer, now)
  }

  /** The channel in use has room for no more than two purchases like the last, or is full past the threshold. */
  ghost predicate Fills(c: ChannelBuyer, lastGrant: u64, thresholdPct: nat) {
    c.capacity > 0 && (c.capacity <= c.cumulative + 2 * lastGrant || c.cumulative * 100 >= c.capacity * thresholdPct)
  }

  /** The channel in use fills up or is about to expire, with nothing behind it. */
  ghost predicate LacksNext(cfg: Config, s: PeerSession, now: Millis) {
    && s.offer.Some? && s.offer.value.acceptedMints != [] && s.buyer.active.Some?
    && s.buyer.next.None? && s.buyer.pending.None? && !Waits(s.buyer, now)
    && (Fills(s.buyer.active.value, s.buyer.lastGrant, cfg.node.rolloverThresholdPct) || s.buyer.active.value.Expiring(now, cfg.node.safetyMarginMs))
  }

  ghost function Away(x: u64, y: u64): u64 {
    if x <= y then y - x else x - y
  }

  /** As near to what is wanted as the operator's bounds allow. */
  ghost predicate Nearest(node: NodePolicy, wanted: u64, capacity: u64) {
    && node.minChannelCapacity <= capacity <= node.maxChannelCapacity
    && forall x: u64 :: node.minChannelCapacity <= x <= node.maxChannelCapacity ==> Away(capacity, wanted) <= Away(x, wanted)
  }

  lemma ClampIsNearest(node: NodePolicy, wanted: u64)
    requires node.minChannelCapacity <= node.maxChannelCapacity
    ensures Nearest(node, wanted, node.ClampCapacity(wanted))
  {
  }

  /** A first channel is asked for exactly when the payer has none: in the peer's first mint, as large as is set for one. */
  lemma OpeningAsksIff(cfg: Config, peer: PubKey, t: Turn, now: Millis)
    requires cfg.node.minChannelCapacity <= cfg.node.maxChannelCapacity
    ensures var after := PollOpening(cfg, peer, t, now);
      if LacksChannel(cfg, t.s, now) then
        && |after.out| == |t.out| + 1 && after.out[..|t.out|] == t.out && after.out[|t.out|].FundChannel?
        && var a := after.out[|t.out|];
        && a.peer == peer && a.request == t.nextRequest && a.mintUrl == t.s.offer.value.acceptedMints[0]
        && Nearest(cfg.node, cfg.node.initialChannelCapacity, a.capacity) && Waits(after.s.buyer, now)
      else after == t
  {
    ClampIsNearest(cfg.node, cfg.node.initialChannelCapacity);
    hide NodePolicy.ClampCapacity, Nearest;
  }

  /**
    A replacement is asked for exactly when there is to be one and none is coming: larger by the operator's
    measure if the channel fills up, and as large if it is only running out of time.
   */
  lemma RolloverAsksIff(cfg: Config, peer: PubKey, t: Turn, now: Millis)
    requires cfg.node.minChannelCapacity <= cfg.node.maxChannelCapacity
    ensures var after := PollRollover(cfg, peer, t, now);
      if LacksNext(cfg, t.s, now) then
        && |after.out| == |t.out| + 1 && after.out[..|t.out|] == t.out && after.out[|t.out|].FundChannel?
        && var (a, c) := (after.out[|t.out|], t.s.buyer.active.value);
        && a.peer == peer && a.request == t.nextRequest && a.mintUrl == t.s.offer.value.acceptedMints[0] && Waits(after.s.buyer, now)
        && (if Fills(c, t.s.buyer.lastGrant, cfg.node.rolloverThresholdPct)
            then Nearest(cfg.node, Saturate(c.capacity * cfg.node.capacityGrowthPct / 100), a.capacity)
            else Nearest(cfg.node, c.capacity, a.capacity))
      else after == t
  {
    RolloverDueIff(t.s.buyer, cfg.node.rolloverThresholdPct, now, cfg.node.safetyMarginMs);
    if t.s.buyer.active.Some? {
      ClampIsNearest(cfg.node, t.s.buyer.active.value.capacity);
      ClampIsNearest(cfg.node, Saturate(t.s.buyer.active.value.capacity * cfg.node.capacityGrowthPct / 100));
    }
    hide Buyer.RolloverDue, NodePolicy.ClampCapacity, Nearest, Fills, ChannelBuyer.Expiring;
  }

  lemma RolloverDueIff(b: Buyer, thresholdPct: nat, now: Millis, marginMs: u64)
    ensures var due := b.RolloverDue(thresholdPct, now, marginMs);
      && (due == Some(Capacity) <==> b.active.Some? && b.next.None? && b.pending.None? && !Waits(b, now) && Fills(b.active.value, b.lastGrant, thresholdPct))
      && (due == Some(Expiry) <==> b.active.Some? && b.next.None? && b.pending.None? && !Waits(b, now) && !Fills(b.active.value, b.lastGrant, thresholdPct)
                                   && b.active.value.Expiring(now, marginMs))
  {
  }

  /** So after a tick no payer that buys is left without a channel, in use or coming, nor one that is running out without a next. */
  lemma TickLeavesNoneWithout(cfg: Config, peer: PubKey, t: Turn, now: Millis)
    requires cfg.node.minChannelCapacity <= cfg.node.maxChannelCapacity
    ensures var s := OnTick(cfg, peer, t, now).s; !LacksChannel(cfg, s, now) && !LacksNext(cfg, s, now)
  {
    hide PollBuyer, PollRollover, PollOpening, LacksChannel, LacksNext, Refresh, SettleExpiring;
    var shown := Refresh(cfg, peer, SettleExpiring(cfg, peer, t.(s := t.s.(grant := t.s.grant.ExpireIfDue(now))), now), now);
    var bought := PollBuyer(cfg, peer, shown, now);
    var rolled := PollRollover(cfg, peer, bought, now);
    RolloverAsksIff(cfg, peer, bought, now);
    OpeningAsksIff(cfg, peer, rolled, now);
    WaitingLacksNone(cfg, PollOpening(cfg, peer, rolled, now).s, now);
    WaitingLacksNone(cfg, rolled.s, now);
    OpeningKeepsWaiting(cfg, peer, rolled, now);
  }

  /** Told that the latest request failed, a payer waits on it no longer; told so of an earlier one, it waits on. */
  lemma FailureIsHeard(n: Node, t: Turn, peer: PubKey, request: u64, elsewhere: u64, now: Millis)
    requires Waits(t.s.buyer, now)
    ensures var after := OnSession(n, t, OutgoingFundingFailed(peer, request), elsewhere, now);
      && (Waits(after.s.buyer, now) <==> request != t.s.buyer.funding.value.latest) && after.out == t.out
      && after.s.buyer.funding.Some? && after.s.buyer.funding.value.first == t.s.buyer.funding.value.first
      && after.s.buyer.funding.value.latest == t.s.buyer.funding.value.latest
  {
  }

  lemma WaitingLacksNone(cfg: Config, s: PeerSession, now: Millis)
    ensures Waits(s.buyer, now) ==> !LacksChannel(cfg, s, now) && !LacksNext(cfg, s, now)
  {
  }

  lemma OpeningKeepsWaiting(cfg: Config, peer: PubKey, t: Turn, now: Millis)
    ensures PollOpening(cfg, peer, t, now) == t || Waits(PollOpening(cfg, peer, t, now).s.buyer, now)
  {
    hide NodePolicy.FirstChannelCapacity;
  }

  /**
    The last id there is: asked for under it and then again, as when the first goes unanswered, a session
    counts its requests backwards and takes the answer to neither.
   */
  lemma LastIdIsAnsweredByNone(peer: PubKey, t: Turn, mintUrl: Text, capacity: u64, now: Millis, later: Millis)
    requires t.nextRequest == U64_MAX && t.s.buyer.funding.None?
    ensures var twice := RequestFunding(peer, RequestFunding(peer, t, mintUrl, capacity, now), mintUrl, capacity, later);
      && FundChannel(peer, U64_MAX, mintUrl, capacity) in twice.out && FundChannel(peer, 0, mintUrl, capacity) in twice.out
      && forall r: u64 :: !twice.s.buyer.Answers(r)
  {
    var once := RequestFunding(peer, t, mintUrl, capacity, now);
    assert once.out[|once.out| - 1] == FundChannel(peer, U64_MAX, mintUrl, capacity);
    var twice := RequestFunding(peer, once, mintUrl, capacity, later);
    assert twice.out[|twice.out| - 1] == FundChannel(peer, 0, mintUrl, capacity);
  }
}
