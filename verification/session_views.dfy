/**
  What the host and the peer have been told of a session: whether the peer is carried and how fast, what it
  is charged by, and that the session has ended. Each turn tells exactly what it changed.
 */
module SessionViews {
  import opened Numbers
  import opened Wrappers
  import opened Wire
  import opened Grants
  import opened Buyers
  import opened Sessions
  import opened SessionFrames
  import opened SessionPurchases
  import opened Nodes
  import Conversations
  import GrantProperties

  // ------------------------------------------------------------------------
  // What has been told
  // ------------------------------------------------------------------------

  /** The gate and the speed the host last set for a peer, and the terms the peer was last sent. */
  datatype View = View(access: AccessLevel, rate: Option<u64>, offer: Option<Offer>)

  function Seen(s: PeerSession): View {
    View(s.access, s.appliedRate, s.offerSent)
  }

  function Noted(v: View, a: Action, peer: PubKey): View {
    if a.peer != peer then v
    else
      match a
      case SetAccess(_, access) => v.(access := access)
      case SetShapingRate(_, rate) => v.(rate := Some(rate))
      case Send(_, msg) => if msg.MOffer? then v.(offer := Some(msg.offer)) else v
      case _ => v
  }

  /** What a peer's host and the peer hold to once some actions are carried out, in turn. */
  function Shown(out: seq<Action>, peer: PubKey, v: View): View {
    if out == [] then v else Shown(out[1..], peer, Noted(v, out[0], peer))
  }

  lemma {:induction false} ShownMore(a: seq<Action>, b: seq<Action>, peer: PubKey, v: View)
    ensures Shown(a + b, peer, v) == Shown(b, peer, Shown(a, peer, v))
    decreases |a|
  {
    if a == [] {
      assert a + b == b;
    } else {
      assert (a + b)[1..] == a[1..] + b;
      ShownMore(a[1..], b, peer, Noted(v, a[0], peer));
    }
  }

  predicate Mute(a: Action) {
    !a.SetAccess? && !a.SetShapingRate? && !(a.Send? && a.msg.MOffer?)
  }

  lemma {:induction false} MuteShows(out: seq<Action>, peer: PubKey, v: View)
    requires forall a :: a in out ==> Mute(a) || a.peer != peer
    ensures Shown(out, peer, v) == v
  {
    if out != [] {
      assert out[0] in out;
      MuteShows(out[1..], peer, v);
    }
  }

  // ------------------------------------------------------------------------
  // A turn tells what it changes
  // ------------------------------------------------------------------------

  /** A turn tells the peer's host all that it changed, that the session has ended among it, and nothing of another. */
  ghost predicate Tells(peer: PubKey, t: Turn, t': Turn) {
    && |t.out| <= |t'.out| && t'.out[..|t.out|] == t.out
    && var said := t'.out[|t.out|..];
    && (forall a :: a in said ==> a.peer == peer)
    && Shown(said, peer, Seen(t.s)) == Seen(t'.s)
    && (t'.s.phase.Closing? && !t.s.phase.Closing? ==> DropPeer(peer) in said)
  }

  /** And leaves what the peer is charged by. */
  ghost predicate TellsOn(peer: PubKey, t: Turn, t': Turn) {
    Tells(peer, t, t') && t'.s.policy == t.s.policy && t'.s.weight == t.s.weight && t'.s.offerSent == t.s.offerSent
  }

  lemma TellsThen(peer: PubKey, t: Turn, u: Turn, v: Turn)
    requires Tells(peer, t, u) && Tells(peer, u, v)
    ensures Tells(peer, t, v)
  {
    var a, b := u.out[|t.out|..], v.out[|u.out|..];
    assert v.out == u.out + b && u.out == t.out + a;
    assert v.out[|t.out|..] == a + b;
    ShownMore(a, b, peer, Seen(t.s));
  }

  lemma TellsBy(peer: PubKey, t: Turn, t': Turn, said: seq<Action>)
    requires t'.out == t.out + said && (forall a :: a in said ==> a.peer == peer)
    requires Shown(said, peer, Seen(t.s)) == Seen(t'.s)
    requires t'.s.phase.Closing? && !t.s.phase.Closing? ==> DropPeer(peer) in said
    ensures Tells(peer, t, t')
  {
    assert t'.out[|t.out|..] == said;
  }

  /** One that says nothing of gate, speed or terms, and changes none. */
  lemma QuietTells(peer: PubKey, t: Turn, t': Turn, said: seq<Action>)
    requires t'.out == t.out + said && (forall a :: a in said ==> a.peer == peer && Mute(a)) && Seen(t'.s) == Seen(t.s)
    requires t'.s.phase.Closing? && !t.s.phase.Closing? ==> DropPeer(peer) in said
    ensures Tells(peer, t, t')
  {
    MuteShows(said, peer, Seen(t.s));
    TellsBy(peer, t, t', said);
  }

  lemma SilentTells(peer: PubKey, t: Turn, t': Turn)
    requires t'.out == t.out && Seen(t'.s) == Seen(t.s) && (t'.s.phase.Closing? ==> t.s.phase.Closing?)
    ensures Tells(peer, t, t')
  {
    assert t.out + [] == t.out;
    QuietTells(peer, t, t', []);
  }

  lemma RefreshTells(cfg: Config, peer: PubKey, t: Turn, now: Millis)
    ensures TellsOn(peer, t, Refresh(cfg, peer, t, now))
  {
    RefreshKeeps(cfg, peer, t, now);
    RefreshActs(cfg, peer, t, now);
    ShowingShows(cfg, peer, t.s, Seen(t.s), now);
    hide Refresh, GateActions, GoneActions, SpeedActions, Shown, AccessOf, RateOf;
    TellsBy(peer, t, Refresh(cfg, peer, t, now), GateActions(peer, t.s, now) + GoneActions(peer, t.s, now) + SpeedActions(cfg, peer, t.s, now));
  }

  lemma RefreshKeeps(cfg: Config, peer: PubKey, t: Turn, now: Millis)
    ensures var s := Refresh(cfg, peer, t, now).s;
      s == t.s.(access := AccessOf(t.s, now), appliedRate := Some(RateOf(cfg, t.s, now)), budgetLive := s.budgetLive)
  {
    hide RateOf, BalanceOf, AccessOf;
  }

  /** Showing a session leaves its gate and its speed told, if the ones it stood by were. */
  lemma ShowingShows(cfg: Config, peer: PubKey, s: PeerSession, v: View, now: Millis)
    requires v.access == s.access && (v.rate == s.appliedRate || s.appliedRate.None?)
    ensures var said := GateActions(peer, s, now) + GoneActions(peer, s, now) + SpeedActions(cfg, peer, s, now);
      && Shown(said, peer, v) == v.(access := AccessOf(s, now), rate := Some(RateOf(cfg, s, now)))
      && forall a :: a in said ==> a.peer == peer
  {
    hide RateOf, BalanceOf, AccessOf, Grant.IsLive;
    var gate, gone, speed := GateActions(peer, s, now), GoneActions(peer, s, now), SpeedActions(cfg, peer, s, now);
    BalanceIsMute(peer, s, now);
    ShownMore(gate + gone, speed, peer, v);
    ShownMore(gate, gone, peer, v);
    MuteShows(gone, peer, Shown(gate, peer, v));
    OneShows(peer, SetAccess(peer, AccessOf(s, now)), v);
    OneShows(peer, SetShapingRate(peer, RateOf(cfg, s, now)), v.(access := AccessOf(s, now)));
  }

  lemma OneShows(peer: PubKey, a: Action, v: View)
    ensures Shown([a], peer, v) == Noted(v, a, peer)
  {
    assert [a][1..] == [];
  }

  lemma BalanceIsMute(peer: PubKey, s: PeerSession, now: Millis)
    ensures Mute(Send(peer, BalanceOf(s, now)))
  {
    hide Grant.BudgetAt;
  }

  lemma PollTells(cfg: Config, peer: PubKey, t: Turn, now: Millis)
    ensures TellsOn(peer, t, PollBuyer(cfg, peer, t, now))
  {
    hide Poll, DemandOf, Buyer.Record, Buyer.RetireExpiring;
    var after := PollBuyer(cfg, peer, t, now);
    assert after.out[..|t.out|] == t.out;
    assert after.out == t.out + after.out[|t.out|..];
    QuietTells(peer, t, after, after.out[|t.out|..]);
  }

  lemma RequestTells(peer: PubKey, t: Turn, mintUrl: Text, capacity: u64, now: Millis)
    ensures TellsOn(peer, t, RequestFunding(peer, t, mintUrl, capacity, now))
  {
    QuietTells(peer, t, RequestFunding(peer, t, mintUrl, capacity, now), [FundChannel(peer, t.nextRequest, mintUrl, capacity)]);
  }

  lemma AskingTells(cfg: Config, peer: PubKey, t: Turn, now: Millis)
    ensures TellsOn(peer, t, PollRollover(cfg, peer, t, now)) && TellsOn(peer, t, PollOpening(cfg, peer, t, now))
  {
    hide Buyer.RolloverDue, NodePolicy.GrownCapacity, RequestFunding, NodePolicy.FirstChannelCapacity;
    SilentTells(peer, t, t);
    if t.s.offer.Some? && t.s.offer.value.acceptedMints != [] {
      var mint := t.s.offer.value.acceptedMints[0];
      RequestTells(peer, t, mint, cfg.node.FirstChannelCapacity(), now);
      if t.s.buyer.active.Some? {
        RequestTells(peer, t, mint, cfg.node.GrownCapacity(t.s.buyer.active.value.capacity), now);
        RequestTells(peer, t, mint, cfg.node.ClampCapacity(t.s.buyer.active.value.capacity), now);
      }
    }
  }

  lemma {:induction false} SettlingIsMute(peer: PubKey, cs: seq<IncomingChannel>, ids: seq<ChannelId>)
    ensures forall a :: a in SettleEach(peer, cs, ids).1 ==> a.SettleChannel? && a.peer == peer
    decreases |ids|
  {
    if ids != [] {
      SettlingIsMute(peer, Remove(cs, ids[0]), ids[1..]);
    }
  }

  lemma SettleTells(peer: PubKey, t: Turn, ids: seq<ChannelId>)
    ensures TellsOn(peer, t, Settle(peer, t, ids))
  {
    SettlingIsMute(peer, t.s.grant.channels, ids);
    hide SettleEach;
    QuietTells(peer, t, Settle(peer, t, ids), SettleEach(peer, t.s.grant.channels, ids).1);
  }

  lemma {:induction false} CountingTells(peer: PubKey, t: Turn, ids: seq<ChannelId>)
    ensures TellsOn(peer, t, CountFailures(peer, t, ids))
    decreases |ids|
  {
    hide Settle, Grant.RecordFailure, Tells;
    if ids == [] {
      SilentTells(peer, t, t);
    } else {
      var (g, failures) := t.s.grant.RecordFailure(ids[0]);
      var counted := t.(s := t.s.(grant := g));
      var next := if failures.Some? && failures.value >= MAX_VERIFICATION_FAILURES then Settle(peer, counted, [ids[0]]) else counted;
      SilentTells(peer, t, counted);
      SettleTells(peer, counted, [ids[0]]);
      if next == counted {
        SilentTells(peer, counted, next);
      }
      TellsThen(peer, t, counted, next);
      CountingTells(peer, next, ids[1..]);
      TellsThen(peer, t, next, CountFailures(peer, next, ids[1..]));
    }
  }

  lemma DoesTells(peer: PubKey, t: Turn, t': Turn, a: Action)
    requires t'.out == t.out + [a] && a.peer == peer && Mute(a) && Seen(t'.s) == Seen(t.s)
    requires t'.s.phase.Closing? ==> t.s.phase.Closing?
    ensures Tells(peer, t, t')
  {
    QuietTells(peer, t, t', [a]);
  }

  // ------------------------------------------------------------------------
  // Each thing that happens to a session
  // ------------------------------------------------------------------------

  lemma UnverifiedTells(cfg: Config, peer: PubKey, t: Turn, ids: seq<ChannelId>, now: Millis)
    ensures TellsOn(peer, t, OnUnverified(cfg, peer, t, ids, now))
  {
    hide CountFailures, Refresh, Tells;
    var told := t.Does(Send(peer, MReject(TOPUP, GrantInvalid, None)));
    DoesTells(peer, t, told, Send(peer, MReject(TOPUP, GrantInvalid, None)));
    CountingTells(peer, told, ids);
    RefreshTells(cfg, peer, CountFailures(peer, told, ids), now);
    TellsThen(peer, t, told, CountFailures(peer, told, ids));
    TellsThen(peer, t, CountFailures(peer, told, ids), OnUnverified(cfg, peer, t, ids, now));
  }

  lemma HonorTells(peer: PubKey, t: Turn, m: TopUp, ratchets: seq<Ratchet>, grant: u64, now: Millis)
    ensures TellsOn(peer, t, Honor(peer, t, m, ratchets, grant, now))
  {
    var applied := t.s.grant.Apply(ratchets, grant, m.windowMs, m.reservedRate, now);
    HonorActions(peer, t, m, ratchets, grant, now);
    SettlingIsMute(peer, applied.channels, ExhaustedIds(applied.channels));
    hide Honor, Grant.Apply, SettleEach, ExhaustedIds, BalanceOf, Grant.BudgetAt;
    var after := Honor(peer, t, m, ratchets, grant, now);
    BalanceIsMute(peer, after.s, now);
    var said := [RecordUpdates(peer, m.updates)] + SettleEach(peer, applied.channels, ExhaustedIds(applied.channels)).1
      + (if t.s.policy.noCharge then [] else [SaveBudget(peer, applied.BudgetAt(now))]) + [Send(peer, BalanceOf(after.s, now))];
    assert after.out == t.out + said;
    QuietTells(peer, t, after, said);
  }

  lemma TopUpTells(cfg: Config, peer: PubKey, t: Turn, m: TopUp, elsewhere: u64, now: Millis)
    ensures TellsOn(peer, t, OnTopUp(cfg, peer, t, m, elsewhere, now))
  {
    hide Evaluate, Honor, OnUnverified, Refresh, NotIncreasing, Tells;
    var admission := Admission(cfg.node.grants, elsewhere);
    if t.s.grant.TooSoon(now, cfg.node.grants.minTopupGapMs) {
      DoesTells(peer, t, t.Does(TooSoonReply(peer, m, admission)), TooSoonReply(peer, m, admission));
    } else {
      var checked := Checked(t, now);
      SilentTells(peer, t, checked);
      match Judged(cfg, checked, m, elsewhere)
      case Accept(ratchets, grant) =>
        var honored := Honor(peer, checked, m, ratchets, grant, now);
        HonorTells(peer, checked, m, ratchets, grant, now);
        RefreshTells(cfg, peer, honored, now);
        TellsThen(peer, t, checked, honored);
        TellsThen(peer, t, honored, Refresh(cfg, peer, honored, now));
      case Refuse(reason, available) =>
        if reason == GrantInvalid {
          var ids := NotIncreasing(checked.s.grant.channels, m.updates, [], []);
          UnverifiedTells(cfg, peer, checked, ids, now);
          TellsThen(peer, t, checked, OnUnverified(cfg, peer, checked, ids, now));
        } else {
          var refusal := Send(peer, MTopUpReject(TopUpReject(RefusedUpdates(m.updates), available, reason)));
          DoesTells(peer, checked, checked.Does(refusal), refusal);
          RefreshTells(cfg, peer, checked.Does(refusal), now);
          TellsThen(peer, t, checked, checked.Does(refusal));
          TellsThen(peer, t, checked.Does(refusal), Refresh(cfg, peer, checked.Does(refusal), now));
        }
    }
  }

  lemma RefreshedTells(cfg: Config, peer: PubKey, t: Turn, u: Turn, now: Millis)
    requires TellsOn(peer, t, u)
    ensures TellsOn(peer, t, Refresh(cfg, peer, u, now))
  {
    hide Refresh, Tells;
    RefreshTells(cfg, peer, u, now);
    TellsThen(peer, t, u, Refresh(cfg, peer, u, now));
  }

  lemma PolledTells(cfg: Config, peer: PubKey, t: Turn, u: Turn, now: Millis)
    requires TellsOn(peer, t, u)
    ensures TellsOn(peer, t, PollBuyer(cfg, peer, u, now))
  {
    hide PollBuyer, Tells;
    PollTells(cfg, peer, u, now);
    TellsThen(peer, t, u, PollBuyer(cfg, peer, u, now));
  }

  lemma OpeningOfferTells(cfg: Config, peer: PubKey, t: Turn, m: Offer, now: Millis)
    ensures TellsOn(peer, t, OnOpeningOffer(cfg, peer, t, m, now))
  {
    hide PollBuyer, Refresh, RequestFunding, Buyer.StartOver, Tells, NodePolicy.FirstChannelCapacity;
    var no := Send(peer, MReject(OFFER, FromPayerWeightUnacceptable, None));
    var refused := !m.noCharge && !cfg.buying.AcceptsWeight(m.fromPayerWeight);
    var u := if refused then t.(s := t.s.(refusedTerms := true)).Does(no) else t;
    if refused {
      DoesTells(peer, t, u, no);
    } else {
      SilentTells(peer, t, u);
    }
    var resumed := u.(s := u.s.(buyer := u.s.buyer.ForgetPending(), phase := Established));
    var anew := u.(s := u.s.(buyer := u.s.buyer.StartOver()));
    SilentTells(peer, u, resumed);
    SilentTells(peer, u, anew);
    TellsThen(peer, t, u, resumed);
    TellsThen(peer, t, u, anew);
    RefreshedTells(cfg, peer, t, resumed, now);
    PolledTells(cfg, peer, t, Refresh(cfg, peer, resumed, now), now);
    RefreshedTells(cfg, peer, t, anew, now);
    DoesTells(peer, anew, anew.Does(Send(peer, MAccept([]))), Send(peer, MAccept([])));
    TellsThen(peer, t, anew, anew.Does(Send(peer, MAccept([]))));
    RefreshedTells(cfg, peer, t, anew.Does(Send(peer, MAccept([]))), now);
    if m.acceptedMints != [] {
      var asked := RequestFunding(peer, anew, m.acceptedMints[0], cfg.node.FirstChannelCapacity(), now);
      RequestTells(peer, anew, m.acceptedMints[0], cfg.node.FirstChannelCapacity(), now);
      TellsThen(peer, t, anew, asked);
      RefreshedTells(cfg, peer, t, asked, now);
    }
  }

  lemma OfferTells(cfg: Config, peer: PubKey, t: Turn, m: Offer, now: Millis)
    ensures TellsOn(peer, t, OnOffer(cfg, peer, t, m, now))
  {
    hide OnOpeningOffer, PollOpening, Tells;
    var taken := t.(s := TakeOffer(t.s, m));
    SilentTells(peer, t, taken);
    AskingTells(cfg, peer, taken, now);
    OpeningOfferTells(cfg, peer, taken, m, now);
    TellsThen(peer, t, taken, PollOpening(cfg, peer, taken, now));
    TellsThen(peer, t, taken, OnOpeningOffer(cfg, peer, taken, m, now));
  }

  lemma AcceptTells(cfg: Config, peer: PubKey, t: Turn, funding: Bytes, now: Millis)
    ensures TellsOn(peer, t, OnAccept(cfg, peer, t, funding, now))
  {
    hide Settle, Refresh, Tells;
    var settled := Discard(peer, t);
    SettleTells(peer, t, Ids(t.s.grant.channels));
    RefreshedTells(cfg, peer, t, settled, now);
    DoesTells(peer, settled, settled.Does(VerifyFunding(peer, funding)), VerifyFunding(peer, funding));
    TellsThen(peer, t, settled, settled.Does(VerifyFunding(peer, funding)));
  }

  lemma NoticedTells(peer: PubKey, t: Turn, msg: Message, now: Millis)
    ensures TellsOn(peer, t, Noticed(peer, t, msg, now))
  {
    hide ExpiryOf, Buyer.NoteBalance, Tells;
    var after := Noticed(peer, t, msg, now);
    match msg
    case MRolloverInit(_, funding) => QuietTells(peer, t, after, [VerifyFunding(peer, funding)]);
    case MChannelClose(id, final, _, _) =>
      QuietTells(peer, t, after, [Send(peer, MCloseAck(id, final)), SettleChannel(peer, id, ExpiryOf(t.s, id))]);
    case MCloseAck(id, _) => QuietTells(peer, t, after, [SettleChannel(peer, id, ExpiryOf(t.s, id))]);
    case MDisconnect(_) => QuietTells(peer, t, after, [DropPeer(peer)]);
    case _ => SilentTells(peer, t, after);
  }

  lemma AnnounceTells(cfg: Config, peer: PubKey, t: Turn, m: Announce)
    ensures TellsOn(peer, t, OnAnnounce(cfg, peer, t, m))
  {
    hide Tells;
    var after := OnAnnounce(cfg, peer, t, m);
    if m.version != PROTOCOL_VERSION {
      QuietTells(peer, t, after, [Send(peer, MReject(ANNOUNCE, VersionUnsupported, None)), DropPeer(peer)]);
    } else if m.unit != cfg.node.unit {
      QuietTells(peer, t, after, Rejected(peer, UnitNotAccepted));
    } else {
      SilentTells(peer, t, after);
    }
  }

  lemma MessageTells(cfg: Config, peer: PubKey, t: Turn, msg: Message, elsewhere: u64, now: Millis)
    ensures TellsOn(peer, t, OnMessage(cfg, peer, t, msg, elsewhere, now))
  {
    hide PollBuyer, OnOffer, OnTopUp, OnAccept, OnAnnounce, Noticed, Buyer.Confirmed, Buyer.RecordReject, Tells;
    var heard := t.(s := t.s.(lastSeen := now));
    SilentTells(peer, t, heard);
    var after := OnMessage(cfg, peer, t, msg, elsewhere, now);
    match msg
    case MAnnounce(m) => AnnounceTells(cfg, peer, heard, m); TellsThen(peer, t, heard, after);
    case MOffer(m) => OfferTells(cfg, peer, heard, m, now); TellsThen(peer, t, heard, after);
    case MAccept(funding) => AcceptTells(cfg, peer, heard, funding, now); TellsThen(peer, t, heard, after);
    case MTopUp(m) => TopUpTells(cfg, peer, heard, m, elsewhere, now); TellsThen(peer, t, heard, after);
    case MChannelReady(id) =>
      var b := if heard.s.buyer.IsActive(id) then heard.s.buyer else heard.s.buyer.Confirmed(id);
      var taken := heard.(s := heard.s.(buyer := b, keptByPeer := heard.s.keptByPeer || b.IsActive(id)));
      SilentTells(peer, t, taken);
      PolledTells(cfg, peer, t, taken, now);
    case MTopUpReject(m) =>
      var taken := heard.(s := heard.s.(buyer :=
        heard.s.buyer.RecordReject(ToRefused(m.refused), m.reason, m.maxReservedRate, now, cfg.buying.capHoldMs)));
      SilentTells(peer, t, taken);
      PolledTells(cfg, peer, t, taken, now);
    case MRolloverReady(_, id) =>
      var taken := heard.(s := heard.s.(buyer := heard.s.buyer.Confirmed(id)));
      SilentTells(peer, t, taken);
      PolledTells(cfg, peer, t, taken, now);
    case _ => NoticedTells(peer, heard, msg, now); TellsThen(peer, t, heard, after);
  }

  lemma FundedTells(cfg: Config, peer: PubKey, t: Turn, id: ChannelId, capacity: u64, expiresAt: Option<Millis>, funding: Bytes, now: Millis)
    ensures TellsOn(peer, t, OnOutgoingFunded(cfg, peer, t, id, capacity, expiresAt, funding, now))
  {
    hide Refresh, Buyer.FundedWith, Tells;
    var b := t.s.buyer.FundedWith(id, capacity, expiresAt);
    var msg := if b.active.Some? then MRolloverInit(b.active.value.id, funding) else MAccept(funding);
    DoesTells(peer, t, t.(s := t.s.(buyer := b)).Does(Send(peer, msg)), Send(peer, msg));
    RefreshedTells(cfg, peer, t, t.(s := t.s.(buyer := b)).Does(Send(peer, msg)), now);
  }

  lemma VerifiedTells(cfg: Config, peer: PubKey, t: Turn, id: ChannelId, capacity: u64, expiresAt: Option<Millis>, now: Millis)
    ensures TellsOn(peer, t, OnIncomingVerified(cfg, peer, t, id, capacity, expiresAt, now))
  {
    hide Refresh, Grant.OpenChannel, FirstBesides, Tells;
    var replacing := FirstBesides(t.s.grant.channels, id);
    var msg := if replacing.Some? then MRolloverReady(replacing.value, id) else MChannelReady(id);
    var taken := t.(s := t.s.(grant := t.s.grant.OpenChannel(id, capacity, expiresAt), phase := Established)).Does(Send(peer, msg));
    DoesTells(peer, t, taken, Send(peer, msg));
    RefreshedTells(cfg, peer, t, taken, now);
  }

  lemma TickTells(cfg: Config, peer: PubKey, t: Turn, now: Millis)
    ensures TellsOn(peer, t, OnTick(cfg, peer, t, now))
  {
    hide Settle, Refresh, PollBuyer, PollRollover, PollOpening, Tells, Grant.ExpireIfDue;
    var expired := t.(s := t.s.(grant := t.s.grant.ExpireIfDue(now)));
    SilentTells(peer, t, expired);
    var settled := SettleExpiring(cfg, peer, expired, now);
    SettleTells(peer, expired, ExpiringIds(expired.s.grant.channels, now, cfg.node.SettleLeadMs()));
    TellsThen(peer, t, expired, settled);
    RefreshedTells(cfg, peer, t, settled, now);
    var shown := Refresh(cfg, peer, settled, now);
    PolledTells(cfg, peer, t, shown, now);
    var polled := PollBuyer(cfg, peer, shown, now);
    AskingTells(cfg, peer, polled, now);
    var rolled := PollRollover(cfg, peer, polled, now);
    TellsThen(peer, t, polled, rolled);
    AskingTells(cfg, peer, rolled, now);
    TellsThen(peer, t, rolled, PollOpening(cfg, peer, rolled, now));
  }

  // ------------------------------------------------------------------------
  // Terms
  // ------------------------------------------------------------------------

  /** The terms the peer was last sent are the ones it is charged by. */
  ghost predicate Current(cfg: Config, s: PeerSession) {
    s.offerSent == Some(OfferFor(cfg, s.policy, s.weight))
  }

  /** An override is told as it is made, unless the session is ending. */
  lemma PolicyTells(cfg: Config, peer: PubKey, t: Turn, policy: PeerPolicy, now: Millis)
    ensures var after := OnPolicy(cfg, peer, t, policy, now);
      && Tells(peer, t, after) && after.s.policy == policy && after.s.weight == t.s.weight
      && (!t.s.phase.Closing? && t.s.offerSent.Some? ==> Current(cfg, after.s))
      && (t.s.phase.Closing? ==> after.s.offerSent == t.s.offerSent && after.s.phase.Closing?)
  {
    hide Refresh, OfferFor, Tells;
    var changed, revised := t.(s := t.s.(policy := policy)), OfferFor(cfg, policy, t.s.weight);
    SilentTells(peer, t, changed);
    if !t.s.phase.Closing? {
      var sent := SendOffer(peer, changed, revised);
      ShownOffer(peer, revised, Seen(t.s));
      TellsBy(peer, t, sent, [Send(peer, MOffer(revised))]);
      RefreshTells(cfg, peer, sent, now);
      RefreshTells(cfg, peer, changed, now);
      TellsThen(peer, t, sent, Refresh(cfg, peer, sent, now));
      TellsThen(peer, t, changed, Refresh(cfg, peer, changed, now));
    }
  }

  lemma ShownOffer(peer: PubKey, offer: Offer, v: View)
    ensures Shown([Send(peer, MOffer(offer))], peer, v) == v.(offer := Some(offer))
  {
    assert [Send(peer, MOffer(offer))][1..] == [];
  }

  /** A greeting tells all there is to be told, whatever was told before it. */
  lemma GreetTells(cfg: Config, peer: PubKey, policy: PeerPolicy, t: Turn, now: Millis, before: seq<Action>, v: View)
    requires t.s.policy == policy && t.s.weight == policy.Weight(cfg.node) && t.s.access == AccessLevel.Nothing && t.s.appliedRate.None?
    requires forall a :: a in t.out ==> Mute(a)
    ensures var greeted := Greet(cfg, peer, policy, t, now);
      && Shown(before + greeted.out, peer, v) == Seen(greeted.s) && Current(cfg, greeted.s)
  {
    hide Refresh, OfferFor, Readies, BalanceOf, RateOf, Ids, GateActions, GoneActions, SpeedActions, Shown, Conversations.Announcement;
    var told, offer := Conversations.Greeted(cfg, peer, policy, t, now), OfferFor(cfg, policy, policy.Weight(cfg.node));
    GreetedActs(cfg, peer, policy, t, now);
    var first := [SetAccess(peer, AccessLevel.Nothing)];
    var rest := [Send(peer, Conversations.Announcement(cfg))] + Readies(peer, Ids(t.s.grant.channels));
    var left := if policy.noCharge then [] else [Send(peer, BalanceOf(t.s, now))];
    var shown := GateActions(peer, told.s, now) + GoneActions(peer, told.s, now) + SpeedActions(cfg, peer, told.s, now);
    RefreshActs(cfg, peer, told, now);
    RefreshKeeps(cfg, peer, told, now);
    assert before + Refresh(cfg, peer, told, now).out == before + t.out + first + rest + [Send(peer, MOffer(offer))] + left + shown;
    var w := Shown(before, peer, v);
    ShownMore(before + t.out + first + rest + [Send(peer, MOffer(offer))] + left, shown, peer, v);
    ShownMore(before + t.out + first + rest + [Send(peer, MOffer(offer))], left, peer, v);
    ShownMore(before + t.out + first + rest, [Send(peer, MOffer(offer))], peer, v);
    ShownMore(before + t.out + first, rest, peer, v);
    ShownMore(before + t.out, first, peer, v);
    ShownMore(before, t.out, peer, v);
    MuteShows(t.out, peer, w);
    OneShows(peer, first[0], w);
    ReadiesAreMute(peer, Ids(t.s.grant.channels));
    AnnouncementIsMute(cfg, peer);
    MuteShows(rest, peer, w.(access := AccessLevel.Nothing));
    OneShows(peer, Send(peer, MOffer(offer)), w.(access := AccessLevel.Nothing));
    BalanceIsMute(peer, t.s, now);
    MuteShows(left, peer, w.(access := AccessLevel.Nothing, offer := Some(offer)));
    ShowingShows(cfg, peer, told.s, w.(access := AccessLevel.Nothing, offer := Some(offer)), now);
  }

  lemma AnnouncementIsMute(cfg: Config, peer: PubKey)
    ensures Mute(Send(peer, Conversations.Announcement(cfg)))
  {
  }

  lemma GreetedActs(cfg: Config, peer: PubKey, policy: PeerPolicy, t: Turn, now: Millis)
    requires t.s.policy == policy
    ensures var told := Conversations.Greeted(cfg, peer, policy, t, now);
      && Greet(cfg, peer, policy, t, now) == Refresh(cfg, peer, told, now)
      && told.s == t.s.(offerSent := Some(OfferFor(cfg, policy, policy.Weight(cfg.node))), budgetLive := told.s.budgetLive)
      && told.out == t.out + [SetAccess(peer, AccessLevel.Nothing)] + ([Send(peer, Conversations.Announcement(cfg))] + Readies(peer, Ids(t.s.grant.channels)))
           + [Send(peer, MOffer(OfferFor(cfg, policy, policy.Weight(cfg.node))))] + (if policy.noCharge then [] else [Send(peer, BalanceOf(t.s, now))])
  {
    Conversations.GreetedSays(cfg, peer, policy, t, now);
    hide Refresh, OfferFor, Readies, BalanceOf, Greet, Ids;
  }

  lemma {:induction false} ReadiesAreMute(peer: PubKey, ids: seq<ChannelId>)
    ensures forall a :: a in Readies(peer, ids) ==> Mute(a) && a.peer == peer
  {
    if ids != [] {
      ReadiesAreMute(peer, ids[1..]);
    }
  }

  // ------------------------------------------------------------------------
  // Speed
  // ------------------------------------------------------------------------

  /** The speeds above the reserved one, by an override for the peer or else the node's own setting. */
  ghost function Speeds(cfg: Config, policy: PeerPolicy): BurstPolicy {
    BurstPolicy(if policy.burstRate.Some? then policy.burstRate.value else cfg.node.burst.rate,
                if policy.unreservedRate.Some? then policy.unreservedRate.value else cfg.node.burst.unreservedRate)
  }

  /**
    The speed a host is told, whenever it changes: none but the link's for a peer carried free, the allowance
    for one with nothing left, and for any other the fastest it may be carried at, or the allowance if faster.
   */
  lemma SpeedIsTold(cfg: Config, peer: PubKey, t: Turn, now: Millis)
    ensures var after, g := Refresh(cfg, peer, t, now), t.s.grant;
      && after.s.appliedRate.Some?
      && (t.s.appliedRate == after.s.appliedRate || SetShapingRate(peer, after.s.appliedRate.value) in after.out)
      && var rate := after.s.appliedRate.value;
      && (t.s.policy.noCharge ==> rate == U64_MAX)
      && (!t.s.policy.noCharge ==>
            && cfg.node.minimumFlow <= rate && (!g.IsLive(now) ==> rate == cfg.node.minimumFlow)
            && (g.IsLive(now) ==>
                  && (rate == cfg.node.minimumFlow || GrantProperties.Carriable(g, Speeds(cfg, t.s.policy), cfg.node.tickMs, rate))
                  && forall x: u64 :: GrantProperties.Carriable(g, Speeds(cfg, t.s.policy), cfg.node.tickMs, x) ==> x <= rate))
  {
    hide BalanceOf, Grant.ShapingRate;
    GrantProperties.ShapingNearEmpty(t.s.grant, now, Speeds(cfg, t.s.policy), cfg.node.minimumFlow, cfg.node.tickMs);
  }
}
