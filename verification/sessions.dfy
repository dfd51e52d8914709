/**
  `Sessions`, the protocol core as it runs: every peer's session in one mutable object, updated in
  place event by event, each method's new state and actions tied to the functions on `Node`.
 */
module SessionsCore {
  import opened Numbers
  import opened Wrappers
  import opened Wire
  import opened Limits
  import opened Grants
  import opened Buyers
  import opened S = Sessions
  import opened N = Nodes
  import opened NodeEarnings
  import NodeCapacity

  // ------------------------------------------------------------------------
  // Settling, one channel after another
  // ------------------------------------------------------------------------

  method SettleChannels(peer: PubKey, s: PeerSession, ids: seq<ChannelId>, before: seq<Action>)
    returns (s': PeerSession, out: seq<Action>)
    ensures Turn(s', 0, out) == S.Settle(peer, Turn(s, 0, before), ids)
  {
    hide Find, Remove;
    s', out := s, before;
    var i := 0;
    while i < |ids|
      invariant 0 <= i <= |ids|
      invariant s' == s.(grant := s.grant.(channels := s'.grant.channels))
      invariant var (rest, settled) := SettleEach(peer, s'.grant.channels, ids[i..]);
        SettleEach(peer, s.grant.channels, ids).0 == rest && before + SettleEach(peer, s.grant.channels, ids).1 == out + settled
    {
      var id := ids[i];
      SettleNext(peer, s'.grant.channels, ids, i, out);
      var closed := Find(s'.grant.channels, id);
      s' := s'.(grant := s'.grant.CloseChannel(id));
      out := out + [SettleChannel(peer, id, if closed.Some? then closed.value.expiresAt else None)];
      i := i + 1;
    }
  }

  lemma SettleNext(peer: PubKey, cs: seq<IncomingChannel>, ids: seq<ChannelId>, i: nat, out: seq<Action>)
    requires i < |ids|
    ensures var (rest, settled) := SettleEach(peer, cs, ids[i..]);
      var (rest', settled') := SettleEach(peer, Remove(cs, ids[i]), ids[i + 1..]);
      var found := Find(cs, ids[i]);
      && rest == rest'
      && out + settled == out + [SettleChannel(peer, ids[i], if found.Some? then found.value.expiresAt else None)] + settled'
  {
    hide Find, Remove;
    assert ids[i..][0] == ids[i] && ids[i..][1..] == ids[i + 1..];
  }

  method DiscardSession(peer: PubKey, s: PeerSession, before: seq<Action>) returns (s': PeerSession, out: seq<Action>)
    ensures Turn(s', 0, out) == S.Discard(peer, Turn(s, 0, before))
  {
    var held := Ids(s.grant.channels);
    s', out := SettleChannels(peer, s, held, before);
  }

  method SettleExpiringIn(cfg: Config, peer: PubKey, s: PeerSession, now: Millis, before: seq<Action>)
    returns (s': PeerSession, out: seq<Action>)
    ensures Turn(s', 0, out) == S.SettleExpiring(cfg, peer, Turn(s, 0, before), now)
  {
    var due := ExpiringIds(s.grant.channels, now, cfg.node.SettleLeadMs());
    s', out := SettleChannels(peer, s, due, before);
  }

  method SaveBudgetOf(peer: PubKey, s: PeerSession, now: Millis, before: seq<Action>) returns (out: seq<Action>)
    ensures Turn(s, 0, out) == S.Save(peer, Turn(s, 0, before), now)
  {
    out := before;
    if !s.policy.noCharge {
      out := out + [SaveBudget(peer, s.grant.BudgetAt(now))];
    }
  }

  /** The channels a purchase failed to ratchet, each named once. */
  method Unraised(cs: seq<IncomingChannel>, updates: seq<ChannelUpdate>) returns (failed: seq<ChannelId>)
    ensures failed == NotIncreasing(cs, updates, [], [])
  {
    var seen: seq<ChannelId> := [];
    failed := [];
    var i := 0;
    while i < |updates|
      invariant 0 <= i <= |updates|
      invariant NotIncreasing(cs, updates[i..], seen, failed) == NotIncreasing(cs, updates, [], [])
    {
      var u := updates[i];
      var found := Find(cs, u.channelId);
      if found.Some? {
        if (u.channelId in seen || u.cumulative <= found.value.signed) && u.channelId !in failed {
          failed := failed + [u.channelId];
        }
        seen := seen + [u.channelId];
      }
      i := i + 1;
    }
  }

  /** A turn does the same whatever id comes next, if it asks for nothing. */
  lemma NextIdAside(peer: PubKey, t: Turn, ids: seq<ChannelId>)
    ensures S.Settle(peer, t, ids) == S.Settle(peer, t.(nextRequest := 0), ids).(nextRequest := t.nextRequest)
  {
  }

  /** A node with one session part way through an event. */
  ghost function Done(n: Node, peer: PubKey, t: Turn): Course {
    Course(n.(peers := n.peers[peer := t.s], nextRequest := t.nextRequest), t.out)
  }

  lemma DoneTwice(n: Node, peer: PubKey, t: Turn, u: Turn)
    ensures Done(Done(n, peer, t).n, peer, u) == Done(n, peer, u)
  {
    assert n.peers[peer := t.s][peer := u.s] == n.peers[peer := u.s];
  }

  class Sessions {
    var cfg: Config
    var peers: map<PubKey, PeerSession>
    var parked: map<PubKey, Parked>
    var overrides: map<PubKey, PeerPolicy>
    var nextRequest: u64

    ghost function View(): Node
      reads this
    {
      Node(cfg, peers, parked, overrides, nextRequest)
    }

    ghost function At(peer: PubKey, out: seq<Action>): Turn
      requires peer in peers
      reads this
    {
      Turn(peers[peer], nextRequest, out)
    }

    constructor (cfg: Config)
      ensures View() == NewNode(cfg)
    {
      this.cfg, peers, parked, overrides, nextRequest := cfg, map[], map[], map[], 1;
    }

    // ----------------------------------------------------------------------
    // Admission across peers
    // ----------------------------------------------------------------------

    /** What every connected payer but `payer` has reserved, added up and brought back to 64 bits. */
    method ReservedElsewhere(payer: PubKey) returns (sum: u64)
      ensures sum == N.ReservedElsewhere(View(), payer)
    {
      var rest := peers.Keys - {payer};
      sum := 0;
      ghost var others := peers - {payer};
      assert others - rest == map[];
      while rest != {}
        invariant rest <= others.Keys && sum == Saturate(TotalReserved(others - rest))
        decreases |rest|
      {
        var p :| p in rest;
        if !peers[p].phase.Closing? {
          sum := SatAdd(sum, peers[p].grant.reservedRate);
        }
        NodeCapacity.TotalWithout(others - (rest - {p}), p);
        assert others - (rest - {p}) - {p} == others - rest;
        rest := rest - {p};
      }
      assert others - rest == others;
    }

    /** For the host to ask before it checks any signature: the refusal to send, if a TopUp comes too soon. */
    method TooSoon(peer: PubKey, topup: TopUp, now: Millis) returns (refusal: Option<Action>)
      ensures refusal.Some? <==> peer in peers && peers[peer].grant.TooSoon(now, cfg.node.grants.minTopupGapMs)
      ensures refusal.Some? ==>
        refusal.value == TooSoonReply(peer, topup, Admission(cfg.node.grants, N.ReservedElsewhere(View(), peer)))
    {
      if peer !in peers || !peers[peer].grant.TooSoon(now, cfg.node.grants.minTopupGapMs) {
        return None;
      }
      var elsewhere := ReservedElsewhere(peer);
      return Some(TooSoonReply(peer, topup, Admission(cfg.node.grants, elsewhere)));
    }

    // ----------------------------------------------------------------------
    // Gate and shaper
    // ----------------------------------------------------------------------

    method Refresh(peer: PubKey, now: Millis, before: seq<Action>) returns (out: seq<Action>)
      requires peer in peers
      modifies this
      ensures Course(View(), out) == Done(old(View()), peer, S.Refresh(old(cfg), peer, old(At(peer, before)), now))
    {
      var s := peers[peer];
      out := before;
      var access, live, rate := AccessOf(s, now), s.grant.IsLive(now), RateOf(cfg, s, now);
      if access != s.access {
        out := out + [SetAccess(peer, access)];
      }
      if s.budgetLive && !live && access != Free {
        out := out + [Send(peer, BalanceOf(s, now)), SaveBudget(peer, NO_BUDGET)];
      }
      if s.appliedRate != Some(rate) {
        out := out + [SetShapingRate(peer, rate)];
      }
      peers := peers[peer := s.(access := access, budgetLive := live, appliedRate := Some(rate))];
    }

    // ----------------------------------------------------------------------
    // Paying them
    // ----------------------------------------------------------------------

    method RequestFunding(peer: PubKey, mintUrl: Text, capacity: u64, now: Millis, before: seq<Action>) returns (out: seq<Action>)
      requires peer in peers
      modifies this
      ensures Course(View(), out) == Done(old(View()), peer, S.RequestFunding(peer, old(At(peer, before)), mintUrl, capacity, now))
    {
      var request := nextRequest;
      nextRequest := if nextRequest == U64_MAX then 0 else nextRequest + 1;
      var s := peers[peer];
      peers := peers[peer := s.(buyer := s.buyer.FundingRequested(request, now))];
      out := before + [FundChannel(peer, request, mintUrl, capacity)];
    }

    method PollBuyer(peer: PubKey, now: Millis, before: seq<Action>) returns (out: seq<Action>)
      requires peer in peers
      modifies this
      ensures Course(View(), out) == Done(old(View()), peer, S.PollBuyer(old(cfg), peer, old(At(peer, before)), now))
    {
      hide Poll, Buyer.Record, Buyer.RetireExpiring, DemandOf;
      var s := peers[peer];
      out := before;
      assert View() == Done(View(), peer, At(peer, before)).n;
      if s.offer.None? || s.offer.value.noCharge || s.refusedTerms {
        return;
      }
      s := s.(buyer := s.buyer.RetireExpiring(now, cfg.node.safetyMarginMs, cfg.node.SettleLeadMs()));
      peers := peers[peer := s];
      var purchase := Poll(s.buyer, cfg.buying, DemandOf(s, s.offer.value.terms), now);
      assert DemandOf(s, s.offer.value.terms) == DemandOf(old(peers)[peer], s.offer.value.terms) by { DemandIgnoresBuyer(old(peers)[peer], s); }
      if purchase.None? {
        return;
      }
      var p := purchase.value;
      var drained := s.buyer.active;
      var (recorded, retired) := s.buyer.Record(p, now);
      peers := peers[peer := s.(buyer := recorded)];
      out := out + [SignAndSendTopUp(peer, p.Legs(), p.windowMs, p.reservedRate)];
      if retired.Some? {
        var expiresAt := if drained.Some? && drained.value.id == retired.value then drained.value.expiresAt else None;
        out := out + [SettleChannel(peer, retired.value, expiresAt)];
      }
    }

    method PollRollover(peer: PubKey, now: Millis, before: seq<Action>) returns (out: seq<Action>)
      requires peer in peers
      modifies this
      ensures Course(View(), out) == Done(old(View()), peer, S.PollRollover(old(cfg), peer, old(At(peer, before)), now))
    {
      var s := peers[peer];
      out := before;
      assert View() == Done(View(), peer, At(peer, before)).n;
      if s.offer.None? {
        return;
      }
      var reason := s.buyer.RolloverDue(cfg.node.rolloverThresholdPct, now, cfg.node.safetyMarginMs);
      if reason.None? || s.buyer.active.None? || s.offer.value.acceptedMints == [] {
        return;
      }
      hide Buyer.RolloverDue, NodePolicy.GrownCapacity;
      var capacity := s.buyer.active.value.capacity;
      match reason.value {
        case Capacity => capacity := cfg.node.GrownCapacity(capacity);
        case Expiry => capacity := cfg.node.ClampCapacity(capacity);
      }
      out := RequestFunding(peer, s.offer.value.acceptedMints[0], capacity, now, out);
    }

    method PollOpening(peer: PubKey, now: Millis, before: seq<Action>) returns (out: seq<Action>)
      requires peer in peers
      modifies this
      ensures Course(View(), out) == Done(old(View()), peer, S.PollOpening(old(cfg), peer, old(At(peer, before)), now))
    {
      var s := peers[peer];
      var b := s.buyer;
      out := before;
      assert View() == Done(View(), peer, At(peer, before)).n;
      if s.phase.Closing? || s.offer.None? || s.offer.value.noCharge || s.refusedTerms || !cfg.buying.Buying() {
        return;
      }
      if b.active.Some? || b.next.Some? || b.pending.Some? || b.FundingInFlight(now) || s.offer.value.acceptedMints == [] {
        return;
      }
      out := RequestFunding(peer, s.offer.value.acceptedMints[0], cfg.node.FirstChannelCapacity(), now, out);
    }

    // ----------------------------------------------------------------------
    // Being paid
    // ----------------------------------------------------------------------

    /** Answer a TopUp that failed verification, and close what has failed too often. */
    method OnUnverified(peer: PubKey, ids: seq<ChannelId>, now: Millis, before: seq<Action>) returns (out: seq<Action>)
      requires peer in peers
      modifies this
      ensures Course(View(), out) == Done(old(View()), peer, S.OnUnverified(old(cfg), peer, old(At(peer, before)), ids, now))
    {
      ghost var t := At(peer, before);
      out := before + [Send(peer, MReject(TOPUP, GrantInvalid, None))];
      ghost var counted := CountFailures(peer, At(peer, out), ids);
      var s := peers[peer];
      var i := 0;
      while i < |ids|
        invariant 0 <= i <= |ids|
        invariant CountFailures(peer, Turn(s, nextRequest, out), ids[i..]) == counted
        invariant View() == old(View())
      {
        var (g, failures) := s.grant.RecordFailure(ids[i]);
        s := s.(grant := g);
        if failures.Some? && failures.value >= MAX_VERIFICATION_FAILURES {
          NextIdAside(peer, Turn(s, nextRequest, out), [ids[i]]);
          s, out := SettleChannels(peer, s, [ids[i]], out);
        }
        i := i + 1;
      }
      peers := peers[peer := s];
      assert At(peer, out) == counted;
      DoneTwice(old(View()), peer, counted, S.Refresh(cfg, peer, counted, now));
      hide S.Refresh, CountFailures;
      out := Refresh(peer, now, out);
    }

    method OnTopUp(peer: PubKey, m: TopUp, now: Millis, before: seq<Action>) returns (out: seq<Action>)
      requires peer in peers
      modifies this
      ensures Course(View(), out) ==
        Done(old(View()), peer, S.OnTopUp(old(cfg), peer, old(At(peer, before)), m, old(N.ReservedElsewhere(View(), peer)), now))
    {
      ghost var n := View();
      ghost var t := At(peer, before);
      assert View() == Done(View(), peer, t).n;
      var refusal := TooSoon(peer, m, now);
      if refusal.Some? {
        return before + [refusal.value];
      }
      var elsewhere := ReservedElsewhere(peer);
      var s := peers[peer];
      s := s.(grant := s.grant.TopupChecked(now));
      peers := peers[peer := s];
      var verdict := Evaluate(s.grant, Admission(cfg.node.grants, elsewhere), m.updates, m.windowMs, m.reservedRate);
      hide N.ReservedElsewhere, Evaluate, S.Refresh, S.OnUnverified, CountFailures;
      match verdict {
        case Accept(ratchets, grant) =>
          ghost var honored := S.Honor(peer, At(peer, before), m, ratchets, grant, now);
          out := Honored(peer, m, ratchets, grant, now, before);
          assert At(peer, out) == honored;
          hide S.Honor;
          out := Refresh(peer, now, out);
          DoneTwice(n, peer, Turn(s, nextRequest, before), honored);
          DoneTwice(n, peer, honored, S.Refresh(cfg, peer, honored, now));
        case Refuse(reason, available) =>
          if reason == GrantInvalid {
            var failed := Unraised(s.grant.channels, m.updates);
            ghost var after := S.OnUnverified(cfg, peer, At(peer, before), failed, now);
            DoneTwice(n, peer, At(peer, before), after);
            out := OnUnverified(peer, failed, now, before);
          } else {
            out := before + [Send(peer, MTopUpReject(TopUpReject(RefusedUpdates(m.updates), available, reason)))];
            ghost var after := S.Refresh(cfg, peer, At(peer, out), now);
            DoneTwice(n, peer, At(peer, out), after);
            out := Refresh(peer, now, out);
          }
      }
    }

    /** Apply an honored purchase, and settle what it drained. */
    method Honored(peer: PubKey, m: TopUp, ratchets: seq<Ratchet>, grant: u64, now: Millis, before: seq<Action>) returns (out: seq<Action>)
      requires peer in peers
      modifies this
      ensures Course(View(), out) == Done(old(View()), peer, S.Honor(peer, old(At(peer, before)), m, ratchets, grant, now))
    {
      hide Grant.Apply, ExhaustedIds, S.Settle, Grant.BudgetAt, Grant.IsLive;
      ghost var next := nextRequest;
      var s := peers[peer];
      s := s.(grant := s.grant.Apply(ratchets, grant, m.windowMs, m.reservedRate, now));
      out := before + [RecordUpdates(peer, m.updates)];
      ghost var recorded := Turn(s, next, out);
      var done := ExhaustedIds(s.grant.channels);
      NextIdAside(peer, recorded, done);
      s, out := SettleChannels(peer, s, done, out);
      assert Turn(s, next, out) == S.Settle(peer, recorded, done);
      ghost var saved := S.Save(peer, S.Settle(peer, recorded, done), now);
      out := SaveBudgetOf(peer, s, now, out);
      assert Turn(s, next, out) == saved;
      s := s.(budgetLive := s.grant.IsLive(now));
      out := out + [Send(peer, BalanceOf(s, now))];
      peers := peers[peer := s];
    }

    /** A meter reading: their budget with us is drawn while we carry them, and our count of ours with them. */
    method OnMetered(peer: PubKey, counters: Counters, carried: bool, now: Millis)
      requires peer in peers
      modifies this`peers
      ensures View() == old(View()).(peers := old(peers)[peer := S.OnMetered(old(peers[peer]), counters, carried, now)])
    {
      hide Grant.Draw, Grant.Pause, Buyer.Draw, Counters.Weighted, RateFrom;
      var s := peers[peer];
      var grew := counters.DeltaSince(s.meter);
      s := s.(meter := counters);
      var elapsed := SatSub(now, s.lastMeterAt);
      if elapsed > 0 {
        s := s.(uploadRate := RateFrom(grew.toPayer, elapsed), lastMeterAt := now);
      }
      if carried && s.access == Active {
        s := s.(grant := s.grant.Draw(grew.Weighted(s.weight), now));
      } else {
        s := s.(grant := s.grant.Pause());
      }
      if s.offer.Some? && !s.offer.value.noCharge {
        s := s.(buyer := s.buyer.Draw(grew.Swapped().Weighted(s.offer.value.terms.fromPayerWeight), now));
      }
      peers := peers[peer := s];
    }

    // ----------------------------------------------------------------------
    // Opening
    // ----------------------------------------------------------------------

    method SendOffer(peer: PubKey, offer: Offer, before: seq<Action>) returns (out: seq<Action>)
      requires peer in peers
      modifies this`peers
      ensures Course(View(), out) == Done(old(View()), peer, S.SendOffer(peer, old(At(peer, before)), offer))
    {
      peers := peers[peer := peers[peer].(offerSent := Some(offer))];
      out := before + [Send(peer, MOffer(offer))];
    }

    method OnOffer(peer: PubKey, m: Offer, now: Millis, before: seq<Action>) returns (out: seq<Action>)
      requires peer in peers
      modifies this
      ensures Course(View(), out) == Done(old(View()), peer, S.OnOffer(old(cfg), peer, old(At(peer, before)), m, now))
    {
      hide S.PollOpening, S.PollBuyer, S.Refresh, Buyer.StartOver;
      ghost var n, t := View(), At(peer, before);
      var s := peers[peer];
      var weight := if s.offer.Some? then s.offer.value.terms.fromPayerWeight else m.fromPayerWeight;
      var established := s.offer.Some?;
      s := s.(offer := Some(PeerOffer(m.acceptedMints, m.unit,
                                      Terms(m.minWindowMs, m.maxWindowMs, m.minReservedRate, m.minTopupGapMs, weight), m.noCharge)));
      if s.phase.Opening? {
        s := s.(phase := Establishing);
      }
      peers := peers[peer := s];
      assert s == TakeOffer(t.s, m);
      if established {
        DoneTwice(n, peer, At(peer, before), S.PollOpening(cfg, peer, At(peer, before), now));
        out := PollOpening(peer, now, before);
      } else {
        DoneTwice(n, peer, At(peer, before), S.OnOpeningOffer(cfg, peer, At(peer, before), m, now));
        hide S.OnOpeningOffer;
        out := OnOpeningOffer(peer, m, now, before);
      }
    }

    /** The Offer that opens a session: carry on with a channel both still hold, or pay from nothing. */
    method OnOpeningOffer(peer: PubKey, m: Offer, now: Millis, before: seq<Action>) returns (out: seq<Action>)
      requires peer in peers
      modifies this
      ensures Course(View(), out) == Done(old(View()), peer, S.OnOpeningOffer(old(cfg), peer, old(At(peer, before)), m, now))
    {
      ghost var n := View();
      var s := peers[peer];
      out := before;
      if !m.noCharge && !cfg.buying.AcceptsWeight(m.fromPayerWeight) {
        s := s.(refusedTerms := true);
        out := out + [Send(peer, MReject(OFFER, FromPayerWeightUnacceptable, None))];
      }
      var buying := !m.noCharge && !s.refusedTerms && cfg.buying.Buying();
      if s.buyer.active.Some? && s.keptByPeer && buying {
        peers := peers[peer := s.(buyer := s.buyer.ForgetPending(), phase := Established)];
        ghost var resumed := At(peer, out);
        ghost var shown := S.Refresh(cfg, peer, resumed, now);
        ghost var bought := S.PollBuyer(cfg, peer, shown, now);
        assert bought == S.OnOpeningOffer(cfg, peer, old(At(peer, before)), m, now);
        hide S.OnOpeningOffer, S.Refresh, S.PollBuyer;
        out := Refresh(peer, now, out);
        DoneTwice(n, peer, resumed, shown);
        assert At(peer, out) == shown;
        out := PollBuyer(peer, now, out);
        DoneTwice(n, peer, shown, bought);
        return;
      }
      peers := peers[peer := s.(buyer := s.buyer.StartOver())];
      ghost var anew := At(peer, out);
      ghost var asked := if s.refusedTerms then anew
        else if m.acceptedMints != [] && buying then
          S.RequestFunding(peer, anew, m.acceptedMints[0], cfg.node.FirstChannelCapacity(), now)
        else anew.Does(Send(peer, MAccept([])));
      ghost var shown := S.Refresh(cfg, peer, asked, now);
      assert shown == S.OnOpeningOffer(cfg, peer, old(At(peer, before)), m, now);
      hide S.OnOpeningOffer, S.Refresh, S.RequestFunding;
      assert View() == Done(n, peer, anew).n;
      if s.refusedTerms {
      } else if m.acceptedMints != [] && buying {
        out := RequestFunding(peer, m.acceptedMints[0], cfg.node.FirstChannelCapacity(), now, out);
        DoneTwice(n, peer, anew, asked);
      } else {
        out := out + [Send(peer, MAccept([]))];
      }
      assert Course(View(), out) == Done(n, peer, asked);
      out := Refresh(peer, now, out);
      DoneTwice(n, peer, asked, shown);
    }

    method OnAccept(peer: PubKey, funding: Bytes, now: Millis, before: seq<Action>) returns (out: seq<Action>)
      requires peer in peers
      modifies this
      ensures Course(View(), out) == Done(old(View()), peer, S.OnAccept(old(cfg), peer, old(At(peer, before)), funding, now))
    {
      hide S.Settle, S.Refresh;
      ghost var n, t := View(), At(peer, before);
      var s := peers[peer];
      NextIdAside(peer, t, Ids(s.grant.channels));
      s, out := DiscardSession(peer, s, before);
      peers := peers[peer := s];
      assert At(peer, out) == S.Discard(peer, t);
      if funding == [] {
        DoneTwice(n, peer, At(peer, out), S.Refresh(cfg, peer, At(peer, out), now));
        out := Refresh(peer, now, out);
      } else {
        out := out + [VerifyFunding(peer, funding)];
      }
    }

    method OnIncomingVerified(peer: PubKey, id: ChannelId, capacity: u64, expiresAt: Option<Millis>, now: Millis) returns (out: seq<Action>)
      requires peer in peers
      modifies this
      ensures Course(View(), out) ==
        Done(old(View()), peer, S.OnIncomingVerified(old(cfg), peer, old(At(peer, [])), id, capacity, expiresAt, now))
    {
      hide S.Refresh, Grant.OpenChannel, FirstBesides;
      ghost var n := View();
      var s := peers[peer];
      var replacing := FirstBesides(s.grant.channels, id);
      peers := peers[peer := s.(grant := s.grant.OpenChannel(id, capacity, expiresAt), phase := Established)];
      out := [] + [Send(peer, if replacing.Some? then MRolloverReady(replacing.value, id) else MChannelReady(id))];
      DoneTwice(n, peer, At(peer, out), S.Refresh(cfg, peer, At(peer, out), now));
      out := Refresh(peer, now, out);
    }

    method OnMessage(peer: PubKey, msg: Message, now: Millis) returns (out: seq<Action>)
      requires peer in peers
      modifies this
      ensures Course(View(), out) ==
        Done(old(View()), peer, S.OnMessage(old(cfg), peer, old(At(peer, [])), msg, old(N.ReservedElsewhere(View(), peer)), now))
    {
      hide S.OnOffer, S.OnTopUp, S.OnAccept, S.PollBuyer, S.OnAnnounce, Buyer.RecordReject, Buyer.Confirmed, Buyer.NoteBalance, N.ReservedElsewhere,
        Noticed, ToRefused, TotalReserved;
      ghost var n := View();
      peers := peers[peer := peers[peer].(lastSeen := now)];
      ghost var heard := At(peer, []);
      var s := peers[peer];
      match msg {
        case MAnnounce(m) =>
          var t := S.OnAnnounce(cfg, peer, Turn(s, nextRequest, []), m);
          AnnounceAsksNothing(cfg, peer, Turn(s, nextRequest, []), m);
          peers, out := peers[peer := t.s], t.out;
          DoneTwice(n, peer, heard, t);
        case MOffer(m) =>
          out := OnOffer(peer, m, now, []);
          DoneTwice(n, peer, heard, S.OnOffer(cfg, peer, heard, m, now));
        case MAccept(funding) =>
          out := OnAccept(peer, funding, now, []);
          DoneTwice(n, peer, heard, S.OnAccept(cfg, peer, heard, funding, now));
        case MTopUp(m) =>
          HearingReservesNothing(n, peer, now);
          ghost var elsewhere := N.ReservedElsewhere(View(), peer);
          out := OnTopUp(peer, m, now, []);
          DoneTwice(n, peer, heard, S.OnTopUp(cfg, peer, heard, m, elsewhere, now));
        case MChannelReady(id) =>
          if !s.buyer.IsActive(id) {
            s := s.(buyer := s.buyer.Confirmed(id));
          }
          s := s.(keptByPeer := s.keptByPeer || s.buyer.IsActive(id));
          out := Bought(n, peer, s, now);
        case MTopUpReject(m) =>
          s := s.(buyer := s.buyer.RecordReject(ToRefused(m.refused), m.reason, m.maxReservedRate, now, cfg.buying.capHoldMs));
          out := Bought(n, peer, s, now);
        case MRolloverReady(_, id) =>
          s := s.(buyer := s.buyer.Confirmed(id));
          out := Bought(n, peer, s, now);
        case _ =>
          var t := Noticed(peer, Turn(s, nextRequest, []), msg, now);
          NoticingAsksNothing(peer, Turn(s, nextRequest, []), msg, now);
          peers, out := peers[peer := t.s], t.out;
          DoneTwice(n, peer, heard, t);
      }
    }

    /** Put back a session just changed, and ask its buyer whether to buy. */
    method Bought(ghost n: Node, peer: PubKey, s: PeerSession, now: Millis) returns (out: seq<Action>)
      requires peer in peers && peer in n.peers && View() == n.(peers := n.peers[peer := peers[peer]])
      modifies this
      ensures Course(View(), out) == Done(n, peer, S.PollBuyer(old(cfg), peer, Turn(s, old(nextRequest), []), now))
    {
      hide S.PollBuyer;
      DoneTwice(n, peer, At(peer, []), Turn(s, nextRequest, []));
      peers := peers[peer := s];
      ghost var changed := At(peer, []);
      out := PollBuyer(peer, now, []);
      DoneTwice(n, peer, changed, S.PollBuyer(cfg, peer, changed, now));
    }

    // ----------------------------------------------------------------------
    // Going away and coming back
    // ----------------------------------------------------------------------

    method Park(peer: PubKey, now: Millis, before: seq<Action>) returns (out: seq<Action>)
      requires peer in peers
      modifies this`peers, this`parked
      ensures Course(View(), out) == ParkPeer(Course(old(View()), before), peer, now)
    {
      hide Grant.EndReservation, S.Settle, Grant.BudgetAt;
      ghost var n := View();
      var s := peers[peer];
      peers := peers - {peer};
      s := s.(grant := s.grant.EndReservation());
      out := SaveBudgetOf(peer, s, now, before);
      ghost var t := S.Park(peer, Turn(n.peers[peer], nextRequest, []), now);
      assert t.s == s && out == before + t.out;
      if cfg.node.staleTimeoutMs == 0 {
        SettleAppends(peer, t, Ids(s.grant.channels), 0, before);
        s, out := DiscardSession(peer, s, out);
      } else {
        parked := parked[peer := Parked(s, now)];
      }
    }

    method OnDisconnected(peer: PubKey, now: Millis) returns (out: seq<Action>)
      modifies this`peers, this`parked
      ensures Course(View(), out) == N.Disconnect(old(View()), peer, now)
    {
      out := [];
      if peer !in peers {
        return;
      }
      var s := peers[peer];
      if s.phase.Closing? {
        peers := peers - {peer};
        out := SaveBudgetOf(peer, s, now, out);
        s, out := DiscardSession(peer, s, out);
        return;
      }
      hide ParkPeer;
      out := Park(peer, now, out);
    }

    method Forget(peer: PubKey, now: Millis) returns (out: seq<Action>)
      modifies this`peers, this`parked
      ensures Course(View(), out) == N.Forget(old(View()), peer, now)
    {
      hide S.Settle, Grant.BudgetAt;
      ghost var n := View();
      out := [];
      if peer in peers {
        var s := peers[peer];
        peers := peers - {peer};
        out := SaveBudgetOf(peer, s, now, out);
        s, out := DiscardSession(peer, s, out);
        assert out == LetGo(peer, n.peers[peer], now);
      }
      if peer in parked {
        var s := parked[peer].session;
        ghost var first := out;
        parked := parked - {peer};
        out := SaveBudgetOf(peer, s, now, out);
        assert out == first + S.Save(peer, Turn(s, 0, []), now).out;
        SettleAppends(peer, S.Save(peer, Turn(s, 0, []), now), Ids(s.grant.channels), 0, first);
        s, out := DiscardSession(peer, s, out);
        assert out == first + LetGo(peer, n.parked[peer].session, now);
      }
      assert n.peers - {peer} == peers && n.parked - {peer} == parked;
    }

    method OnConnected(peer: PubKey, budget: Option<Budget>, now: Millis) returns (out: seq<Action>)
      modifies this
      ensures Course(View(), out) == N.Connect(old(View()), peer, budget, now)
    {
      ghost var n := View();
      var policy := if peer in overrides then overrides[peer] else DEFAULT_POLICY;
      if policy.blocked {
        return [Send(peer, MDisconnect(Other)), DropPeer(peer)];
      }
      hide Begin, Greet, N.Kept;
      var kept;
      kept, out := TakeKept(peer, now);
      ghost var ended := out;
      var s;
      s, out := BeginSession(peer, policy, kept, budget, now, out);
      ghost var begun := Begin(cfg, peer, policy, kept, budget, now, nextRequest);
      peers := peers[peer := s];
      ghost var m := View();
      out := GreetPeer(peer, policy, now, out);
      GreetAppends(cfg, peer, policy, begun, now, ended);
      ghost var greeted := Greet(cfg, peer, policy, begun, now);
      DoneTwice(Cleared(n, peer), peer, begun, greeted);
    }

    /** Take out the session to carry on with, if there is one, and let go of any other. */
    method TakeKept(peer: PubKey, now: Millis) returns (kept: Option<PeerSession>, out: seq<Action>)
      modifies this`peers, this`parked
      ensures View() == Cleared(old(View()), peer) && (kept, out) == N.Kept(old(View()), peer, now)
    {
      hide S.Settle, Grant.BudgetAt;
      ghost var n := View();
      out := [];
      if peer in peers {
        var s := peers[peer];
        peers := peers - {peer};
        if !s.phase.Closing? {
          return Some(s), [];
        }
        out := SaveBudgetOf(peer, s, now, out);
        s, out := DiscardSession(peer, s, out);
        assert out == LetGo(peer, n.peers[peer], now);
      }
      assert peers == n.peers - {peer};
      if peer !in parked {
        assert parked == n.parked - {peer};
        return None, out;
      }
      var held := parked[peer];
      parked := parked - {peer};
      if SatSub(now, held.since) <= cfg.node.staleTimeoutMs {
        return Some(held.session), out;
      }
      SettleAppends(peer, Turn(held.session, 0, []), Ids(held.session.grant.channels), 0, out);
      assert out + [] == out;
      var s;
      s, out := DiscardSession(peer, held.session, out);
      kept := None;
    }

    method BeginSession(peer: PubKey, policy: PeerPolicy, kept: Option<PeerSession>, budget: Option<Budget>, now: Millis, before: seq<Action>)
      returns (s: PeerSession, out: seq<Action>)
      ensures var t := Begin(cfg, peer, policy, kept, budget, now, nextRequest);
        s == t.s && out == before + t.out && t.nextRequest == nextRequest
    {
      out := before;
      if kept.Some? {
        s := kept.value.Resume(policy, now);
        ghost var resumed := Turn(s, nextRequest, []);
        hide PeerSession.Resume, S.Settle;
        NextIdAside(peer, resumed, ExpiringIds(s.grant.channels, now, cfg.node.SettleLeadMs()));
        SettleAppends(peer, Turn(s, 0, []), ExpiringIds(s.grant.channels, now, cfg.node.SettleLeadMs()), 0, before);
        assert before + [] == before;
        s, out := SettleExpiringIn(cfg, peer, s, now, out);
      } else {
        s := NewSession(policy, now);
        if budget.Some? {
          s := s.(grant := s.grant.Restore(budget.value, now));
        }
      }
      s := s.(weight := policy.Weight(cfg.node));
    }

    /** Tell a new connection that nothing is carried yet, who we are, what we still hold, and our terms. */
    method GreetPeer(peer: PubKey, policy: PeerPolicy, now: Millis, before: seq<Action>) returns (out: seq<Action>)
      requires peer in peers
      modifies this
      ensures Course(View(), out) == Done(old(View()), peer, Greet(old(cfg), peer, policy, old(At(peer, before)), now))
    {
      hide Readies, S.Refresh, OfferFor, BalanceOf, Ids, Grant.IsLive;
      ghost var n, t := View(), At(peer, before);
      var held := Ids(peers[peer].grant.channels);
      out := before + [SetAccess(peer, AccessLevel.Nothing), Send(peer, MAnnounce(Announce(PROTOCOL_VERSION, cfg.local, cfg.node.unit, 0)))];
      ghost var start := out;
      var i := 0;
      assert held[0..] == held;
      while i < |held|
        invariant 0 <= i <= |held| && View() == n && out + Readies(peer, held[i..]) == start + Readies(peer, held)
      {
        ReadiesUnfold(peer, held[i..]);
        assert held[i..][1..] == held[i + 1..];
        out := out + [Send(peer, MChannelReady(held[i]))];
        i := i + 1;
      }
      ReadiesEnd(peer, held[i..]);
      assert out == start + Readies(peer, held);
      ghost var announced := t.DoAll([SetAccess(peer, AccessLevel.Nothing),
                                      Send(peer, MAnnounce(Announce(PROTOCOL_VERSION, cfg.local, cfg.node.unit, 0)))]
                                     + Readies(peer, held));
      assert View() == Done(n, peer, announced).n;
      assert At(peer, out) == announced;
      var offer := OfferFor(cfg, policy, policy.Weight(cfg.node));
      out := SendOffer(peer, offer, out);
      ghost var offered := At(peer, out);
      DoneTwice(n, peer, announced, offered);
      if !policy.noCharge {
        var s := peers[peer];
        s := s.(budgetLive := s.grant.IsLive(now));
        assert BalanceOf(s, now) == BalanceOf(peers[peer], now) by { BalanceIgnoresLive(s, peers[peer], now); }
        out := out + [Send(peer, BalanceOf(s, now))];
        peers := peers[peer := s];
      }
      ghost var told := At(peer, out);
      DoneTwice(n, peer, offered, told);
      DoneTwice(n, peer, told, S.Refresh(cfg, peer, told, now));
      assert Greet(old(cfg), peer, policy, t, now) == S.Refresh(cfg, peer, told, now);
      out := Refresh(peer, now, out);
    }

    // ----------------------------------------------------------------------
    // Every peer in turn
    // ----------------------------------------------------------------------

    /** Every peer, live or parked, once. */
    method Everyone() returns (order: seq<PubKey>)
      ensures Visits(order, View())
    {
      order := [];
      var rest := peers.Keys + parked.Keys;
      while rest != {}
        invariant forall i, j :: 0 <= i < j < |order| ==> order[i] != order[j]
        invariant forall p :: p in order ==> p !in rest
        invariant forall p :: p in peers || p in parked ==> p in order || p in rest
        decreases |rest|
      {
        var p :| p in rest;
        order := order + [p];
        rest := rest - {p};
      }
    }

    method TickPeer(peer: PubKey, now: Millis, before: seq<Action>) returns (out: seq<Action>)
      modifies this
      ensures Course(View(), out) == N.TickPeer(Course(old(View()), before), peer, now)
    {
      hide ParkPeer, S.PollBuyer, S.PollRollover, S.PollOpening, S.Refresh, S.Settle, Grant.ExpireIfDue;
      out := before;
      if peer !in peers {
        return;
      }
      if Stale(cfg, peers[peer], now) {
        out := Park(peer, now, out);
        out := out + [DropPeer(peer)];
        return;
      }
      ghost var n := View();
      var s := peers[peer];
      s := s.(grant := s.grant.ExpireIfDue(now));
      ghost var expired := Turn(s, nextRequest, []);
      NextIdAside(peer, expired, ExpiringIds(s.grant.channels, now, cfg.node.SettleLeadMs()));
      var told;
      s, told := SettleExpiringIn(cfg, peer, s, now, []);
      ghost var settled := Turn(s, nextRequest, told);
      assert settled == S.SettleExpiring(cfg, peer, expired, now);
      peers := peers[peer := s];
      ghost var shown := S.Refresh(cfg, peer, settled, now);
      ghost var bought := S.PollBuyer(cfg, peer, shown, now);
      ghost var rolled := S.PollRollover(cfg, peer, bought, now);
      told := Refresh(peer, now, told);
      DoneTwice(n, peer, settled, shown);
      assert At(peer, told) == shown;
      told := PollBuyer(peer, now, told);
      DoneTwice(n, peer, shown, bought);
      assert At(peer, told) == bought;
      told := PollRollover(peer, now, told);
      DoneTwice(n, peer, bought, rolled);
      assert At(peer, told) == rolled;
      told := PollOpening(peer, now, told);
      DoneTwice(n, peer, rolled, S.PollOpening(cfg, peer, rolled, now));
      out := before + told;
    }

    /** Let go of what was parked too long, and settle what is near its expiry of the rest. */
    method ExpireParked(order: seq<PubKey>, now: Millis, before: seq<Action>) returns (out: seq<Action>)
      modifies this`parked
      ensures Course(View(), out) == SettleAllParked(ExpireAllParked(Course(old(View()), before), order, now), order, now)
    {
      hide S.Settle;
      out := before;
      ghost var start := Course(View(), before);
      var i := 0;
      while i < |order|
        invariant 0 <= i <= |order|
        invariant ExpireAllParked(Course(View(), out), order[i..], now) == ExpireAllParked(start, order, now)
      {
        var p := order[i];
        if p in parked && SatSub(now, parked[p].since) > cfg.node.staleTimeoutMs {
          var s := parked[p].session;
          SettleAppends(p, Turn(s, 0, []), Ids(s.grant.channels), 0, out);
          assert out + [] == out;
          parked := parked - {p};
          s, out := DiscardSession(p, s, out);
        }
        i := i + 1;
      }
      ghost var expired := Course(View(), out);
      i := 0;
      while i < |order|
        invariant 0 <= i <= |order|
        invariant SettleAllParked(Course(View(), out), order[i..], now) == SettleAllParked(expired, order, now)
      {
        var p := order[i];
        if p in parked {
          var held := parked[p];
          SettleAppends(p, Turn(held.session, 0, []), ExpiringIds(held.session.grant.channels, now, cfg.node.SettleLeadMs()), 0, out);
          assert out + [] == out;
          var s;
          s, out := SettleExpiringIn(cfg, p, held.session, now, out);
          parked := parked[p := held.(session := s)];
        }
        i := i + 1;
      }
    }

    /** Remember when we last sent each peer anything, from the actions about to be carried out. */
    method NoteSent(out: seq<Action>, now: Millis)
      modifies this`peers
      ensures Course(View(), out) == N.NoteSent(Course(old(View()), out), now)
    {
      ghost var was := peers;
      var i := 0;
      assert peers == NotedPeers(was, [], now);
      while i < |out|
        invariant 0 <= i <= |out| && peers == NotedPeers(was, out[..i], now)
        invariant View() == old(View()).(peers := peers)
      {
        var a := out[i];
        NotedOneMore(was, out[..i], a, now);
        assert out[..i + 1] == out[..i] + [a];
        if (a.Send? || a.SignAndSendTopUp?) && a.peer in peers {
          peers := peers[a.peer := peers[a.peer].(lastSent := now)];
        }
        i := i + 1;
      }
      assert out[..|out|] == out;
    }

    /** Send our Offer again to every peer we have sent nothing for a while. */
    method KeepAlive(order: seq<PubKey>, now: Millis, before: seq<Action>) returns (out: seq<Action>)
      modifies this`peers
      ensures Course(View(), out) == KeepAllAlive(Course(old(View()), before), order, now)
    {
      out := before;
      ghost var start := Course(View(), before);
      var interval := cfg.node.KeepaliveIntervalMs();
      var i := 0;
      while i < |order|
        invariant 0 <= i <= |order|
        invariant KeepAllAlive(Course(View(), out), order[i..], now) == KeepAllAlive(start, order, now)
        invariant View() == old(View()).(peers := peers)
      {
        var p := order[i];
        if p in peers {
          var s := peers[p];
          if !s.phase.Closing? && SatSub(now, s.lastSent) >= interval && s.offerSent.Some? {
            out := out + [Send(p, MOffer(s.offerSent.value))];
            peers := peers[p := s.(lastSent := now)];
          }
        }
        i := i + 1;
      }
    }

    method OnTick(now: Millis) returns (out: seq<Action>, ghost order: seq<PubKey>)
      modifies this
      ensures Visits(order, old(View())) && Course(View(), out) == Ticked(old(View()), order, now)
    {
      hide N.TickPeer, ExpireAllParked, SettleAllParked, KeepAllAlive, N.NoteSent;
      var all := Everyone();
      order := all;
      ghost var start := Course(View(), []);
      out := [];
      var i := 0;
      while i < |all|
        invariant 0 <= i <= |all|
        invariant TickPeers(Course(View(), out), all[i..], now) == TickPeers(start, all, now)
      {
        out := TickPeer(all[i], now, out);
        i := i + 1;
      }
      assert all[i..] == [];
      out := ExpireParked(all, now, out);
      NoteSent(out, now);
      out := KeepAlive(all, now, out);
    }

    // ----------------------------------------------------------------------
    // Winding down
    // ----------------------------------------------------------------------

    method WindDownPeer(peer: PubKey, now: Millis, before: seq<Action>) returns (out: seq<Action>)
      modifies this`peers
      ensures Course(View(), out) == N.WindDownPeer(Course(old(View()), before), peer, now)
    {
      hide S.Settle, Grant.BudgetAt;
      out := before;
      if peer !in peers {
        return;
      }
      var s := peers[peer];
      s := s.(phase := Closing);
      ghost var saved := S.Save(peer, Turn(s, nextRequest, []), now);
      out := SaveBudgetOf(peer, s, now, out);
      assert out == before + saved.out;
      NextIdAside(peer, saved, Ids(s.grant.channels));
      SettleAppends(peer, saved.(nextRequest := 0), Ids(s.grant.channels), 0, before);
      s, out := DiscardSession(peer, s, out);
      out := out + [Send(peer, MDisconnect(Other))];
      peers := peers[peer := s];
    }

    method ShutDown(now: Millis) returns (out: seq<Action>, ghost order: seq<PubKey>)
      modifies this
      ensures Visits(order, old(View()))
      ensures Course(View(), out) == WindDownAllParked(WindDownPeers(Course(old(View()), []), order, now), order, now)
    {
      hide N.WindDownPeer, S.Settle, Grant.BudgetAt;
      var all := Everyone();
      order := all;
      ghost var start := Course(View(), []);
      out := [];
      var i := 0;
      while i < |all|
        invariant 0 <= i <= |all|
        invariant WindDownPeers(Course(View(), out), all[i..], now) == WindDownPeers(start, all, now)
      {
        out := WindDownPeer(all[i], now, out);
        i := i + 1;
      }
      assert all[i..] == [];
      ghost var closed := Course(View(), out);
      i := 0;
      while i < |all|
        invariant 0 <= i <= |all|
        invariant WindDownAllParked(Course(View(), out), all[i..], now) == WindDownAllParked(closed, all, now)
      {
        var p := all[i];
        if p in parked {
          var s := parked[p].session;
          ghost var first := out;
          parked := parked - {p};
          out := SaveBudgetOf(p, s, now, out);
          assert out == first + S.Save(p, Turn(s, 0, []), now).out;
          SettleAppends(p, S.Save(p, Turn(s, 0, []), now), Ids(s.grant.channels), 0, first);
          s, out := DiscardSession(p, s, out);
        }
        i := i + 1;
      }
    }

    // ----------------------------------------------------------------------
    // Every event
    // ----------------------------------------------------------------------

    method OnPolicySet(peer: PubKey, policy: PeerPolicy, now: Millis) returns (out: seq<Action>)
      requires peer in peers
      modifies this
      ensures Course(View(), out) == Done(old(View()), peer, N.OnPolicy(old(cfg), peer, old(At(peer, [])), policy, now))
    {
      hide S.Refresh, OfferFor;
      ghost var n := View();
      var s := peers[peer];
      s := s.(policy := policy);
      peers, out := peers[peer := s], [];
      if s.phase.Closing? {
        return;
      }
      ghost var changed := At(peer, []);
      var revised := OfferFor(cfg, policy, s.weight);
      if s.offerSent.Some? && s.offerSent.value != revised {
        out := SendOffer(peer, revised, out);
        DoneTwice(n, peer, changed, At(peer, out));
      }
      DoneTwice(n, peer, At(peer, out), S.Refresh(cfg, peer, At(peer, out), now));
      out := Refresh(peer, now, out);
    }

    /** An event about one peer that is held live. */
    method OnSession(e: Event, now: Millis) returns (out: seq<Action>)
      requires AboutOne(e) && e.peer in peers
      modifies this
      ensures Course(View(), out) == Done(old(View()), e.peer,
        N.OnSession(old(View()), old(At(e.peer, [])), e, old(N.ReservedElsewhere(View(), e.peer)), now))
    {
      hide S.OnMessage, S.OnUnverified, S.OnOutgoingFunded, S.OnIncomingVerified, S.Refresh, S.OnMetered, S.PollBuyer, N.OnPolicy,
        N.ReservedElsewhere, Buyer.FundingFailed;
      ghost var n := View();
      var peer := e.peer;
      var s := peers[peer];
      match e {
        case MessageReceived(_, msg) => out := OnMessage(peer, msg, now);
        case TopUpSignatureInvalid(_, id) =>
          peers := peers[peer := s.(lastSeen := now, grant := s.grant.TopupChecked(now))];
          DoneTwice(n, peer, At(peer, []), S.OnUnverified(cfg, peer, At(peer, []), [id], now));
          out := OnUnverified(peer, [id], now, []);
        case OutgoingChannelFunded(_, request, id, capacity, expiresAt, funding) =>
          out := OnOutgoingFunded(peer, request, id, capacity, expiresAt, funding, now);
        case OutgoingFundingFailed(_, request) =>
          peers, out := peers[peer := s.(buyer := s.buyer.FundingFailed(request))], [];
        case IncomingFundingVerified(_, id, capacity, expiresAt, mintUrl) =>
          if mintUrl in cfg.node.acceptedMints {
            out := OnIncomingVerified(peer, id, capacity, expiresAt, now);
          } else {
            peers, out := peers[peer := s.(phase := Closing)], Rejected(peer, MintNotAccepted);
          }
        case IncomingFundingRejected(_, reason) =>
          peers, out := peers[peer := s.(phase := Closing)], Rejected(peer, reason);
        case Metered(_, counters, carried) =>
          OnMetered(peer, counters, carried, now);
          DoneTwice(n, peer, At(peer, []), S.Refresh(cfg, peer, At(peer, []), now));
          out := Refresh(peer, now, []);
        case DemandObserved(_, rate) =>
          peers := peers[peer := s.(demand := rate)];
          DoneTwice(n, peer, At(peer, []), S.PollBuyer(cfg, peer, At(peer, []), now));
          out := PollBuyer(peer, now, []);
        case PeerPolicySet(_, policy) => out := OnPolicySet(peer, policy, now);
      }
    }

    /** A channel the host has funded: taken for a request still open, or handed back. */
    method OnOutgoingFunded(peer: PubKey, request: u64, id: ChannelId, capacity: u64, expiresAt: Option<Millis>, funding: Bytes, now: Millis)
      returns (out: seq<Action>)
      requires peer in peers
      modifies this
      ensures Course(View(), out) == Done(old(View()), peer,
        if old(peers[peer]).buyer.Answers(request) then
          S.OnOutgoingFunded(old(cfg), peer, old(At(peer, [])), id, capacity, expiresAt, funding, now)
        else old(At(peer, [])).Does(ReclaimChannel(peer, id, capacity, expiresAt)))
    {
      hide S.Refresh;
      ghost var n := View();
      var s := peers[peer];
      if !s.buyer.Answers(request) {
        assert View() == Done(n, peer, At(peer, [])).n;
        return [ReclaimChannel(peer, id, capacity, expiresAt)];
      }
      s := s.(buyer := s.buyer.FundedWith(id, capacity, expiresAt));
      peers := peers[peer := s];
      out := [] + [Send(peer, if s.buyer.active.Some? then MRolloverInit(s.buyer.active.value.id, funding) else MAccept(funding))];
      DoneTwice(n, peer, At(peer, out), S.Refresh(cfg, peer, At(peer, out), now));
      out := Refresh(peer, now, out);
    }

    /**
      Feed in something that happened; get back what to do about it. A tick, and winding down, choose
      their own order of peers.
     */
    method Handle(e: Event, now: Millis) returns (out: seq<Action>, ghost done: Event)
      modifies this
      ensures if e.Tick? then done.Tick? else if e.ShutDown? then done.ShutDown? else done == e
      ensures Possible(old(View()), done) && Course(View(), out) == Step(old(View()), done, now)
    {
      hide N.Connect, N.Disconnect, N.Forget, Ticked, WindDownPeers, WindDownAllParked, N.NoteSent, N.OnPeer;
      done := e;
      match e {
        case PeerConnected(peer, budget) =>
          out := OnConnected(peer, budget, now);
          NoteSent(out, now);
        case PeerDisconnected(peer) =>
          out := OnDisconnected(peer, now);
          NoteSent(out, now);
        case Tick(_) =>
          ghost var order;
          out, order := OnTick(now);
          done := Tick(order);
        case Forgotten(peer) =>
          out := Forget(peer, now);
        case ShutDown(_) =>
          ghost var order;
          out, order := ShutDown(now);
          done := Event.ShutDown(order);
        case BuyerPolicySet(buying) =>
          cfg, out := cfg.(buying := buying), [];
        case PeerPolicySet(peer, policy) =>
          overrides := overrides[peer := policy];
          out := OnPeer(e, now);
          NoteSent(out, now);
        case _ =>
          out := OnPeer(e, now);
          NoteSent(out, now);
      }
    }

    /** An event about one peer, held live or not. */
    method OnPeer(e: Event, now: Millis) returns (out: seq<Action>)
      requires AboutOne(e)
      modifies this
      ensures Course(View(), out) == N.OnPeer(old(View()), e.peer, e, now)
    {
      hide N.OnSession, N.ReservedElsewhere;
      if e.peer in peers {
        out := OnSession(e, now);
      } else {
        out := OnStranger(cfg, e);
      }
    }
  }

  // ------------------------------------------------------------------------
  // Small facts the methods lean on
  // ------------------------------------------------------------------------

  /** What a settlement adds to the actions does not depend on those before it, nor on the next id. */
  lemma SettleAppends(peer: PubKey, t: Turn, ids: seq<ChannelId>, next: u64, before: seq<Action>)
    ensures S.Settle(peer, Turn(t.s, next, before + t.out), ids) ==
      Turn(S.Settle(peer, t, ids).s, next, before + S.Settle(peer, t, ids).out)
  {
  }

  lemma GreetAppends(cfg: Config, peer: PubKey, policy: PeerPolicy, t: Turn, now: Millis, before: seq<Action>)
    ensures Greet(cfg, peer, policy, t.(out := before + t.out), now) ==
      Greet(cfg, peer, policy, t, now).(out := before + Greet(cfg, peer, policy, t, now).out)
  {
    hide Readies, OfferFor, BalanceOf, Ids, AccessOf, RateOf, Grant.IsLive;
  }

  lemma ReadiesUnfold(peer: PubKey, ids: seq<ChannelId>)
    requires ids != []
    ensures Readies(peer, ids) == [Send(peer, MChannelReady(ids[0]))] + Readies(peer, ids[1..])
  {
  }

  lemma ReadiesEnd(peer: PubKey, ids: seq<ChannelId>)
    requires ids == []
    ensures Readies(peer, ids) == []
  {
  }

  lemma BalanceIgnoresLive(s: PeerSession, s': PeerSession, now: Millis)
    requires s == s'.(budgetLive := s.budgetLive)
    ensures BalanceOf(s, now) == BalanceOf(s', now)
  {
  }

  lemma NoticingAsksNothing(peer: PubKey, t: Turn, msg: Message, now: Millis)
    ensures Noticed(peer, t, msg, now).nextRequest == t.nextRequest
  {
    hide ExpiryOf, Buyer.NoteBalance;
  }

  lemma AnnounceAsksNothing(cfg: Config, peer: PubKey, t: Turn, m: Announce)
    ensures S.OnAnnounce(cfg, peer, t, m).nextRequest == t.nextRequest
  {
  }

  /** Hearing from a peer changes nothing anyone has reserved. */
  lemma HearingReservesNothing(n: Node, peer: PubKey, now: Millis)
    requires peer in n.peers
    ensures N.ReservedElsewhere(n.(peers := n.peers[peer := n.peers[peer].(lastSeen := now)]), peer) == N.ReservedElsewhere(n, peer)
  {
    assert n.peers[peer := n.peers[peer].(lastSeen := now)] - {peer} == n.peers - {peer};
  }

  ghost function NotedPeers(peers: map<PubKey, PeerSession>, out: seq<Action>, now: Millis): map<PubKey, PeerSession> {
    map p | p in peers :: if SentTo(out, p) then peers[p].(lastSent := now) else peers[p]
  }

  lemma NotedOneMore(peers: map<PubKey, PeerSession>, out: seq<Action>, a: Action, now: Millis)
    ensures NotedPeers(peers, out + [a], now) ==
      if (a.Send? || a.SignAndSendTopUp?) && a.peer in peers
      then NotedPeers(peers, out, now)[a.peer := NotedPeers(peers, out, now)[a.peer].(lastSent := now)]
      else NotedPeers(peers, out, now)
  {
    forall p: PubKey
      ensures SentTo(out + [a], p) <==> Sends(a, p) || SentTo(out, p)
    {
      SentToOneMore(out, a, p);
    }
    hide SentTo;
  }

  lemma SentToOneMore(out: seq<Action>, a: Action, p: PubKey)
    ensures SentTo(out + [a], p) <==> Sends(a, p) || SentTo(out, p)
  {
    if Sends(a, p) {
      assert a in out + [a];
    } else if SentTo(out, p) {
      var b :| b in out && Sends(b, p);
      assert b in out + [a];
    }
  }

  lemma DemandIgnoresBuyer(s: PeerSession, s': PeerSession)
    requires s' == s.(buyer := s'.buyer)
    ensures forall terms: Terms :: DemandOf(s', terms) == DemandOf(s, terms)
  {
  }
}
