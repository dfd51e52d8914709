/** What an honored purchase does to a session: the one turn that adds to a budget. */
module SessionPurchases {
  import opened Numbers
  import opened Wire
  import opened Limits
  import opened Grants
  import opened GrantChannels
  import opened Sessions
  import opened SessionFrames
  import GrantProperties

  lemma {:induction false} TurnHolds(cs: seq<IncomingChannel>, rs: seq<Ratchet>)
    requires Distinct(cs)
    ensures Distinct(TurnRatchets(cs, rs))
    ensures forall c :: c in cs ==> Held(TurnRatchets(cs, rs), c)
    decreases |rs|
  {
    if rs != [] {
      var found := Find(cs, rs[0].id);
      if found.Some? {
        var turned := found.value.(signed := rs[0].cumulative, failures := 0);
        forall d | d in cs && d.id == turned.id ensures d.expiresAt == turned.expiresAt {
          FindMember(cs, d);
        }
        PutHolds(cs, turned);
        PutKeepsDistinct(cs, turned);
        TurnHolds(Put(cs, turned), rs[1..]);
        forall c | c in cs ensures Held(TurnRatchets(cs, rs), c) {
          var d :| d in Put(cs, turned) && d.id == c.id && d.expiresAt == c.expiresAt;
          assert Held(TurnRatchets(Put(cs, turned), rs[1..]), d);
        }
      } else {
        TurnHolds(cs, rs[1..]);
      }
    }
  }

  lemma ApplyIsValid(g: Grant, ratchets: seq<Ratchet>, grant: u64, windowMs: u64, rate: u64, now: Millis)
    requires g.Valid()
    ensures g.Apply(ratchets, grant, windowMs, rate, now).Valid()
    ensures g.Apply(ratchets, grant, windowMs, rate, now).reservedRate == rate
    ensures g.Apply(ratchets, grant, windowMs, rate, now).lastTopup == g.lastTopup
  {
    hide Second.Close, TurnRatchets;
  }

  /** A channel held after a purchase: raised to the total the purchase names for it, or as it was. */
  ghost predicate SignedBy(before: seq<IncomingChannel>, updates: seq<ChannelUpdate>, d: IncomingChannel) {
    exists c :: c in before && c.id == d.id && Raised(c, updates, d)
  }

  ghost predicate Raised(c: IncomingChannel, updates: seq<ChannelUpdate>, d: IncomingChannel) {
    && c.signed <= d.signed
    && (GrantProperties.NotNamed(d.id, updates) ==> d.signed == c.signed)
    && (forall u :: u in updates && u.channelId == d.id ==> d.signed == u.cumulative)
  }

  ghost predicate Signs(before: seq<IncomingChannel>, updates: seq<ChannelUpdate>, after: seq<IncomingChannel>) {
    forall d :: d in after ==> SignedBy(before, updates, d)
  }

  /** Turning the ratchets of a purchase that is honored signs just what it names. */
  lemma TurningSigns(cs: seq<IncomingChannel>, updates: seq<ChannelUpdate>)
    requires Distinct(cs) && GrantProperties.AllRatchet(cs, updates) && NoRepeat(GrantProperties.ToRatchets(updates))
    ensures Signs(cs, updates, TurnRatchets(cs, GrantProperties.ToRatchets(updates)))
  {
    var rs := GrantProperties.ToRatchets(updates);
    var turned := TurnRatchets(cs, rs);
    TurnHolds(cs, rs);
    GrantProperties.ToRatchetsReads(updates);
    GrantProperties.RatchetsWithin(cs, updates);
    hide TurnRatchets, GrantProperties.ToRatchets, GrantProperties.AllRatchet, GrantProperties.Ratchets, Distinct, Find;
    forall d | d in turned ensures SignedBy(cs, updates, d) {
      FindMember(turned, d);
      TurnReads(cs, rs, d.id);
      var c := Find(cs, d.id).value;
      NamedInBoth(updates, rs, d.id);
      forall u | u in updates && u.channelId == d.id ensures d.signed == u.cumulative {
        var i :| 0 <= i < |updates| && updates[i] == u;
        assert rs[i] == Ratchet(d.id, u.cumulative) && rs[i] in rs;
      }
      if !GrantProperties.NotNamed(d.id, updates) {
        var u :| u in updates && u.channelId == d.id;
        assert GrantProperties.Ratchets(cs, u);
        RatchetRaises(cs, u);
      }
      assert Raised(c, updates, d);
    }
  }

  lemma RatchetRaises(cs: seq<IncomingChannel>, u: ChannelUpdate)
    requires GrantProperties.Ratchets(cs, u)
    ensures Find(cs, u.channelId).Some? && Find(cs, u.channelId).value.signed < u.cumulative
  {
  }

  lemma NamedInBoth(updates: seq<ChannelUpdate>, rs: seq<Ratchet>, id: ChannelId)
    requires |rs| == |updates| && forall i :: 0 <= i < |rs| ==> rs[i] == Ratchet(updates[i].channelId, updates[i].cumulative)
    ensures Named(rs, id) <==> !GrantProperties.NotNamed(id, updates)
  {
    if u :| u in updates && u.channelId == id {
      var i :| 0 <= i < |updates| && updates[i] == u;
      assert rs[i] in rs;
    }
  }

  /** The actions an accepted TopUp comes to: the purchase recorded before all else, the budget saved. */
  ghost predicate HonoredActions(peer: PubKey, t: Turn, t': Turn, m: TopUp, now: Millis) {
    && Adds(peer, t, t')
    && (t.out == [] ==> t'.out != [] && t'.out[0] == RecordUpdates(peer, m.updates))
    && (forall a :: a in t'.out && a.SaveBudget? ==> a in t.out || a == SaveBudget(peer, t'.s.grant.BudgetAt(now)))
    && (!t.s.policy.noCharge ==> SaveBudget(peer, t'.s.grant.BudgetAt(now)) in t'.out)
    && (forall a :: a in t'.out && a.RecordUpdates? ==> a in t.out || a == RecordUpdates(peer, m.updates))
  }

  /** The turn an accepted TopUp takes, before access and speed are shown again. */
  ghost predicate Honored(peer: PubKey, t: Turn, t': Turn, m: TopUp, now: Millis) {
    && HonoredActions(peer, t, t', m, now)
    && Accounted(peer, t.s.grant.channels, t'.s.grant.channels, t'.out)
    && Signs(t.s.grant.channels, m.updates, t'.s.grant.channels)
    && t'.s.grant.Valid() && t'.s.grant.reservedRate == m.reservedRate
    && t'.s.grant.lastTopup == t.s.grant.lastTopup
    && t'.s.policy == t.s.policy && t'.s.phase == t.s.phase
    && t'.s.budgetLive == t'.s.grant.IsLive(now)
  }

  lemma HonorAccounts(peer: PubKey, t: Turn, m: TopUp, ratchets: seq<Ratchet>, grant: u64, now: Millis)
    requires Distinct(t.s.grant.channels)
    ensures var after := Honor(peer, t, m, ratchets, grant, now);
      Accounted(peer, t.s.grant.channels, after.s.grant.channels, after.out)
  {
    var applied := t.s.grant.Apply(ratchets, grant, m.windowMs, m.reservedRate, now);
    GrantProperties.ApplyChannels(t.s.grant, ratchets, grant, m.windowMs, m.reservedRate, now);
    TurnHolds(t.s.grant.channels, ratchets);
    HonorActions(peer, t, m, ratchets, grant, now);
    hide Grant.Apply, TurnRatchets, Honor;
    SettleEachAccounts(peer, applied.channels, ExhaustedIds(applied.channels));
    var (rest, settled) := SettleEach(peer, applied.channels, ExhaustedIds(applied.channels));
    var after := Honor(peer, t, m, ratchets, grant, now);
    forall c | c in t.s.grant.channels
      ensures Held(rest, c) || Settled(after.out, peer, c)
    {
      var d :| d in applied.channels && d.id == c.id && d.expiresAt == c.expiresAt;
      assert Held(rest, d) || Settled(settled, peer, d);
    }
  }

  lemma HonorSigns(peer: PubKey, t: Turn, m: TopUp, ratchets: seq<Ratchet>, grant: u64, now: Millis)
    requires Distinct(t.s.grant.channels) && GrantProperties.AllRatchet(t.s.grant.channels, m.updates)
    requires ratchets == GrantProperties.ToRatchets(m.updates) && NoRepeat(ratchets)
    ensures Signs(t.s.grant.channels, m.updates, Honor(peer, t, m, ratchets, grant, now).s.grant.channels)
  {
    var applied := t.s.grant.Apply(ratchets, grant, m.windowMs, m.reservedRate, now);
    GrantProperties.ApplyChannels(t.s.grant, ratchets, grant, m.windowMs, m.reservedRate, now);
    TurnHolds(t.s.grant.channels, ratchets);
    TurningSigns(t.s.grant.channels, m.updates);
    HonorActions(peer, t, m, ratchets, grant, now);
    hide Grant.Apply, TurnRatchets, Honor, SignedBy, GrantProperties.AllRatchet;
    SettleEachAccounts(peer, applied.channels, ExhaustedIds(applied.channels));
  }

  lemma HonorActs(peer: PubKey, t: Turn, m: TopUp, ratchets: seq<Ratchet>, grant: u64, now: Millis)
    requires Distinct(t.s.grant.channels)
    ensures HonoredActions(peer, t, Honor(peer, t, m, ratchets, grant, now), m, now)
  {
    var applied := t.s.grant.Apply(ratchets, grant, m.windowMs, m.reservedRate, now);
    GrantProperties.ApplyChannels(t.s.grant, ratchets, grant, m.windowMs, m.reservedRate, now);
    TurnHolds(t.s.grant.channels, ratchets);
    SettleEachAccounts(peer, applied.channels, ExhaustedIds(applied.channels));
    HonorActions(peer, t, m, ratchets, grant, now);
    hide Grant.Apply, TurnRatchets, Honor, SettleEach, Accounted, Distinct, BalanceOf, HonoredActions;
    var (rest, settled) := SettleEach(peer, applied.channels, ExhaustedIds(applied.channels));
    var after := Honor(peer, t, m, ratchets, grant, now);
    assert applied.(channels := rest).BudgetAt(now) == applied.BudgetAt(now);
    ActionsFrom(peer, t, after, m, now, settled, BalanceOf(after.s, now));
  }

  lemma ActionsFrom(peer: PubKey, t: Turn, t': Turn, m: TopUp, now: Millis, settled: seq<Action>, told: Message)
    requires forall a :: a in settled ==> a.SettleChannel? && a.peer == peer
    requires t'.out == t.out + [RecordUpdates(peer, m.updates)] + settled
      + (if t.s.policy.noCharge then [] else [SaveBudget(peer, t'.s.grant.BudgetAt(now))]) + [Send(peer, told)]
    ensures HonoredActions(peer, t, t', m, now)
  {
    JoinedActions(t.out, RecordUpdates(peer, m.updates), settled,
                  if t.s.policy.noCharge then [] else [SaveBudget(peer, t'.s.grant.BudgetAt(now))], Send(peer, told));
    hide Grant.BudgetAt;
  }

  lemma HonorIsHonored(peer: PubKey, t: Turn, m: TopUp, ratchets: seq<Ratchet>, grant: u64, now: Millis)
    requires Distinct(t.s.grant.channels) && t.s.grant.Valid() && GrantProperties.AllRatchet(t.s.grant.channels, m.updates)
    requires ratchets == GrantProperties.ToRatchets(m.updates) && NoRepeat(ratchets)
    ensures Honored(peer, t, Honor(peer, t, m, ratchets, grant, now), m, now)
  {
    ApplyIsValid(t.s.grant, ratchets, grant, m.windowMs, m.reservedRate, now);
    HonorAccounts(peer, t, m, ratchets, grant, now);
    HonorSigns(peer, t, m, ratchets, grant, now);
    HonorActs(peer, t, m, ratchets, grant, now);
    HonorActions(peer, t, m, ratchets, grant, now);
    hide Grant.Apply, TurnRatchets, Honor, SettleEach, Accounted, Distinct, HonoredActions, Signs, GrantProperties.AllRatchet;
  }

  lemma JoinedActions(before: seq<Action>, first: Action, settled: seq<Action>, saved: seq<Action>, told: Action)
    ensures forall a :: a in before + [first] + settled + saved + [told] <==>
      a in before || a == first || a in settled || a in saved || a == told
    ensures before == [] ==> (before + [first] + settled + saved + [told])[0] == first
  {
  }

  lemma HonorActions(peer: PubKey, t: Turn, m: TopUp, ratchets: seq<Ratchet>, grant: u64, now: Millis)
    ensures var applied := t.s.grant.Apply(ratchets, grant, m.windowMs, m.reservedRate, now);
      var (rest, settled) := SettleEach(peer, applied.channels, ExhaustedIds(applied.channels));
      var after := Honor(peer, t, m, ratchets, grant, now);
      && after.s == t.s.(grant := applied.(channels := rest), budgetLive := applied.IsLive(now))
      && after.out == t.out + [RecordUpdates(peer, m.updates)] + settled
           + (if t.s.policy.noCharge then [] else [SaveBudget(peer, applied.BudgetAt(now))])
           + [Send(peer, BalanceOf(after.s, now))]
  {
    hide Grant.Apply, SettleEach, ExhaustedIds;
  }

  // ------------------------------------------------------------------------
  // A TopUp, however it is answered
  // ------------------------------------------------------------------------

  function Checked(t: Turn, now: Millis): Turn {
    t.(s := t.s.(grant := t.s.grant.TopupChecked(now)))
  }

  function Judged(cfg: Config, t: Turn, m: TopUp, elsewhere: u64): Verdict {
    Evaluate(t.s.grant, Admission(cfg.node.grants, elsewhere), m.updates, m.windowMs, m.reservedRate)
  }

  lemma AcceptedTopUp(cfg: Config, peer: PubKey, t: Turn, m: TopUp, elsewhere: u64, now: Millis)
    requires Distinct(t.s.grant.channels) && t.s.grant.Valid()
    requires !t.s.grant.TooSoon(now, cfg.node.grants.minTopupGapMs) && Judged(cfg, Checked(t, now), m, elsewhere).Accept?
    ensures Honored(peer, Checked(t, now), OnTopUp(cfg, peer, t, m, elsewhere, now), m, now)
    ensures m.reservedRate <= t.s.grant.reservedRate || m.reservedRate <= Admission(cfg.node.grants, elsewhere).RateAvailable()
  {
    var checked := Checked(t, now);
    var verdict := Judged(cfg, checked, m, elsewhere);
    GrantProperties.HonoredExactlyWhen(checked.s.grant, Admission(cfg.node.grants, elsewhere), m.updates, m.windowMs, m.reservedRate);
    HonorIsHonored(peer, checked, m, verdict.ratchets, verdict.grant, now);
    hide Evaluate, Honor, GrantProperties.AllRatchet;
    ShownAfterHonor(cfg, peer, checked, Honor(peer, checked, m, verdict.ratchets, verdict.grant, now), m, now);
  }

  lemma ShownAfterHonor(cfg: Config, peer: PubKey, t: Turn, u: Turn, m: TopUp, now: Millis)
    requires Honored(peer, t, u, m, now)
    ensures Honored(peer, t, Refresh(cfg, peer, u, now), m, now)
  {
    var v := Refresh(cfg, peer, u, now);
    RefreshIsOrdinary(cfg, peer, u, now);
    assert v.s.grant == u.s.grant && v.s.policy == u.s.policy && v.s.phase == u.s.phase && v.s.budgetLive == u.s.grant.IsLive(now);
    assert u.out != [] ==> v.out != [] && v.out[0] == u.out[0] by {
      hide RateOf, AccessOf, BalanceOf;
    }
    assert forall a :: a in v.out && a.SaveBudget? ==> a in u.out by {
      hide RateOf, AccessOf, BalanceOf;
    }
    hide Refresh, Grant.BudgetAt, Grant.IsLive, Distinct;
  }

  lemma RefusedTopUp(cfg: Config, peer: PubKey, t: Turn, m: TopUp, elsewhere: u64, now: Millis)
    requires Distinct(t.s.grant.channels)
    requires !t.s.grant.TooSoon(now, cfg.node.grants.minTopupGapMs) && Judged(cfg, Checked(t, now), m, elsewhere).Refuse?
    ensures Ordinary(peer, Checked(t, now), OnTopUp(cfg, peer, t, m, elsewhere, now), now)
  {
    var checked := Checked(t, now);
    var after := OnTopUp(cfg, peer, t, m, elsewhere, now);
    var Refuse(reason, available) := Judged(cfg, checked, m, elsewhere);
    hide Evaluate;
    if reason == GrantInvalid {
      OnUnverifiedIsOrdinary(cfg, peer, checked, NotIncreasing(checked.s.grant.channels, m.updates, [], []), now);
    } else {
      var told := checked.Does(Send(peer, MTopUpReject(TopUpReject(RefusedUpdates(m.updates), available, reason))));
      LeavingIsOrdinary(peer, checked, told, now);
      RefreshIsOrdinary(cfg, peer, told, now);
      hide Refresh, Ordinary;
      OrdinaryThen(peer, checked, told, after, now);
    }
  }

  lemma TooSoonTopUp(cfg: Config, peer: PubKey, t: Turn, m: TopUp, elsewhere: u64, now: Millis)
    requires Distinct(t.s.grant.channels) && t.s.grant.TooSoon(now, cfg.node.grants.minTopupGapMs)
    ensures Ordinary(peer, t, OnTopUp(cfg, peer, t, m, elsewhere, now), now)
    ensures OnTopUp(cfg, peer, t, m, elsewhere, now).s == t.s
  {
    LeavingIsOrdinary(peer, t, OnTopUp(cfg, peer, t, m, elsewhere, now), now);
  }
}
