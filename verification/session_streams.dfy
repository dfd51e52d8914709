/**
  A stream of TopUps on one channel, as a session hears it once a link has lost, repeated and reordered
  some. Each total is cumulative, so a lost one costs nothing; but one that comes late is counted a
  failure, the third in a row settles the channel, and one inside the gap is not read at all. What the
  stream grants is therefore the rise to its highest total exactly when that total is read before then.
 */
module SessionStreams {
  import opened Numbers
  import opened Wrappers
  import opened Wire
  import opened Grants
  import opened GrantChannels
  import opened Sessions
  import opened SessionFrames
  import opened SessionPurchases
  import opened SessionAnswers
  import GrantProperties

  // ------------------------------------------------------------------------
  // What a link can see: the totals, and when they arrive
  // ------------------------------------------------------------------------

  /** The total a TopUp names on the channel, and when it arrives. */
  datatype Arrival = Arrival(total: u64, now: Millis)

  /** Inside the gap after the last one read. */
  predicate Early(last: Option<Millis>, now: Millis, gap: u64) {
    last.Some? && SatSub(now, last.value) < gap
  }

  /** The totals of those that are read: each not inside the gap after the one read before it. */
  function Read(arrivals: seq<Arrival>, last: Option<Millis>, gap: u64): seq<u64> {
    if arrivals == [] then []
    else if Early(last, arrivals[0].now, gap) then Read(arrivals[1..], last, gap)
    else [arrivals[0].total] + Read(arrivals[1..], Some(arrivals[0].now), gap)
  }

  /** Not above everything read before it, nor above what was signed already. */
  ghost predicate IsStale(totals: seq<u64>, signed: u64, i: nat)
    requires i < |totals|
  {
    totals[i] <= signed || exists j :: 0 <= j < i && totals[i] <= totals[j]
  }

  /** How many in a row, up to this one, were stale, with the failures held when the stream began. */
  ghost function StaleInARow(totals: seq<u64>, signed: u64, failures: nat, i: nat): nat
    requires i < |totals|
  {
    if !IsStale(totals, signed, i) then 0
    else if i == 0 then failures + 1
    else StaleInARow(totals, signed, failures, i - 1) + 1
  }

  /** The total is among those read, with no third stale one in a row before it. */
  ghost predicate Reached(totals: seq<u64>, signed: u64, failures: nat, top: u64) {
    exists k :: 0 <= k < |totals| && totals[k] == top && NoThirdBefore(totals, signed, failures, k)
  }

  ghost predicate NoThirdBefore(totals: seq<u64>, signed: u64, failures: nat, k: nat)
    requires k <= |totals|
  {
    forall i :: 0 <= i < k ==> StaleInARow(totals, signed, failures, i) < MAX_VERIFICATION_FAILURES
  }

  // ------------------------------------------------------------------------
  // The ratchet of one channel
  // ------------------------------------------------------------------------

  /** A channel as its provider keeps it: what is signed stays known once it is closed. */
  datatype Ratcheting = Ratcheting(held: bool, signed: u64, failures: u64)

  function TurnOnce(r: Ratcheting, total: u64, capacity: u64): Ratcheting {
    if !r.held then r
    else if total > r.signed then Ratcheting(total < capacity, total, 0)
    else Ratcheting(r.failures + 1 < MAX_VERIFICATION_FAILURES, r.signed, Min(r.failures + 1, 0xFFFF_FFFF))
  }

  function TurnAll(r: Ratcheting, totals: seq<u64>, capacity: u64): Ratcheting
    decreases |totals|
  {
    if totals == [] then r else TurnAll(TurnOnce(r, totals[0], capacity), totals[1..], capacity)
  }

  lemma {:induction false} ClosedStays(r: Ratcheting, totals: seq<u64>, capacity: u64)
    requires !r.held
    ensures TurnAll(r, totals, capacity) == r
  {
    if totals != [] {
      ClosedStays(r, totals[1..], capacity);
    }
  }

  lemma {:induction false} SignedOnlyRises(r: Ratcheting, totals: seq<u64>, capacity: u64)
    ensures r.signed <= TurnAll(r, totals, capacity).signed
    decreases |totals|
  {
    if totals != [] {
      SignedOnlyRises(TurnOnce(r, totals[0], capacity), totals[1..], capacity);
    }
  }

  /** One total off the front: the rest is as stale, and as many in a row, as seen from where it leaves off. */
  lemma {:induction false} StaleAfter(totals: seq<u64>, signed: u64, failures: nat, i: nat)
    requires 1 <= i < |totals|
    ensures var signed', failures' := Max(signed, totals[0]), if totals[0] <= signed then failures + 1 else 0;
      && IsStale(totals[1..], signed', i - 1) == IsStale(totals, signed, i)
      && StaleInARow(totals[1..], signed', failures', i - 1) == StaleInARow(totals, signed, failures, i)
    decreases i
  {
    var rest := totals[1..];
    var signed' := Max(signed, totals[0]);
    assert rest[i - 1] == totals[i];
    if IsStale(totals, signed, i) && totals[i] > signed' {
      var j :| 0 <= j < i && totals[i] <= totals[j];
      assert rest[j - 1] == totals[j];
    }
    if IsStale(rest, signed', i - 1) && totals[i] > signed' {
      var j :| 0 <= j < i - 1 && rest[i - 1] <= rest[j];
      assert totals[j + 1] == rest[j];
    }
    if IsStale(rest, signed', i - 1) && totals[i] <= signed' && totals[i] > signed {
      assert totals[i] <= totals[0];
    }
    if i > 1 {
      StaleAfter(totals, signed, failures, i - 1);
    } else {
      assert IsStale(totals, signed, 0) <==> totals[0] <= signed;
    }
  }

  /** Where a stream that names nothing above `top` leaves a channel held: at `top` exactly when it is reached. */
  lemma {:induction false} ReachesIff(r: Ratcheting, totals: seq<u64>, capacity: u64, top: u64)
    requires r.held && r.signed < top <= capacity && r.failures < MAX_VERIFICATION_FAILURES
    requires forall x :: x in totals ==> x <= top
    ensures TurnAll(r, totals, capacity).signed == top <==> Reached(totals, r.signed, r.failures, top)
    ensures TurnAll(r, totals, capacity).signed <= top
    decreases |totals|
  {
    if totals != [] {
      var rest, next := totals[1..], TurnOnce(r, totals[0], capacity);
      assert totals[0] in totals && forall x :: x in rest ==> x in totals;
      assert IsStale(totals, r.signed, 0) <==> totals[0] <= r.signed;
      if totals[0] == top {
        assert NoThirdBefore(totals, r.signed, r.failures, 0);
        StaysAtTop(next, rest, capacity, top);
      } else if !next.held {
        ClosedStays(next, rest, capacity);
        assert StaleInARow(totals, r.signed, r.failures, 0) == r.failures + 1;
      } else {
        ReachesIff(next, rest, capacity, top);
        ReachedAfter(totals, r.signed, r.failures, top);
      }
    }
  }

  lemma {:induction false} StaysAtTop(r: Ratcheting, totals: seq<u64>, capacity: u64, top: u64)
    requires r.signed == top && forall x :: x in totals ==> x <= top
    ensures TurnAll(r, totals, capacity).signed == top
    decreases |totals|
  {
    if totals != [] {
      assert totals[0] in totals && forall x :: x in totals[1..] ==> x in totals;
      StaysAtTop(TurnOnce(r, totals[0], capacity), totals[1..], capacity, top);
    }
  }

  lemma ReachedAfter(totals: seq<u64>, signed: u64, failures: u64, top: u64)
    requires totals != [] && totals[0] != top && failures < MAX_VERIFICATION_FAILURES
    requires totals[0] <= signed ==> failures + 1 < MAX_VERIFICATION_FAILURES
    ensures var signed', failures' := Max(signed, totals[0]), if totals[0] <= signed then failures + 1 else 0;
      Reached(totals, signed, failures, top) <==> Reached(totals[1..], signed', failures', top)
  {
    var rest := totals[1..];
    var signed', failures' := Max(signed, totals[0]), if totals[0] <= signed then failures + 1 else 0;
    forall i | 0 <= i < |rest|
      ensures StaleInARow(rest, signed', failures', i) == StaleInARow(totals, signed, failures, i + 1)
    {
      StaleAfter(totals, signed, failures, i + 1);
    }
    assert StaleInARow(totals, signed, failures, 0) < MAX_VERIFICATION_FAILURES;
    if Reached(totals, signed, failures, top) {
      var k :| 0 <= k < |totals| && totals[k] == top && NoThirdBefore(totals, signed, failures, k);
      assert rest[k - 1] == top;
      assert NoThirdBefore(rest, signed', failures', k - 1);
    }
    if Reached(rest, signed', failures', top) {
      var k :| 0 <= k < |rest| && rest[k] == top && NoThirdBefore(rest, signed', failures', k);
      assert totals[k + 1] == top;
      forall i | 0 <= i < k + 1 ensures StaleInARow(totals, signed, failures, i) < MAX_VERIFICATION_FAILURES {
        if i > 0 {
          assert StaleInARow(rest, signed', failures', i - 1) < MAX_VERIFICATION_FAILURES;
        }
      }
      assert NoThirdBefore(totals, signed, failures, k + 1);
    }
  }

  // ------------------------------------------------------------------------
  // A session hears the stream
  // ------------------------------------------------------------------------

  /** A TopUp arrives, or something passes that leaves the channels and the time of the last check alone. */
  datatype Event =
    | Arrives(m: TopUp, elsewhere: u64, now: Millis)
    | Passes(later: PeerSession)

  /** A purchase on this channel alone, within its capacity, the policy's terms and the rate still free. */
  ghost predicate OnChannel(cfg: Config, id: ChannelId, capacity: u64, e: Event) {
    e.Arrives? ==>
      && |e.m.updates| == 1 && e.m.updates[0].channelId == id && e.m.updates[0].cumulative <= capacity
      && cfg.node.grants.WindowAcceptable(e.m.windowMs) && cfg.node.grants.minReservedRate <= e.m.reservedRate
      && e.m.reservedRate <= Admission(cfg.node.grants, e.elsewhere).RateAvailable()
  }

  /** The turn so far, and what the purchases honored have granted. */
  datatype Hearing = Hearing(t: Turn, granted: nat)

  function Hear(cfg: Config, peer: PubKey, h: Hearing, e: Event): Hearing {
    match e
    case Passes(later) => h.(t := h.t.(s := later))
    case Arrives(m, elsewhere, now) =>
      Hearing(OnTopUp(cfg, peer, h.t, m, elsewhere, now), h.granted + GrantedBy(cfg, h.t, m, elsewhere, now))
  }

  function GrantedBy(cfg: Config, t: Turn, m: TopUp, elsewhere: u64, now: Millis): nat {
    if t.s.grant.TooSoon(now, cfg.node.grants.minTopupGapMs) then 0
    else
      match Judged(cfg, Checked(t, now), m, elsewhere)
      case Accept(_, grant) => grant
      case Refuse(_, _) => 0
  }

  function HearAll(cfg: Config, peer: PubKey, h: Hearing, es: seq<Event>): Hearing
    decreases |es|
  {
    if es == [] then h else HearAll(cfg, peer, Hear(cfg, peer, h, es[0]), es[1..])
  }

  ghost predicate LeavesChannels(h: Hearing, e: Event) {
    e.Passes? ==> e.later.grant.channels == h.t.s.grant.channels && e.later.grant.lastTopup == h.t.s.grant.lastTopup
  }

  /** A stream on one channel: only its purchases arrive, and what passes between them leaves it alone. */
  ghost predicate Stream(cfg: Config, peer: PubKey, h: Hearing, es: seq<Event>, id: ChannelId, capacity: u64)
    decreases |es|
  {
    es == [] ||
    (OnChannel(cfg, id, capacity, es[0]) && LeavesChannels(h, es[0]) &&
     Stream(cfg, peer, Hear(cfg, peer, h, es[0]), es[1..], id, capacity))
  }

  /** What the link delivered, as the link sees it. */
  function Delivered(es: seq<Event>): seq<Arrival> {
    if es == [] then []
    else if es[0].Arrives? && es[0].m.updates != [] then
      [Arrival(es[0].m.updates[0].cumulative, es[0].now)] + Delivered(es[1..])
    else Delivered(es[1..])
  }

  // ------------------------------------------------------------------------
  // The session keeps the ratchet
  // ------------------------------------------------------------------------

  ghost predicate Keeps(t: Turn, id: ChannelId, capacity: u64, r: Ratcheting) {
    && Distinct(t.s.grant.channels)
    && match Find(t.s.grant.channels, id)
       case Some(c) => r.held && c.signed == r.signed && c.failures == r.failures && c.capacity == capacity
       case None => !r.held
  }

  lemma {:induction false} ExhaustedNamed(cs: seq<IncomingChannel>, id: ChannelId)
    requires Distinct(cs)
    ensures id in ExhaustedIds(cs) <==> Find(cs, id).Some? && Find(cs, id).value.Exhausted()
  {
    if cs != [] {
      DistinctTail(cs);
      ExhaustedNamed(cs[1..], id);
    }
  }

  lemma SettledReads(peer: PubKey, cs: seq<IncomingChannel>, ids: seq<ChannelId>, id: ChannelId)
    requires Distinct(cs)
    ensures Distinct(SettleEach(peer, cs, ids).0)
    ensures Find(SettleEach(peer, cs, ids).0, id) == if id in ids then None else Find(cs, id)
  {
    SettleEachAccounts(peer, cs, ids);
    var rest := SettleEach(peer, cs, ids).0;
    hide SettleEach;
    if id !in ids && Find(cs, id).Some? {
      FindMember(rest, Find(cs, id).value);
    }
  }

  /** On one update of a channel held, the decision is the ratchet's alone. */
  lemma OneUpdateJudged(cfg: Config, t: Turn, m: TopUp, elsewhere: u64, now: Millis, id: ChannelId, capacity: u64, r: Ratcheting)
    requires Keeps(t, id, capacity, r) && OnChannel(cfg, id, capacity, Arrives(m, elsewhere, now))
    ensures Judged(cfg, Checked(t, now), m, elsewhere) ==
      var u := m.updates[0];
      if !r.held then Refuse(FundingInvalid, Admission(cfg.node.grants, elsewhere).RateAvailable())
      else if u.cumulative <= r.signed then Refuse(GrantInvalid, Admission(cfg.node.grants, elsewhere).RateAvailable())
      else Accept([Ratchet(id, u.cumulative)], u.cumulative - r.signed)
  {
    hide Distinct, Find;
    var u := m.updates[0];
    assert m.updates[1..] == [];
    if r.held && u.cumulative > r.signed {
      assert [] + [Ratchet(id, u.cumulative)] == [Ratchet(id, u.cumulative)];
      assert Gather(t.s.grant.channels, m.updates[1..], [Ratchet(id, u.cumulative)], u.cumulative - r.signed)
        == Ok(([Ratchet(id, u.cumulative)], u.cumulative - r.signed));
    }
  }

  lemma OneTurned(cs: seq<IncomingChannel>, id: ChannelId, total: u64)
    requires Distinct(cs) && Find(cs, id).Some?
    ensures var turned := TurnRatchets(cs, [Ratchet(id, total)]);
      Distinct(turned) && Find(turned, id) == Some(Find(cs, id).value.(signed := total, failures := 0))
  {
    hide Distinct, Find, Put;
    var c := Find(cs, id).value.(signed := total, failures := 0);
    assert [Ratchet(id, total)][1..] == [];
    assert TurnRatchets(cs, [Ratchet(id, total)]) == TurnRatchets(Put(cs, c), []);
    PutKeepsDistinct(cs, c);
    PutReads(cs, c, id);
  }

  /** A higher total is honored, for the difference; at the capacity the channel is settled with it. */
  lemma HigherIsHonored(cfg: Config, peer: PubKey, t: Turn, m: TopUp, elsewhere: u64, now: Millis, id: ChannelId, capacity: u64, r: Ratcheting)
    requires Keeps(t, id, capacity, r) && OnChannel(cfg, id, capacity, Arrives(m, elsewhere, now))
    requires r.held && m.updates[0].cumulative > r.signed
    requires !t.s.grant.TooSoon(now, cfg.node.grants.minTopupGapMs)
    ensures var after := OnTopUp(cfg, peer, t, m, elsewhere, now);
      && Keeps(after, id, capacity, TurnOnce(r, m.updates[0].cumulative, capacity))
      && after.s.grant.lastTopup == Some(now)
    ensures GrantedBy(cfg, t, m, elsewhere, now) == m.updates[0].cumulative - r.signed
  {
    hide Evaluate, Grant.Apply, Honor, Refresh, TurnRatchets, SettleEach, ExhaustedIds, Distinct, Find, Ordinary;
    OneUpdateJudged(cfg, t, m, elsewhere, now, id, capacity, r);
    var checked, total := Checked(t, now), m.updates[0].cumulative;
    var ratchets, grant := [Ratchet(id, total)], total - r.signed;
    var cs := checked.s.grant.channels;
    OneTurned(cs, id, total);
    GrantProperties.ApplyChannels(checked.s.grant, ratchets, grant, m.windowMs, m.reservedRate, now);
    var turned := TurnRatchets(cs, ratchets);
    ExhaustedNamed(turned, id);
    SettledReads(peer, turned, ExhaustedIds(turned), id);
    HonorActions(peer, checked, m, ratchets, grant, now);
    var honored := Honor(peer, checked, m, ratchets, grant, now);
    assert honored.s.grant.lastTopup == Some(now) by { AppliedLast(checked.s.grant, ratchets, grant, m.windowMs, m.reservedRate, now); }
    RefreshIsOrdinary(cfg, peer, honored, now);
  }

  lemma AppliedLast(g: Grant, ratchets: seq<Ratchet>, grant: u64, windowMs: u64, rate: u64, now: Millis)
    ensures g.Apply(ratchets, grant, windowMs, rate, now).lastTopup == g.lastTopup
  {
    hide TurnRatchets;
  }

  /** One no higher is counted a failure, and the third in a row settles the channel. */
  lemma StaleIsCounted(cfg: Config, peer: PubKey, t: Turn, m: TopUp, elsewhere: u64, now: Millis, id: ChannelId, capacity: u64, r: Ratcheting)
    requires Keeps(t, id, capacity, r) && OnChannel(cfg, id, capacity, Arrives(m, elsewhere, now))
    requires r.held && m.updates[0].cumulative <= r.signed
    requires !t.s.grant.TooSoon(now, cfg.node.grants.minTopupGapMs)
    ensures var after := OnTopUp(cfg, peer, t, m, elsewhere, now);
      && Keeps(after, id, capacity, TurnOnce(r, m.updates[0].cumulative, capacity))
      && after.s.grant.lastTopup == Some(now)
    ensures GrantedBy(cfg, t, m, elsewhere, now) == 0
    ensures r.failures + 1 >= MAX_VERIFICATION_FAILURES ==>
      SettleChannel(peer, id, Find(t.s.grant.channels, id).value.expiresAt) in OnTopUp(cfg, peer, t, m, elsewhere, now).out
  {
    hide Evaluate, OnUnverified, Distinct, Find;
    OneUpdateJudged(cfg, t, m, elsewhere, now, id, capacity, r);
    var checked := Checked(t, now);
    assert m.updates[1..] == [];
    assert [] + [id] == [id];
    assert NotIncreasing(checked.s.grant.channels, m.updates, [], []) == NotIncreasing(checked.s.grant.channels, m.updates[1..], [id], [id]);
    OneFailure(cfg, peer, checked, id, now);
    OnUnverifiedIsOrdinary(cfg, peer, checked, [id], now);
  }

  /** With the channel gone it is refused, and nothing else. */
  lemma ClosedIsRefused(cfg: Config, peer: PubKey, t: Turn, m: TopUp, elsewhere: u64, now: Millis, id: ChannelId, capacity: u64, r: Ratcheting)
    requires Keeps(t, id, capacity, r) && OnChannel(cfg, id, capacity, Arrives(m, elsewhere, now)) && !r.held
    requires !t.s.grant.TooSoon(now, cfg.node.grants.minTopupGapMs)
    ensures var after := OnTopUp(cfg, peer, t, m, elsewhere, now);
      Keeps(after, id, capacity, r) && after.s.grant.lastTopup == Some(now)
    ensures GrantedBy(cfg, t, m, elsewhere, now) == 0
  {
    hide Evaluate, OnUnverified, Refresh, Distinct, Find;
    OneUpdateJudged(cfg, t, m, elsewhere, now, id, capacity, r);
    var checked := Checked(t, now);
    var told := checked.Does(Send(peer, MTopUpReject(TopUpReject(RefusedUpdates(m.updates), Admission(cfg.node.grants, elsewhere).RateAvailable(), FundingInvalid))));
    RefreshIsOrdinary(cfg, peer, told, now);
  }

  /** Over a whole stream the session keeps the ratchet of what was read, and grants what it rises by. */
  lemma {:induction false} StreamKeepsRatchet(cfg: Config, peer: PubKey, h: Hearing, es: seq<Event>, id: ChannelId, capacity: u64, r: Ratcheting)
    requires Keeps(h.t, id, capacity, r) && Stream(cfg, peer, h, es, id, capacity)
    ensures var last := TurnAll(r, Read(Delivered(es), h.t.s.grant.lastTopup, cfg.node.grants.minTopupGapMs), capacity);
      && Keeps(HearAll(cfg, peer, h, es).t, id, capacity, last)
      && HearAll(cfg, peer, h, es).granted - h.granted == last.signed - r.signed
    decreases |es|
  {
    hide OnTopUp, GrantedBy, Keeps, OnChannel;
    if es != [] {
      var e, rest, gap := es[0], es[1..], cfg.node.grants.minTopupGapMs;
      var next := Hear(cfg, peer, h, e);
      match e
      case Passes(later) =>
        KeepsAside(h.t, later, id, capacity, r);
        StreamKeepsRatchet(cfg, peer, next, rest, id, capacity, r);
        assert Delivered(es) == Delivered(rest);
      case Arrives(m, elsewhere, now) =>
        OneArrives(cfg, peer, h.t, m, elsewhere, now, id, capacity, r);
        var total := m.updates[0].cumulative;
        var arrivals := Delivered(es);
        assert arrivals[0] == Arrival(total, now) && arrivals[1..] == Delivered(rest);
        if h.t.s.grant.TooSoon(now, gap) {
          StreamKeepsRatchet(cfg, peer, next, rest, id, capacity, r);
        } else {
          var read := Read(arrivals[1..], Some(now), gap);
          assert Read(arrivals, h.t.s.grant.lastTopup, gap) == [total] + read;
          assert ([total] + read)[1..] == read;
          StreamKeepsRatchet(cfg, peer, next, rest, id, capacity, TurnOnce(r, total, capacity));
        }
    }
  }

  lemma KeepsAside(t: Turn, later: PeerSession, id: ChannelId, capacity: u64, r: Ratcheting)
    requires Keeps(t, id, capacity, r) && later.grant.channels == t.s.grant.channels
    ensures Keeps(t.(s := later), id, capacity, r)
  {
  }

  /** One arrival: not read inside the gap, and otherwise one turn of the ratchet. */
  lemma OneArrives(cfg: Config, peer: PubKey, t: Turn, m: TopUp, elsewhere: u64, now: Millis, id: ChannelId, capacity: u64, r: Ratcheting)
    requires Keeps(t, id, capacity, r) && OnChannel(cfg, id, capacity, Arrives(m, elsewhere, now))
    ensures |m.updates| == 1
    ensures var after, soon := OnTopUp(cfg, peer, t, m, elsewhere, now), t.s.grant.TooSoon(now, cfg.node.grants.minTopupGapMs);
      var r' := if soon then r else TurnOnce(r, m.updates[0].cumulative, capacity);
      && Keeps(after, id, capacity, r')
      && after.s.grant.lastTopup == (if soon then t.s.grant.lastTopup else Some(now))
      && GrantedBy(cfg, t, m, elsewhere, now) == r'.signed - r.signed
  {
    if t.s.grant.TooSoon(now, cfg.node.grants.minTopupGapMs) {
      hide Evaluate, Distinct, Find;
    } else {
      hide OnTopUp, GrantedBy, Keeps;
      if !r.held {
        ClosedIsRefused(cfg, peer, t, m, elsewhere, now, id, capacity, r);
      } else if m.updates[0].cumulative > r.signed {
        HigherIsHonored(cfg, peer, t, m, elsewhere, now, id, capacity, r);
      } else {
        StaleIsCounted(cfg, peer, t, m, elsewhere, now, id, capacity, r);
      }
    }
  }

  // ------------------------------------------------------------------------
  // What a stream grants
  // ------------------------------------------------------------------------

  /** The channel is held with less signed than `top`, and no third failure on it yet. */
  ghost predicate Below(t: Turn, id: ChannelId, top: u64) {
    && Distinct(t.s.grant.channels)
    && match Find(t.s.grant.channels, id)
       case Some(c) => c.signed < top <= c.capacity && c.failures < MAX_VERIFICATION_FAILURES
       case None => false
  }

  function ChannelOf(t: Turn, id: ChannelId): IncomingChannel
    requires Find(t.s.grant.channels, id).Some?
  {
    Find(t.s.grant.channels, id).value
  }

  function Granted(cfg: Config, peer: PubKey, h: Hearing, es: seq<Event>): int {
    HearAll(cfg, peer, h, es).granted - h.granted
  }

  function ReadBy(cfg: Config, h: Hearing, es: seq<Event>): seq<u64> {
    Read(Delivered(es), h.t.s.grant.lastTopup, cfg.node.grants.minTopupGapMs)
  }

  lemma {:induction false} ReadOf(arrivals: seq<Arrival>, last: Option<Millis>, gap: u64, top: u64)
    requires forall a :: a in arrivals ==> a.total <= top
    ensures forall x :: x in Read(arrivals, last, gap) ==> x <= top
    decreases |arrivals|
  {
    if arrivals != [] {
      assert arrivals[0] in arrivals && forall a :: a in arrivals[1..] ==> a in arrivals;
      ReadOf(arrivals[1..], if Early(last, arrivals[0].now, gap) then last else Some(arrivals[0].now), gap, top);
    }
  }

  /**
    However a link loses, repeats and reorders a stream that names nothing above `top`, it grants at most
    the rise to `top`, and all of it exactly when `top` is among what is read with no third stale total in
    a row before it, counting the failures held when the stream began.
   */
  lemma StreamGrantsIff(cfg: Config, peer: PubKey, h: Hearing, es: seq<Event>, id: ChannelId, top: u64)
    requires Below(h.t, id, top) && Stream(cfg, peer, h, es, id, ChannelOf(h.t, id).capacity)
    requires forall a :: a in Delivered(es) ==> a.total <= top
    ensures var c := ChannelOf(h.t, id);
      && 0 <= Granted(cfg, peer, h, es) <= top - c.signed
      && (Granted(cfg, peer, h, es) == top - c.signed <==> Reached(ReadBy(cfg, h, es), c.signed, c.failures, top))
  {
    hide HearAll, Stream, Delivered, Read, TurnAll, Reached, Find, Distinct;
    var c := ChannelOf(h.t, id);
    var r := Ratcheting(true, c.signed, c.failures);
    ReadOf(Delivered(es), h.t.s.grant.lastTopup, cfg.node.grants.minTopupGapMs, top);
    StreamKeepsRatchet(cfg, peer, h, es, id, c.capacity, r);
    ReachesIff(r, ReadBy(cfg, h, es), c.capacity, top);
    SignedOnlyRises(r, ReadBy(cfg, h, es), c.capacity);
  }

  /** Each total above the one before it, and above what is signed. */
  ghost predicate Rising(arrivals: seq<Arrival>, signed: u64) {
    arrivals == [] || (signed < arrivals[0].total && Rising(arrivals[1..], arrivals[0].total))
  }

  /** None arrives inside the gap after the one before it. */
  ghost predicate Spaced(arrivals: seq<Arrival>, last: Option<Millis>, gap: u64) {
    arrivals == [] || (!Early(last, arrivals[0].now, gap) && Spaced(arrivals[1..], Some(arrivals[0].now), gap))
  }

  function Top(arrivals: seq<Arrival>): u64
    requires arrivals != []
  {
    arrivals[|arrivals| - 1].total
  }

  lemma {:induction false} RisingBelowTop(arrivals: seq<Arrival>, signed: u64)
    requires arrivals != [] && Rising(arrivals, signed)
    ensures signed < Top(arrivals) && forall a :: a in arrivals ==> signed < a.total <= Top(arrivals)
    decreases |arrivals|
  {
    if |arrivals| > 1 {
      RisingBelowTop(arrivals[1..], arrivals[0].total);
      assert forall a :: a in arrivals ==> a == arrivals[0] || a in arrivals[1..];
    }
  }

  /** Read in order, nothing is stale: each total is above what is signed and all before it. */
  lemma {:induction false} RisingRatchets(arrivals: seq<Arrival>, last: Option<Millis>, gap: u64, r: Ratcheting, capacity: u64)
    requires Rising(arrivals, r.signed) && r.held && forall a :: a in arrivals ==> a.total <= capacity
    ensures var totals := Read(arrivals, last, gap);
      TurnAll(r, totals, capacity).signed == if totals == [] then r.signed else totals[|totals| - 1]
    decreases |arrivals|
  {
    if arrivals != [] {
      var a, rest := arrivals[0], arrivals[1..];
      assert a in arrivals && forall b :: b in rest ==> b in arrivals;
      if rest != [] {
        RisingBelowTop(rest, a.total);
        assert Top(rest) == Top(arrivals) && arrivals[|arrivals| - 1] in arrivals;
      }
      if Early(last, a.now, gap) {
        RisingAbove(rest, a.total, r.signed);
        RisingRatchets(rest, last, gap, r, capacity);
      } else {
        var read := Read(rest, Some(a.now), gap);
        assert Read(arrivals, last, gap) == [a.total] + read && ([a.total] + read)[1..] == read;
        var next := TurnOnce(r, a.total, capacity);
        if rest == [] {
          assert TurnAll(next, [], capacity) == next;
        } else {
          RisingRatchets(rest, Some(a.now), gap, next, capacity);
        }
      }
    }
  }

  lemma RisingAbove(arrivals: seq<Arrival>, signed: u64, lower: u64)
    requires Rising(arrivals, signed) && lower <= signed
    ensures Rising(arrivals, lower)
  {
  }

  lemma {:induction false} SpacedIsRead(arrivals: seq<Arrival>, last: Option<Millis>, gap: u64)
    requires Spaced(arrivals, last, gap)
    ensures |Read(arrivals, last, gap)| == |arrivals|
    ensures forall i :: 0 <= i < |arrivals| ==> Read(arrivals, last, gap)[i] == arrivals[i].total
    decreases |arrivals|
  {
    if arrivals != [] {
      SpacedIsRead(arrivals[1..], Some(arrivals[0].now), gap);
    }
  }

  /**
    In order, whatever is lost, repeats nothing and so counts no failure: what is granted is the rise to
    the last total read, and to the last sent exactly when that one is read.
   */
  lemma InOrderGrantsToTheLastRead(cfg: Config, peer: PubKey, h: Hearing, es: seq<Event>, id: ChannelId)
    requires Delivered(es) != [] && Below(h.t, id, Top(Delivered(es)))
    requires Stream(cfg, peer, h, es, id, ChannelOf(h.t, id).capacity) && Rising(Delivered(es), ChannelOf(h.t, id).signed)
    ensures var read, signed := ReadBy(cfg, h, es), ChannelOf(h.t, id).signed;
      Granted(cfg, peer, h, es) == (if read == [] then 0 else read[|read| - 1] - signed)
    ensures Spaced(Delivered(es), h.t.s.grant.lastTopup, cfg.node.grants.minTopupGapMs) ==>
      Granted(cfg, peer, h, es) == Top(Delivered(es)) - ChannelOf(h.t, id).signed
  {
    hide HearAll, Stream, Delivered, Read, TurnAll, Find, Distinct, Rising, Spaced;
    var c := ChannelOf(h.t, id);
    var r := Ratcheting(true, c.signed, c.failures);
    RisingBelowTop(Delivered(es), c.signed);
    StreamKeepsRatchet(cfg, peer, h, es, id, c.capacity, r);
    RisingRatchets(Delivered(es), h.t.s.grant.lastTopup, cfg.node.grants.minTopupGapMs, r, c.capacity);
    if Spaced(Delivered(es), h.t.s.grant.lastTopup, cfg.node.grants.minTopupGapMs) {
      SpacedIsRead(Delivered(es), h.t.s.grant.lastTopup, cfg.node.grants.minTopupGapMs);
    }
  }

  /**
    Full delivery against what a link makes of it. Sent in order and spaced, a stream grants the rise to
    its last total. Any selection of it, repeated and reordered, grants as much exactly when that total
    is reached.
   */
  lemma SameAsFullDeliveryIff(cfg: Config, peer: PubKey, h: Hearing, sent: seq<Event>, arrived: seq<Event>, id: ChannelId)
    requires Delivered(sent) != [] && Below(h.t, id, Top(Delivered(sent)))
    requires Stream(cfg, peer, h, sent, id, ChannelOf(h.t, id).capacity) && Rising(Delivered(sent), ChannelOf(h.t, id).signed)
    requires Spaced(Delivered(sent), h.t.s.grant.lastTopup, cfg.node.grants.minTopupGapMs)
    requires Stream(cfg, peer, h, arrived, id, ChannelOf(h.t, id).capacity)
    requires forall a :: a in Delivered(arrived) ==> exists b :: b in Delivered(sent) && b.total == a.total
    ensures var c, top := ChannelOf(h.t, id), Top(Delivered(sent));
      && Granted(cfg, peer, h, sent) == top - c.signed
      && (Granted(cfg, peer, h, arrived) == Granted(cfg, peer, h, sent)
          <==> Reached(ReadBy(cfg, h, arrived), c.signed, c.failures, top))
  {
    hide HearAll, Stream, Delivered, Read, Reached, Find, Distinct, Spaced, Rising;
    InOrderGrantsToTheLastRead(cfg, peer, h, sent, id);
    RisingBelowTop(Delivered(sent), ChannelOf(h.t, id).signed);
    StreamGrantsIff(cfg, peer, h, arrived, id, Top(Delivered(sent)));
  }

  /** So an in-order part of a stream that keeps its last message, spaced, grants what all of it does. */
  lemma LossIsHarmless(cfg: Config, peer: PubKey, h: Hearing, sent: seq<Event>, arrived: seq<Event>, id: ChannelId)
    requires Delivered(sent) != [] && Delivered(arrived) != [] && Top(Delivered(arrived)) == Top(Delivered(sent))
    requires Below(h.t, id, Top(Delivered(sent)))
    requires Stream(cfg, peer, h, sent, id, ChannelOf(h.t, id).capacity) && Rising(Delivered(sent), ChannelOf(h.t, id).signed)
    requires Stream(cfg, peer, h, arrived, id, ChannelOf(h.t, id).capacity) && Rising(Delivered(arrived), ChannelOf(h.t, id).signed)
    requires Spaced(Delivered(sent), h.t.s.grant.lastTopup, cfg.node.grants.minTopupGapMs)
    requires Spaced(Delivered(arrived), h.t.s.grant.lastTopup, cfg.node.grants.minTopupGapMs)
    ensures Granted(cfg, peer, h, arrived) == Granted(cfg, peer, h, sent) == Top(Delivered(sent)) - ChannelOf(h.t, id).signed
  {
    hide HearAll, Stream, Delivered, Read, Find, Distinct, Spaced, Rising;
    InOrderGrantsToTheLastRead(cfg, peer, h, sent, id);
    InOrderGrantsToTheLastRead(cfg, peer, h, arrived, id);
  }

  /**
    The arrival that fails: 10, 20, 30, 40 sent and 30, 10, 20, 10, 40 read. The third stale total in a
    row settles the channel, the 40 is refused, and 30 is granted where full delivery grants 40.
   */
  lemma ThreeStaleLoseTheRest(cfg: Config, peer: PubKey, h: Hearing, es: seq<Event>, id: ChannelId)
    requires Below(h.t, id, 40) && ChannelOf(h.t, id).signed == 0 && ChannelOf(h.t, id).failures == 0
    requires Stream(cfg, peer, h, es, id, ChannelOf(h.t, id).capacity)
    requires ReadBy(cfg, h, es) == [30, 10, 20, 10, 40]
    ensures Granted(cfg, peer, h, es) == 30
    ensures Find(HearAll(cfg, peer, h, es).t.s.grant.channels, id).None?
  {
    hide HearAll, Stream, Delivered, Read, Find, Distinct;
    var capacity := ChannelOf(h.t, id).capacity;
    StreamKeepsRatchet(cfg, peer, h, es, id, capacity, Ratcheting(true, 0, 0));
    assert [30, 10, 20, 10, 40][1..] == [10, 20, 10, 40] && [10, 20, 10, 40][1..] == [20, 10, 40];
    assert [20, 10, 40][1..] == [10, 40] && [10, 40][1..] == [40] && [40][1..] == [];
    var closed := Ratcheting(false, 30, 3);
    ClosedStays(closed, [40], capacity);
    assert TurnAll(Ratcheting(true, 30, 2), [10, 40], capacity) == TurnAll(closed, [40], capacity);
    assert TurnAll(Ratcheting(true, 30, 1), [20, 10, 40], capacity) == closed;
    assert TurnAll(Ratcheting(true, 30, 0), [10, 20, 10, 40], capacity) == closed;
    assert TurnAll(Ratcheting(true, 0, 0), [30, 10, 20, 10, 40], capacity) == closed;
  }

  /** Totals sent on one channel, the gap between each and the next. */
  function Sending(totals: seq<u64>, id: ChannelId, signed: Signature, windowMs: u64, rate: u64, now: Millis, gap: u64): seq<Event>
    requires now + |totals| * gap <= U64_MAX
    decreases |totals|
  {
    if totals == [] then []
    else
      assert |totals| * gap == gap + |totals[1..]| * gap;
      [Arrives(TopUp([ChannelUpdate(id, totals[0], signed)], windowMs, rate), 0, now)] + Sending(totals[1..], id, signed, windowMs, rate, now + gap, gap)
  }

  lemma {:induction false} SendingIsStream(cfg: Config, peer: PubKey, h: Hearing, totals: seq<u64>, id: ChannelId, capacity: u64,
                                           signed: Signature, windowMs: u64, rate: u64, now: Millis, gap: u64)
    requires now + |totals| * gap <= U64_MAX && forall x :: x in totals ==> x <= capacity
    requires cfg.node.grants.WindowAcceptable(windowMs) && cfg.node.grants.minReservedRate <= rate <= Admission(cfg.node.grants, 0).RateAvailable()
    ensures Stream(cfg, peer, h, Sending(totals, id, signed, windowMs, rate, now, gap), id, capacity)
    decreases |totals|
  {
    hide Hear, GrantPolicy.WindowAcceptable, Admission.RateAvailable;
    if totals != [] {
      var rest, es := totals[1..], Sending(totals, id, signed, windowMs, rate, now, gap);
      assert |totals| * gap == gap + |rest| * gap;
      assert totals[0] in totals && forall x :: x in rest ==> x in totals;
      SendingIsStream(cfg, peer, Hear(cfg, peer, h, es[0]), rest, id, capacity, signed, windowMs, rate, now + gap, gap);
      assert es[1..] == Sending(rest, id, signed, windowMs, rate, now + gap, gap);
    }
  }

  lemma {:induction false} SendingIsRead(totals: seq<u64>, id: ChannelId, signed: Signature, windowMs: u64, rate: u64,
                                         now: Millis, gap: u64, last: Option<Millis>)
    requires now + |totals| * gap <= U64_MAX && !Early(last, now, gap)
    ensures Read(Delivered(Sending(totals, id, signed, windowMs, rate, now, gap)), last, gap) == totals
    decreases |totals|
  {
    if totals != [] {
      var rest, es := totals[1..], Sending(totals, id, signed, windowMs, rate, now, gap);
      assert |totals| * gap == gap + |rest| * gap;
      SendingIsRead(rest, id, signed, windowMs, rate, now + gap, gap, Some(now));
      assert es[1..] == Sending(rest, id, signed, windowMs, rate, now + gap, gap);
      assert Delivered(es)[1..] == Delivered(es[1..]) && Delivered(es)[0] == Arrival(totals[0], now);
    }
  }

  /** A session paid on one channel of 100 units, none of them signed. */
  function PaidOn(id: ChannelId): Hearing {
    var s := NewSession(DEFAULT_POLICY, 0);
    Hearing(Turn(s.(grant := s.grant.OpenChannel(id, 100, None)), 0, []), 0)
  }

  /** That arrival at a session: what was sent in order grants 40, and the same totals so read grant 30. */
  lemma ThreeStaleHappen(cfg: Config, peer: PubKey, id: ChannelId, signed: Signature, windowMs: u64, rate: u64)
    requires 5 * cfg.node.grants.minTopupGapMs <= U64_MAX
    requires cfg.node.grants.WindowAcceptable(windowMs) && cfg.node.grants.minReservedRate <= rate <= Admission(cfg.node.grants, 0).RateAvailable()
    ensures var h, gap := PaidOn(id), cfg.node.grants.minTopupGapMs;
      && Granted(cfg, peer, h, Sending([10, 20, 30, 40], id, signed, windowMs, rate, 0, gap)) == 40
      && Granted(cfg, peer, h, Sending([30, 10, 20, 10, 40], id, signed, windowMs, rate, 0, gap)) == 30
  {
    hide HearAll, Stream, Delivered, Read, Sending, TurnAll;
    var h, gap := PaidOn(id), cfg.node.grants.minTopupGapMs;
    var c := IncomingChannel(id, 100, 0, 0, None);
    assert h.t.s.grant.channels == [c] && Find([c], id) == Some(c);
    SendingIsStream(cfg, peer, h, [30, 10, 20, 10, 40], id, 100, signed, windowMs, rate, 0, gap);
    SendingIsRead([30, 10, 20, 10, 40], id, signed, windowMs, rate, 0, gap, None);
    ThreeStaleLoseTheRest(cfg, peer, h, Sending([30, 10, 20, 10, 40], id, signed, windowMs, rate, 0, gap), id);
    SendingIsStream(cfg, peer, h, [10, 20, 30, 40], id, 100, signed, windowMs, rate, 0, gap);
    SendingIsRead([10, 20, 30, 40], id, signed, windowMs, rate, 0, gap, None);
    StreamKeepsRatchet(cfg, peer, h, Sending([10, 20, 30, 40], id, signed, windowMs, rate, 0, gap), id, 100, Ratcheting(true, 0, 0));
    InOrderTurns();
  }

  lemma InOrderTurns()
    ensures TurnAll(Ratcheting(true, 0, 0), [10, 20, 30, 40], 100) == Ratcheting(true, 40, 0)
  {
    assert [10, 20, 30, 40][1..] == [20, 30, 40] && [20, 30, 40][1..] == [30, 40] && [30, 40][1..] == [40] && [40][1..] == [];
    assert TurnAll(Ratcheting(true, 30, 0), [40], 100) == TurnAll(Ratcheting(true, 40, 0), [], 100);
    assert TurnAll(Ratcheting(true, 20, 0), [30, 40], 100) == Ratcheting(true, 40, 0);
    assert TurnAll(Ratcheting(true, 10, 0), [20, 30, 40], 100) == Ratcheting(true, 40, 0);
  }

  // ------------------------------------------------------------------------
  // One that is delivered again
  // ------------------------------------------------------------------------

  /** A purchase honored, and delivered again after any of the stream, grants nothing. */
  lemma RedeliveredGrantsNothing(cfg: Config, peer: PubKey, h: Hearing, m: TopUp, elsewhere: u64, at: Millis, es: seq<Event>,
                                 again: u64, later: Millis, id: ChannelId)
    requires Distinct(h.t.s.grant.channels) && Find(h.t.s.grant.channels, id).Some? && ChannelOf(h.t, id).failures < MAX_VERIFICATION_FAILURES
    requires Stream(cfg, peer, h, [Arrives(m, elsewhere, at)] + es, id, ChannelOf(h.t, id).capacity)
    requires GrantedBy(cfg, h.t, m, elsewhere, at) > 0
    requires OnChannel(cfg, id, ChannelOf(h.t, id).capacity, Arrives(m, again, later))
    ensures GrantedBy(cfg, HearAll(cfg, peer, h, [Arrives(m, elsewhere, at)] + es).t, m, again, later) == 0
  {
    var c, first := ChannelOf(h.t, id), Arrives(m, elsewhere, at);
    var r := Ratcheting(true, c.signed, c.failures);
    var next := Hear(cfg, peer, h, first);
    assert ([first] + es)[1..] == es;
    OneArrives(cfg, peer, h.t, m, elsewhere, at, id, c.capacity, r);
    hide OnTopUp, GrantedBy, Delivered, Read, TurnAll, Find, Distinct;
    var turned := TurnOnce(r, m.updates[0].cumulative, c.capacity);
    StreamKeepsRatchet(cfg, peer, next, es, id, c.capacity, turned);
    var totals := Read(Delivered(es), next.t.s.grant.lastTopup, cfg.node.grants.minTopupGapMs);
    var reached := TurnAll(turned, totals, c.capacity);
    SignedOnlyRises(turned, totals, c.capacity);
    OneArrives(cfg, peer, HearAll(cfg, peer, next, es).t, m, again, later, id, c.capacity, reached);
  }

  /** A channel with one failure more, or none at its third. */
  function Counted(before: Option<IncomingChannel>, failed: bool): Option<IncomingChannel> {
    if !failed || before.None? then before
    else if before.value.failures + 1 >= MAX_VERIFICATION_FAILURES then None
    else Some(before.value.(failures := before.value.failures + 1))
  }

  /** Failures counted one after another: each channel named has one more, or is settled at its third. */
  lemma {:induction false} EachCounted(peer: PubKey, t: Turn, ids: seq<ChannelId>, id: ChannelId, now: Millis)
    requires Distinct(t.s.grant.channels) && NoneTwice(ids)
    ensures var before, after := Find(t.s.grant.channels, id), CountFailures(peer, t, ids);
      && Distinct(after.s.grant.channels)
      && after.s.grant == t.s.grant.(channels := after.s.grant.channels)
      && Find(after.s.grant.channels, id) == Counted(before, id in ids)
    decreases |ids|
  {
    if ids != [] {
      hide Find, Distinct, CountFailures, NoneTwice;
      RestNoneTwice(ids, id);
      var next := FirstCounted(peer, t, ids, id);
      EachCounted(peer, next, ids[1..], id, now);
      var before := Find(t.s.grant.channels, id);
      assert Counted(Counted(before, id == ids[0]), id in ids[1..]) == Counted(before, id in ids);
    } else {
      assert CountFailures(peer, t, ids) == t;
    }
  }

  lemma RestNoneTwice(ids: seq<ChannelId>, id: ChannelId)
    requires ids != [] && NoneTwice(ids)
    ensures NoneTwice(ids[1..]) && ids[0] !in ids[1..]
    ensures id in ids <==> id == ids[0] || id in ids[1..]
  {
  }

  lemma FirstCounted(peer: PubKey, t: Turn, ids: seq<ChannelId>, id: ChannelId) returns (next: Turn)
    requires Distinct(t.s.grant.channels) && ids != []
    ensures CountFailures(peer, t, ids) == CountFailures(peer, next, ids[1..])
    ensures Distinct(next.s.grant.channels) && next.s.grant == t.s.grant.(channels := next.s.grant.channels)
    ensures Find(next.s.grant.channels, id) == Counted(Find(t.s.grant.channels, id), id == ids[0])
  {
    hide Find, Distinct, Settle, Put;
    var cs, first := t.s.grant.channels, ids[0];
    var found := Find(cs, first);
    next := t;
    if found.Some? {
      var counted := found.value.(failures := Min(found.value.failures + 1, 0xFFFF_FFFF));
      PutKeepsDistinct(cs, counted);
      PutReads(cs, counted, id);
      next := t.(s := t.s.(grant := t.s.grant.(channels := Put(cs, counted))));
      if counted.failures >= MAX_VERIFICATION_FAILURES {
        SettledOneReads(peer, next, first, id);
        next := Settle(peer, next, [first]);
      }
    }
  }

  lemma SettledOneReads(peer: PubKey, t: Turn, gone: ChannelId, id: ChannelId)
    requires Distinct(t.s.grant.channels)
    ensures var after := Settle(peer, t, [gone]).s.grant;
      && after == t.s.grant.(channels := after.channels) && Distinct(after.channels)
      && Find(after.channels, id) == if id == gone then None else Find(t.s.grant.channels, id)
  {
    SettledReads(peer, t.s.grant.channels, [gone], id);
    hide SettleEach, Find, Distinct;
  }

  /**
    All that a TopUp refused changes of what is kept for a payer: the time of the last check, unless it
    came inside the gap, and one failure on each channel it failed to raise, the third settling it.
   */
  lemma RefusedGrantsNothing(cfg: Config, peer: PubKey, t: Turn, m: TopUp, elsewhere: u64, now: Millis, id: ChannelId)
    requires Distinct(t.s.grant.channels)
    requires t.s.grant.TooSoon(now, cfg.node.grants.minTopupGapMs) || Judged(cfg, Checked(t, now), m, elsewhere).Refuse?
    ensures GrantedBy(cfg, t, m, elsewhere, now) == 0
    ensures var g, after := t.s.grant, OnTopUp(cfg, peer, t, m, elsewhere, now).s.grant;
      var soon := g.TooSoon(now, cfg.node.grants.minTopupGapMs);
      var failed := !soon && Judged(cfg, Checked(t, now), m, elsewhere).reason == GrantInvalid && FailsOn(g.channels, m.updates, [], id);
      && after == g.(channels := after.channels, lastTopup := if soon then g.lastTopup else Some(now))
      && Find(after.channels, id) == Counted(Find(g.channels, id), failed)
  {
    hide Evaluate, CountFailures, NotIncreasing, Refresh, Distinct, Find, FailsOn;
    if !t.s.grant.TooSoon(now, cfg.node.grants.minTopupGapMs) {
      var checked := Checked(t, now);
      if Judged(cfg, checked, m, elsewhere).reason == GrantInvalid {
        var ids := NotIncreasing(checked.s.grant.channels, m.updates, [], []);
        NamesOnce(checked.s.grant.channels, m.updates, [], []);
        NamesWhatFailed(checked.s.grant.channels, m.updates, [], [], id);
        var told := checked.Does(Send(peer, MReject(TOPUP, GrantInvalid, None)));
        EachCounted(peer, told, ids, id, now);
        RefreshIsOrdinary(cfg, peer, CountFailures(peer, told, ids), now);
      } else {
        var reply := TopUpReject(RefusedUpdates(m.updates), Judged(cfg, checked, m, elsewhere).maxReservedRate, Judged(cfg, checked, m, elsewhere).reason);
        RefreshIsOrdinary(cfg, peer, checked.Does(Send(peer, MTopUpReject(reply))), now);
      }
    }
  }
}
