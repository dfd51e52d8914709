/**
  What readings of a link charge, in the counters themselves: a unit to the payer draws one from its
  budget, a unit from it the provider's from-payer weight, and a counter that starts again nothing.
 */
module SessionReadings {
  import opened Numbers
  import opened Wire
  import opened Limits
  import opened Grants
  import opened Buyers
  import opened Sessions
  import opened Conversations
  import opened Lockstep
  import opened SessionExchanges

  // ------------------------------------------------------------------------
  // What one reading weighs
  // ------------------------------------------------------------------------

  /** Nothing moved is nothing; one more unit to the payer is one more; one more from it is the weight. */
  lemma OneMoreUnit(c: Counters, weight: u16)
    ensures Counters(0, 0).Weighted(weight) == 0
    ensures c.toPayer < U64_MAX ==> c.(toPayer := c.toPayer + 1).Weighted(weight) == SatAdd(c.Weighted(weight), 1)
    ensures c.fromPayer < U64_MAX ==> c.(fromPayer := c.fromPayer + 1).Weighted(weight) == SatAdd(c.Weighted(weight), weight)
  {
    assert (c.fromPayer + 1) * weight == c.fromPayer * weight + weight;
  }

  /** What one count rose by; a count that is lower than before has started again, and rose by nothing. */
  ghost function Rise(before: u64, after: u64): nat {
    if after > before then after - before else 0
  }

  ghost function Weighs(before: Counters, after: Counters, weight: u16): nat {
    Rise(before.toPayer, after.toPayer) + weight * Rise(before.fromPayer, after.fromPayer)
  }

  lemma UnitsAreWeighed(s: PeerSession, counters: Counters)
    ensures Units(s, counters) == Saturate(Weighs(s.meter, counters, s.weight))
  {
  }

  // ------------------------------------------------------------------------
  // Over a run of readings
  // ------------------------------------------------------------------------

  /** The counters a provider reads, one reading after another, the payer carried all the while. */
  function ReadOut(cfg: Config, peer: PubKey, s: PeerSession, seen: seq<(Counters, Millis)>): PeerSession
    decreases |seen|
  {
    if seen == [] then s
    else ReadOut(cfg, peer, Refresh(cfg, peer, Bare(Sessions.OnMetered(s, seen[0].0, true, seen[0].1)), seen[0].1).s, seen[1..])
  }

  ghost function WeighsAll(meter: Counters, seen: seq<(Counters, Millis)>, weight: u16): nat
    decreases |seen|
  {
    if seen == [] then 0 else Weighs(meter, seen[0].0, weight) + WeighsAll(seen[0].0, seen[1..], weight)
  }

  /** A payer by use, charged and carried, its budget good past the last of the readings. */
  ghost predicate ByUse(s: PeerSession, until: Millis) {
    && s.grant.Valid() && s.grant.reservedRate == 0 && s.access == Active && !s.policy.noCharge && until < s.grant.deadline
  }

  ghost predicate AllBy(seen: seq<(Counters, Millis)>, until: Millis) {
    forall r :: r in seen ==> r.1 <= until
  }

  lemma DrawByUse(g: Grant, moved: u64, now: Millis)
    requires g.Valid() && g.reservedRate == 0 && moved < g.Remaining()
    ensures var g' := g.Draw(moved, now);
      && g'.Valid() && g'.consumed == g.consumed + moved && g'.authorized == g.authorized && g'.reservedRate == 0 && g'.deadline == g.deadline
  {
    var open := if g.second.Some? then g.second.value else Starting(now);
    ReadAtNoRate(open, moved, now);
    GrantProperties.ReadKeepsValid(open, moved, now, 0);
    hide Second.Read;
  }

  lemma ReadByUse(cfg: Config, peer: PubKey, s: PeerSession, counters: Counters, now: Millis, until: Millis)
    requires ByUse(s, until) && now <= until && Weighs(s.meter, counters, s.weight) < s.grant.Remaining()
    ensures var s' := Refresh(cfg, peer, Bare(Sessions.OnMetered(s, counters, true, now)), now).s;
      && ByUse(s', until) && s'.grant.consumed == s.grant.consumed + Weighs(s.meter, counters, s.weight)
      && s'.grant.authorized == s.grant.authorized && s'.meter == counters && s'.weight == s.weight
  {
    hide Refresh, Grant.Draw, Grant.Pause, Buyer.Draw, RateFrom, Counters.Weighted, Weighs, Counters.DeltaSince;
    UnitsAreWeighed(s, counters);
    DrawByUse(s.grant, Units(s, counters), now);
    var read := Bare(Sessions.OnMetered(s, counters, true, now));
    ShownAside(cfg, peer, read, now);
    assert read.s.grant.IsLive(now);
    assert Gated(Refresh(cfg, peer, read, now).s, now);
  }

  /**
    While the budget lasts, a payer that reserved nothing is drawn over any readings for exactly what the
    counters rose by, weighted.
   */
  lemma {:induction false} DrawnForWhatRose(cfg: Config, peer: PubKey, s: PeerSession, seen: seq<(Counters, Millis)>, until: Millis)
    requires ByUse(s, until) && AllBy(seen, until) && WeighsAll(s.meter, seen, s.weight) < s.grant.Remaining()
    ensures var s' := ReadOut(cfg, peer, s, seen);
      && s'.grant.consumed == s.grant.consumed + WeighsAll(s.meter, seen, s.weight) && s'.grant.authorized == s.grant.authorized && ByUse(s', until)
    decreases |seen|
  {
    hide Refresh, Sessions.OnMetered, ByUse;
    if seen != [] {
      assert seen[0] in seen && forall r :: r in seen[1..] ==> r in seen;
      assert s.grant.Valid() && s.grant.authorized == s.grant.authorized by { assert ByUse(s, until); Unfolds(s, until); }
      ReadByUse(cfg, peer, s, seen[0].0, seen[0].1, until);
      var s' := Refresh(cfg, peer, Bare(Sessions.OnMetered(s, seen[0].0, true, seen[0].1)), seen[0].1).s;
      Unfolds(s', until);
      DrawnForWhatRose(cfg, peer, s', seen[1..], until);
    }
  }

  lemma Unfolds(s: PeerSession, until: Millis)
    requires ByUse(s, until)
    ensures s.grant.Valid()
  {
  }

  ghost predicate Rising(meter: Counters, seen: seq<(Counters, Millis)>)
    decreases |seen|
  {
    seen == [] || (meter.toPayer <= seen[0].0.toPayer && meter.fromPayer <= seen[0].0.fromPayer && Rising(seen[0].0, seen[1..]))
  }

  /** And if no counter starts again that is the whole rise, from the first reading to the last, however often it is read. */
  lemma {:induction false} WholeRise(meter: Counters, seen: seq<(Counters, Millis)>, weight: u16)
    requires seen != [] && Rising(meter, seen)
    ensures var last := seen[|seen| - 1].0;
      && meter.toPayer <= last.toPayer && meter.fromPayer <= last.fromPayer
      && WeighsAll(meter, seen, weight) == (last.toPayer - meter.toPayer) + weight * (last.fromPayer - meter.fromPayer)
    decreases |seen|
  {
    var first := seen[0].0;
    if |seen| > 1 {
      WholeRise(first, seen[1..], weight);
      var last := seen[|seen| - 1].0;
      Distributes(weight, first.fromPayer - meter.fromPayer, last.fromPayer - first.fromPayer);
    }
  }

  lemma Distributes(w: nat, a: nat, b: nat)
    ensures w * a + w * b == w * (a + b)
  {
  }

  // ------------------------------------------------------------------------
  // What a payer sees wanted
  // ------------------------------------------------------------------------

  /** A reading tells a payer the rate it sends at: the units it sent, over the time since the last one. */
  lemma UploadIsMeasured(s: PeerSession, counters: Counters, carried: bool, now: Millis)
    ensures var s' := Sessions.OnMetered(s, counters, carried, now);
      var sent, elapsed := Rise(s.meter.toPayer, counters.toPayer), now - s.lastMeterAt;
      if elapsed <= 0 then s'.uploadRate == s.uploadRate && s'.lastMeterAt == s.lastMeterAt
      else
        && s'.lastMeterAt == now && s'.uploadRate * elapsed <= sent * 1_000
        && (s'.uploadRate < U64_MAX ==> sent * 1_000 < (s'.uploadRate + 1) * elapsed)
  {
    hide Grant.Draw, Grant.Pause, Buyer.Draw, Counters.Weighted, RateFrom;
    if now > s.lastMeterAt {
      RateBounds(Rise(s.meter.toPayer, counters.toPayer), now - s.lastMeterAt);
    }
  }

  lemma RateBounds(units: u64, ms: u64)
    requires ms > 0
    ensures RateFrom(units, ms) * ms <= units * 1_000
    ensures RateFrom(units, ms) < U64_MAX ==> units * 1_000 < (RateFrom(units, ms) + 1) * ms
  {
    hide RateFrom, Quotient;
    RateIs(units, ms);
    QuotientBounds(units * 1_000, ms);
    SaturatedQuotient(Quotient(units * 1_000, ms), units * 1_000, ms);
  }

  ghost function Quotient(a: nat, d: nat): nat
    requires d > 0
  {
    a / d
  }

  lemma RateIs(units: u64, ms: u64)
    requires ms > 0
    ensures RateFrom(units, ms) == Saturate(Quotient(units * 1_000, ms))
  {
  }

  lemma SaturatedQuotient(q: nat, a: nat, d: nat)
    requires q * d <= a < (q + 1) * d
    ensures Saturate(q) * d <= a
    ensures Saturate(q) < U64_MAX ==> a < (Saturate(q) + 1) * d
  {
    SaturatedBelow(q, d, a);
  }

  lemma QuotientBounds(a: nat, d: nat)
    requires d > 0
    ensures Quotient(a, d) * d <= a < (Quotient(a, d) + 1) * d
  {
  }

  lemma SaturatedBelow(q: nat, d: nat, a: nat)
    requires q * d <= a
    ensures Saturate(q) * d <= a
  {
    if q > U64_MAX {
      assert U64_MAX * d <= q * d;
    }
  }

  /** What it wants of the link is what it pulls, and what it sends at the weight it is drawn for that. */
  lemma OneMoreWanted(s: PeerSession, terms: Terms)
    ensures DemandOf(s.(uploadRate := 0), terms).observedRate == s.demand && DemandOf(s, terms).terms == terms
    ensures s.uploadRate < U64_MAX && DemandOf(s, terms).observedRate + terms.fromPayerWeight <= U64_MAX ==>
      DemandOf(s.(uploadRate := s.uploadRate + 1), terms).observedRate == DemandOf(s, terms).observedRate + terms.fromPayerWeight
  {
    assert (s.uploadRate + 1) * terms.fromPayerWeight == s.uploadRate * terms.fromPayerWeight + terms.fromPayerWeight;
  }
}
