/**
  What the one rule comes to over a whole stretch at one reserved rate, however the meter is read:
  at least what moved and at least the reserved rate for the time, at most the two together; and
  how the answer depends on how often the meter is read.
 */
module LimitsProperties {
  import opened Numbers
  import opened Limits

  function Moved(rs: seq<Reading>): nat {
    if rs == [] then 0 else rs[0].moved + Moved(rs[1..])
  }

  /** The second left open by a run of readings. */
  function After(s: Second, rs: seq<Reading>, rate: u64): Second
    decreases |rs|
  {
    if rs == [] then s else After(s.Read(rs[0].moved, rs[0].now, rate).0, rs[1..], rate)
  }

  /** Everything owed by a run of readings. */
  function Owed(s: Second, rs: seq<Reading>, rate: u64): nat
    decreases |rs|
  {
    if rs == [] then 0
    else
      var (s', owed) := s.Read(rs[0].moved, rs[0].now, rate);
      owed + Owed(s', rs[1..], rate)
  }

  /** The readings come in clock order, none before `from` and none after `until`. */
  ghost predicate InOrder(from: Millis, rs: seq<Reading>, until: Millis): (ordered: bool)
    ensures ordered ==> from <= until
    decreases |rs|
  {
    if rs == [] then from <= until
    else from <= rs[0].now && InOrder(rs[0].now, rs[1..], until)
  }

  // ------------------------------------------------------------------------
  // Exact rates: whole seconds lose nothing
  // ------------------------------------------------------------------------

  lemma ExactSplits(rate: nat, whole: nat, rest: nat)
    ensures Exact(rate, whole * SECOND_MS + rest) == rate * whole + Exact(rate, rest)
    ensures Exact(rate, whole * SECOND_MS) == rate * whole
  {
    assert rate * (whole * SECOND_MS + rest) == SECOND_MS * (rate * whole) + rate * rest;
    assert rate * (whole * SECOND_MS) == SECOND_MS * (rate * whole);
  }

  /**
    One reading, without saturation. `floor` is the reserved rate over the seconds it completes:
    what the reading settles for them is the larger of that and what moved in them.
   */
  lemma ReadExactly(s: Second, moved: u64, now: Millis, rate: u64, until: Millis) returns (floor: nat)
    requires s.Valid() && s.at <= now <= until
    requires s.moved + moved <= U64_MAX
    requires Exact(rate, until - s.start) <= U64_MAX
    ensures var (s', owed) := s.Read(moved, now, rate);
      && s'.Valid() && s'.at == now
      && Exact(rate, until - s.start) == floor + Exact(rate, until - s'.start)
      && s'.moved <= s.moved + moved
      && s.moved + owed == s'.moved + Max(s.moved + moved - s'.moved, floor)
  {
    var w := s.Whole(now);
    assert w * SECOND_MS <= now - s.start;
    floor := rate * w;
    ExactSplits(rate, w, until - s.start - w * SECOND_MS);
  }

  // ------------------------------------------------------------------------
  // The one rule, over a whole stretch
  // ------------------------------------------------------------------------

  lemma {:induction false} StretchFrom(s: Second, rs: seq<Reading>, until: Millis, rate: u64)
    requires s.Valid() && InOrder(s.at, rs, until)
    requires s.moved + Moved(rs) <= U64_MAX
    requires Exact(rate, until - s.start) <= U64_MAX
    ensures s.at <= After(s, rs, rate).at <= until
    ensures var total := s.moved + Owed(s, rs, rate) + After(s, rs, rate).Close(until, rate);
      Max(s.moved + Moved(rs), Exact(rate, until - s.start)) <= total <= s.moved + Moved(rs) + Exact(rate, until - s.start)
    decreases |rs|
  {
    if rs != [] {
      hide Exact, Second.Read;
      var r := rs[0];
      var floor := ReadExactly(s, r.moved, r.now, rate, until);
      StretchFrom(s.Read(r.moved, r.now, rate).0, rs[1..], until, rate);
    }
  }

  /**
    A stretch at one reserved rate, from the moment it is bought until it is closed, read in any
    pattern. The floor is exactly the rate for the whole time: nothing is rounded away between
    seconds, and nothing before the start is in it.
   */
  lemma OneRuleOverAStretch(bought: Millis, rs: seq<Reading>, until: Millis, rate: u64)
    requires InOrder(bought, rs, until)
    requires Moved(rs) <= U64_MAX && Exact(rate, until - bought) <= U64_MAX
    ensures var total := Owed(Starting(bought), rs, rate) + After(Starting(bought), rs, rate).Close(until, rate);
      Max(Moved(rs), Exact(rate, until - bought)) <= total <= Moved(rs) + Exact(rate, until - bought)
  {
    StretchFrom(Starting(bought), rs, until, rate);
  }

  /** The same for a stretch that is paused: closed at its last reading. */
  lemma OneRuleUntilPaused(bought: Millis, rs: seq<Reading>, rate: u64)
    requires rs != [] && InOrder(bought, rs, rs[|rs| - 1].now)
    requires Moved(rs) <= U64_MAX && Exact(rate, rs[|rs| - 1].now - bought) <= U64_MAX
    ensures After(Starting(bought), rs, rate).at == rs[|rs| - 1].now
    ensures var end := After(Starting(bought), rs, rate); var total := Owed(Starting(bought), rs, rate) + end.Close(end.at, rate);
      Max(Moved(rs), Exact(rate, end.at - bought)) <= total <= Moved(rs) + Exact(rate, end.at - bought)
  {
    LastReadAt(Starting(bought), rs, rate);
    OneRuleOverAStretch(bought, rs, rs[|rs| - 1].now, rate);
  }

  lemma {:induction false} LastReadAt(s: Second, rs: seq<Reading>, rate: u64)
    requires rs != [] && InOrder(s.at, rs, rs[|rs| - 1].now)
    ensures After(s, rs, rate).at == rs[|rs| - 1].now
    decreases |rs|
  {
    var s' := s.Read(rs[0].moved, rs[0].now, rate).0;
    if |rs| > 1 {
      assert rs[1..][|rs| - 2] == rs[|rs| - 1];
      LastReadAt(s', rs[1..], rate);
    } else {
      assert rs[1..] == [];
    }
  }

  // ------------------------------------------------------------------------
  // How often the meter is read
  // ------------------------------------------------------------------------

  /** The readings with the one at `i` left out, and what it counted carried into the next. */
  function Merge(rs: seq<Reading>, i: nat): (merged: seq<Reading>)
    requires i + 1 < |rs| && Moved(rs) <= U64_MAX
    ensures Moved(merged) == Moved(rs)
  {
    MovedSplits(rs[..i], rs[i..]);
    MovedSplits(rs[i..i + 2], rs[i + 2..]);
    assert rs == rs[..i] + rs[i..] && rs[i..] == rs[i..i + 2] + rs[i + 2..] && rs[i..i + 2] == [rs[i], rs[i + 1]];
    var both := Reading(rs[i].moved + rs[i + 1].moved, rs[i + 1].now);
    MovedSplits(rs[..i], [both] + rs[i + 2..]);
    MovedSplits([both], rs[i + 2..]);
    assert rs[..i] + [both] + rs[i + 2..] == rs[..i] + ([both] + rs[i + 2..]);
    rs[..i] + [both] + rs[i + 2..]
  }

  lemma {:induction false} MovedSplits(xs: seq<Reading>, ys: seq<Reading>)
    ensures Moved(xs + ys) == Moved(xs) + Moved(ys)
  {
    if xs == [] {
      assert xs + ys == ys;
    } else {
      assert (xs + ys)[1..] == xs[1..] + ys;
      MovedSplits(xs[1..], ys);
    }
  }

  lemma {:induction false} OwedSplits(s: Second, xs: seq<Reading>, ys: seq<Reading>, rate: u64)
    ensures Owed(s, xs + ys, rate) == Owed(s, xs, rate) + Owed(After(s, xs, rate), ys, rate)
    ensures After(s, xs + ys, rate) == After(After(s, xs, rate), ys, rate)
    decreases |xs|
  {
    hide Second.Read;
    if xs == [] {
      assert xs + ys == ys;
    } else {
      assert (xs + ys)[1..] == xs[1..] + ys;
      OwedSplits(s.Read(xs[0].moved, xs[0].now, rate).0, xs[1..], ys, rate);
    }
  }

  /** Units moved in the open second, and all still to come, fit in 64 bits at every reading. */
  lemma {:induction false} OpenMovedBounded(s: Second, rs: seq<Reading>, rate: u64)
    requires s.moved + Moved(rs) <= U64_MAX
    ensures After(s, rs, rate).moved <= s.moved + Moved(rs)
    decreases |rs|
  {
    if rs != [] {
      OpenMovedBounded(s.Read(rs[0].moved, rs[0].now, rate).0, rs[1..], rate);
    }
  }

  lemma QuietReadingMerges(s: Second, a: Reading, b: Reading, rate: u64)
    requires s.Valid() && s.at <= a.now <= b.now && s.Whole(a.now) == 0
    requires s.moved + a.moved + b.moved <= U64_MAX
    ensures var (s1, owed1) := s.Read(a.moved, a.now, rate); var (s2, owed2) := s1.Read(b.moved, b.now, rate);
      s.Read(a.moved + b.moved, b.now, rate) == (s2, owed1 + owed2)
  {
  }

  lemma FullReadingsMerge(s: Second, a: Reading, b: Reading, rate: u64)
    requires s.Valid() && s.at <= a.now <= b.now
    requires s.Whole(a.now) > 0 && s.Read(a.moved, a.now, rate).0.Whole(b.now) > 0
    requires s.moved + a.moved + b.moved <= U64_MAX
    ensures var (s1, owed1) := s.Read(a.moved, a.now, rate); var (s2, owed2) := s1.Read(b.moved, b.now, rate);
      var (merged, owed) := s.Read(a.moved + b.moved, b.now, rate);
      merged == s2 && owed <= owed1 + owed2
  {
    var w1, w2 := s.Whole(a.now), s.Read(a.moved, a.now, rate).0.Whole(b.now);
    assert s.Whole(b.now) == w1 + w2;
    ExactSplits(rate, w1, w2 * SECOND_MS);
    assert Exact(rate, (w1 + w2) * SECOND_MS) == Exact(rate, w1 * SECOND_MS) + Exact(rate, w2 * SECOND_MS) by {
      assert (w1 + w2) * SECOND_MS == w1 * SECOND_MS + w2 * SECOND_MS;
      ExactSplits(rate, w1, 0);
    }
    hide Exact;
  }

  /** The reading at `i` completes no second. */
  ghost predicate Quiet(s: Second, rs: seq<Reading>, i: nat, rate: u64)
    requires i + 1 < |rs|
  {
    After(s, rs[..i], rate).Whole(rs[i].now) == 0
  }

  /** The readings at `i` and after it each complete a second. */
  ghost predicate BothFull(s: Second, rs: seq<Reading>, i: nat, rate: u64)
    requires i + 1 < |rs|
  {
    var open := After(s, rs[..i], rate);
    open.Whole(rs[i].now) > 0 && open.Read(rs[i].moved, rs[i].now, rate).0.Whole(rs[i + 1].now) > 0
  }

  lemma {:induction false} InOrderSplits(from: Millis, rs: seq<Reading>, i: nat, until: Millis, s: Second, rate: u64)
    requires i < |rs| && s.Valid() && s.at == from && InOrder(from, rs, until)
    ensures After(s, rs[..i], rate).Valid() && After(s, rs[..i], rate).at <= rs[i].now
    ensures i + 1 < |rs| ==> rs[i].now <= rs[i + 1].now
    decreases |rs|
  {
    if i > 0 {
      var s' := s.Read(rs[0].moved, rs[0].now, rate).0;
      assert rs[..i][1..] == rs[1..][..i - 1];
      InOrderSplits(rs[0].now, rs[1..], i - 1, until, s', rate);
    }
  }

  /** Merging one reading: the open second is the same, and what is owed is the same or less. */
  lemma MergeOnce(s: Second, rs: seq<Reading>, i: nat, until: Millis, rate: u64)
    requires i + 1 < |rs| && s.Valid() && InOrder(s.at, rs, until) && s.moved + Moved(rs) <= U64_MAX
    requires Quiet(s, rs, i, rate) || BothFull(s, rs, i, rate)
    ensures After(s, Merge(rs, i), rate) == After(s, rs, rate)
    ensures Owed(s, Merge(rs, i), rate) <= Owed(s, rs, rate)
    ensures Quiet(s, rs, i, rate) ==> Owed(s, Merge(rs, i), rate) == Owed(s, rs, rate)
  {
    hide Second.Read, Second.Whole;
    var open, a, b, rest := After(s, rs[..i], rate), rs[i], rs[i + 1], rs[i + 2..];
    MovedSplits(rs[..i], [a, b] + rest);
    MovedSplits([a, b], rest);
    assert rs == rs[..i] + ([a, b] + rest);
    OpenMovedBounded(s, rs[..i], rate);
    InOrderSplits(s.at, rs, i, until, s, rate);
    var both := Reading(a.moved + b.moved, b.now);
    assert Merge(rs, i) == rs[..i] + ([both] + rest);
    OwedSplits(s, rs[..i], [a, b] + rest, rate);
    OwedSplits(s, rs[..i], [both] + rest, rate);
    if Quiet(s, rs, i, rate) {
      QuietReadingMerges(open, a, b, rate);
    } else {
      FullReadingsMerge(open, a, b, rate);
    }
    hide After, Owed, Moved, InOrder, Merge;
    ReadTwice(open, a, b, rest, rate);
    ReadOnce(open, both, rest, rate);
  }

  lemma ReadOnce(s: Second, a: Reading, rest: seq<Reading>, rate: u64)
    ensures var (s1, owed) := s.Read(a.moved, a.now, rate);
      After(s, [a] + rest, rate) == After(s1, rest, rate) && Owed(s, [a] + rest, rate) == owed + Owed(s1, rest, rate)
  {
    hide Second.Read;
    assert ([a] + rest)[1..] == rest;
  }

  lemma ReadTwice(s: Second, a: Reading, b: Reading, rest: seq<Reading>, rate: u64)
    ensures var (s1, owed1) := s.Read(a.moved, a.now, rate); var (s2, owed2) := s1.Read(b.moved, b.now, rate);
      After(s, [a, b] + rest, rate) == After(s2, rest, rate) && Owed(s, [a, b] + rest, rate) == owed1 + owed2 + Owed(s2, rest, rate)
  {
    hide Second.Read, After, Owed;
    assert [a, b] + rest == [a] + ([b] + rest);
    ReadOnce(s, a, [b] + rest, rate);
    ReadOnce(s.Read(a.moved, a.now, rate).0, b, rest, rate);
  }

  lemma {:induction false} MergedInOrder(from: Millis, rs: seq<Reading>, i: nat, until: Millis)
    requires i + 1 < |rs| && InOrder(from, rs, until) && Moved(rs) <= U64_MAX
    ensures InOrder(from, Merge(rs, i), until)
    decreases |rs|
  {
    if i > 0 {
      assert Merge(rs, i)[1..] == Merge(rs[1..], i - 1);
      MergedInOrder(rs[0].now, rs[1..], i - 1, until);
    } else {
      assert Merge(rs, 0)[1..] == rs[2..];
    }
  }

  /** Every merge in turn is of a reading that completes no second, or of two that each do. */
  ghost predicate Mergeable(s: Second, rs: seq<Reading>, at: seq<nat>, rate: u64)
    requires Moved(rs) <= U64_MAX
    decreases |at|
  {
    at == [] ||
    (at[0] + 1 < |rs| && (Quiet(s, rs, at[0], rate) || BothFull(s, rs, at[0], rate)) &&
     Mergeable(s, Merge(rs, at[0]), at[1..], rate))
  }

  function MergeAll(s: Second, rs: seq<Reading>, at: seq<nat>, rate: u64): seq<Reading>
    requires Moved(rs) <= U64_MAX && Mergeable(s, rs, at, rate)
    decreases |at|
  {
    if at == [] then rs else MergeAll(s, Merge(rs, at[0]), at[1..], rate)
  }

  /**
    Reading the meter less often, merge after merge, never raises what is owed and ends in the
    same open second, so a payer is never charged more for being read in larger steps.
   */
  lemma {:induction false} CoarserReadingsOweNoMore(s: Second, rs: seq<Reading>, at: seq<nat>, until: Millis, rate: u64)
    requires s.Valid() && InOrder(s.at, rs, until) && s.moved + Moved(rs) <= U64_MAX
    requires Mergeable(s, rs, at, rate)
    ensures After(s, MergeAll(s, rs, at, rate), rate) == After(s, rs, rate)
    ensures Owed(s, MergeAll(s, rs, at, rate), rate) <= Owed(s, rs, rate)
    decreases |at|
  {
    if at != [] {
      MergeOnce(s, rs, at[0], until, rate);
      MergedInOrder(s.at, rs, at[0], until);
      CoarserReadingsOweNoMore(s, Merge(rs, at[0]), at[1..], until, rate);
    }
  }

  // ------------------------------------------------------------------------
  // Shaping near empty
  // ------------------------------------------------------------------------

  lemma {:induction false} PowersGrow(j: nat, k: nat)
    requires j < k
    ensures 2 * PowerOfTwo(j) <= PowerOfTwo(k)
  {
    if j + 1 < k {
      PowersGrow(j, k - 1);
    }
  }

  /** The ceiling is the largest power of two no faster than the exact rate, or zero. */
  lemma CeilingIsLargestPower(remaining: u64, tickMs: u64, k: nat)
    ensures var exact := RateFrom(remaining, Max(tickMs, 1)); var ceiling := PerTickCeiling(remaining, tickMs);
      && (ceiling == 0 <==> exact == 0)
      && (exact > 0 ==> ceiling == PowerOfTwo(HighestBit(exact)))
      && (ceiling < PowerOfTwo(k) ==> exact < PowerOfTwo(k))
  {
    var exact := RateFrom(remaining, Max(tickMs, 1));
    if exact > 0 {
      HighestBitBrackets(exact);
      var h := HighestBit(exact);
      if h < k {
        PowersGrow(h, k);
      } else if k < h {
        PowersGrow(k, h);
      }
    }
    PowerPositive(k);
  }

  lemma {:induction false} PowerPositive(k: nat)
    ensures PowerOfTwo(k) > 0
  {
    if k > 0 {
      PowerPositive(k - 1);
    }
  }

  lemma {:induction false} HighestBitMonotone(a: nat, b: nat)
    requires 0 < a <= b
    ensures HighestBit(a) <= HighestBit(b)
  {
    if a > 1 {
      HighestBitMonotone(a / 2, b / 2);
    }
  }

  lemma RateFromMonotone(a: u64, b: u64, ms: u64)
    requires a <= b
    ensures RateFrom(a, ms) <= RateFrom(b, ms)
  {
    if ms > 0 {
      DivMonotone(a * 1_000, b * 1_000, ms);
    }
  }

  lemma FactorsBelow(x: int, y: int, d: nat)
    requires d > 0 && x * d < (y + 1) * d
    ensures x <= y
  {
  }

  lemma DivMonotone(a: nat, b: nat, d: nat)
    requires a <= b && d > 0
    ensures a / d <= b / d
  {
    var x, y := a / d, b / d;
    assert a == x * d + a % d;
    assert b == y * d + b % d;
    assert (y + 1) * d == y * d + d;
    FactorsBelow(x, y, d);
  }

  lemma CeilingMonotone(a: u64, b: u64, tickMs: u64)
    requires a <= b
    ensures PerTickCeiling(a, tickMs) <= PerTickCeiling(b, tickMs)
  {
    RateFromMonotone(a, b, Max(tickMs, 1));
    var x, y := RateFrom(a, Max(tickMs, 1)), RateFrom(b, Max(tickMs, 1));
    if x > 0 {
      HighestBitMonotone(x, y);
      if HighestBit(x) < HighestBit(y) {
        PowersGrow(HighestBit(x), HighestBit(y));
      }
    }
  }

  lemma UnitsInMonotone(a: u64, b: u64, ms: u64)
    requires a <= b
    ensures UnitsIn(a, ms) <= UnitsIn(b, ms)
  {
    assert a * ms <= b * ms;
  }

  lemma QuotientBelow(a: nat, d: nat)
    requires d > 0
    ensures (a / d) * d <= a
  {
  }

  lemma RateForTime(units: u64, ms: u64)
    requires ms > 0
    ensures RateFrom(units, ms) * ms <= units * 1_000
  {
    QuotientBelow(units * 1_000, ms);
    var q := units * 1_000 / ms;
    assert RateFrom(units, ms) <= q;
    assert RateFrom(units, ms) * ms <= q * ms;
  }

  /** At the ceiling a payer moves no more in one tick than it has left. */
  lemma CeilingNeverOverruns(remaining: u64, tickMs: u64)
    ensures UnitsIn(PerTickCeiling(remaining, tickMs), Max(tickMs, 1)) <= remaining
  {
    var ms: u64 := Max(tickMs, 1);
    RateForTime(remaining, ms);
    UnitsInMonotone(PerTickCeiling(remaining, tickMs), RateFrom(remaining, ms), ms);
    ExactBelow(RateFrom(remaining, ms), ms, remaining);
  }

  lemma ExactBelow(rate: nat, ms: nat, units: nat)
    requires rate * ms <= units * 1_000
    ensures Exact(rate, ms) <= units
  {
  }
}
