/**
  The token bucket that rations mint quotes. The level is kept in tokens times nanoseconds of the
  refill period, so nothing is lost to rounding however often it is refilled.
 */
module Buckets {
  import opened Numbers
  import opened Wrappers

  const U128_MAX: int := 0xFFFF_FFFF_FFFF_FFFF_FFFF_FFFF_FFFF_FFFF

  type u128 = n: int | 0 <= n <= U128_MAX

  const MINUTE_NS: u128 := 60_000_000_000

  function Saturate128(n: nat): u128 {
    if n <= U128_MAX then n else U128_MAX
  }

  /** A bucket as a value; instants are nanoseconds on the host's clock. */
  datatype Level = Level(perPeriod: u128, periodNs: u128, capacity: u128, level: u128, last: u128) {
    ghost predicate Valid() {
      level <= capacity && periodNs > 0
    }

    function Refill(now: u128): Level {
      var elapsed := if now <= last then 0 else now - last;
      this.(level := Min(Saturate128(level + Saturate128(elapsed * perPeriod)), capacity),
            last := Max(last, now))
    }

    predicate Holds(tokens: u64) {
      level >= Saturate128(tokens * periodNs)
    }

    function Take(tokens: u64): Level {
      this.(level := if level <= Saturate128(tokens * periodNs) then 0 else level - Saturate128(tokens * periodNs))
    }

    /** Take one token, or take nothing. */
    function Admit(now: u128): (Level, bool) {
      var filled := Refill(now);
      if filled.Holds(1) then (filled.Take(1), true) else (filled, false)
    }
  }

  function Full(perPeriod: u64, periodNs: u128, burst: u64): u128 {
    Saturate128(burst * Max(periodNs, 1))
  }

  function NewLevel(perPeriod: u64, periodNs: u128, burst: u64, now: u128): Level {
    Level(perPeriod, Max(periodNs, 1), Full(perPeriod, periodNs, burst), Full(perPeriod, periodNs, burst), now)
  }

  // ------------------------------------------------------------------------
  // The mutable bucket, and the limit it enforces
  // ------------------------------------------------------------------------

  class Bucket {
    const perPeriod: u128
    const periodNs: u128
    const capacity: u128
    var level: u128
    var last: u128

    ghost function Value(): Level
      reads this
    {
      Level(perPeriod, periodNs, capacity, level, last)
    }

    constructor (perPeriod: u64, periodNs: u128, burst: u64, now: u128)
      ensures Value() == NewLevel(perPeriod, periodNs, burst, now) && Value().Valid()
    {
      var capacity := Saturate128(burst * Max(periodNs, 1));
      this.perPeriod, this.periodNs, this.capacity := perPeriod, Max(periodNs, 1), capacity;
      level, last := capacity, now;
    }

    method Refill(now: u128)
      modifies this
      ensures Value() == old(Value()).Refill(now)
    {
      var elapsed := if now <= last then 0 else now - last;
      level := Min(Saturate128(level + Saturate128(elapsed * perPeriod)), capacity);
      last := Max(last, now);
    }

    method Holds(tokens: u64) returns (held: bool)
      ensures held == Value().Holds(tokens)
    {
      held := level >= Saturate128(tokens * periodNs);
    }

    method Take(tokens: u64)
      modifies this
      ensures Value() == old(Value()).Take(tokens)
    {
      var cost := Saturate128(tokens * periodNs);
      level := if level <= cost then 0 else level - cost;
    }
  }

  class Limits {
    const quotes: Option<Bucket>

    ghost predicate Valid()
      reads this, if quotes.Some? then {quotes.value} else {}
    {
      quotes.Some? ==> quotes.value.Value().Valid()
    }

    /** No quotes a minute is no limit. */
    constructor (quotesPerMinute: u64, now: u128)
      ensures quotes.Some? <==> quotesPerMinute > 0
      ensures quotes.Some? ==> fresh(quotes.value) && quotes.value.Value() == NewLevel(quotesPerMinute, MINUTE_NS, quotesPerMinute, now)
    {
      if quotesPerMinute > 0 {
        var bucket := new Bucket(quotesPerMinute, MINUTE_NS, quotesPerMinute, now);
        quotes := Some(bucket);
      } else {
        quotes := None;
      }
    }

    /** Take one quote, or take nothing and refuse. */
    method Admit(now: u128) returns (ok: bool)
      modifies if quotes.Some? then {quotes.value} else {}
      ensures match quotes
        case Some(b) => (b.Value(), ok) == old(b.Value()).Admit(now)
        case None => ok
    {
      if quotes.None? {
        return true;
      }
      quotes.value.Refill(now);
      ok := quotes.value.Holds(1);
      if ok {
        quotes.value.Take(1);
      }
    }
  }

  // ------------------------------------------------------------------------
  // Saturation does no harm
  // ------------------------------------------------------------------------

  /** Refilling comes to what it would in unbounded arithmetic: what saturates was past the brim anyway. */
  lemma RefillIsExact(b: Level, now: u128)
    requires b.Valid()
    ensures b.Refill(now).Valid()
    ensures b.Refill(now).level == Min(b.level + (if now <= b.last then 0 else now - b.last) * b.perPeriod, b.capacity)
  {
  }

  /** A new limit's capacity does not saturate, so it holds as many quotes as it lets through a minute. */
  lemma LimitIsExact(quotesPerMinute: u64, now: u128)
    ensures NewLevel(quotesPerMinute, MINUTE_NS, quotesPerMinute, now).capacity == quotesPerMinute * MINUTE_NS
    ensures NewLevel(quotesPerMinute, MINUTE_NS, quotesPerMinute, now).Valid()
  {
  }

  /** One token is taken or refused exactly, if a token fits the bucket. */
  lemma AdmitIsExact(b: Level, now: u128)
    requires b.Valid()
    ensures var (b', ok) := b.Admit(now);
      var filled := b.Refill(now).level;
      b'.Valid() && b'.last == Max(b.last, now) && ok == (filled >= b.periodNs) && b'.level == filled - (if ok then b.periodNs else 0)
  {
    RefillIsExact(b, now);
  }

  // ------------------------------------------------------------------------
  // Runs
  // ------------------------------------------------------------------------

  /** How many of these quotes are let through. */
  function Admitted(b: Level, nows: seq<u128>): nat
    decreases |nows|
  {
    if nows == [] then 0
    else var (b', ok) := b.Admit(nows[0]); (if ok then 1 else 0) + Admitted(b', nows[1..])
  }

  function After(b: Level, nows: seq<u128>): Level
    decreases |nows|
  {
    if nows == [] then b else After(b.Admit(nows[0]).0, nows[1..])
  }

  /** What is let through was in the bucket or came in since, whatever order the clock is read in. */
  lemma {:induction false} NothingFromNowhere(b: Level, nows: seq<u128>)
    requires b.Valid()
    ensures After(b, nows).Valid() && b.last <= After(b, nows).last
    ensures Admitted(b, nows) * b.periodNs + After(b, nows).level <= b.level + (After(b, nows).last - b.last) * b.perPeriod
    decreases |nows|
  {
    if nows != [] {
      var (b', ok) := b.Admit(nows[0]);
      AdmitIsExact(b, nows[0]);
      RefillIsExact(b, nows[0]);
      NothingFromNowhere(b', nows[1..]);
      var gained, later := b'.last - b.last, After(b', nows[1..]).last - b'.last;
      assert b'.perPeriod == b.perPeriod && b'.periodNs == b.periodNs;
      Distribute(b.perPeriod, gained, later);
      var more := Admitted(b', nows[1..]);
      Distribute(b.periodNs, if ok then 1 else 0, more);
    }
  }

  lemma Distribute(k: nat, x: nat, y: nat)
    ensures (x + y) * k == x * k + y * k
  {
  }

  ghost predicate Ordered(nows: seq<u128>) {
    forall i, j :: 0 <= i < j < |nows| ==> nows[i] <= nows[j]
  }

  /** Refilling on the way to an instant comes to the same as refilling there. */
  lemma RefillsMerge(b: Level, first: u128, second: u128)
    requires b.Valid() && first <= second
    ensures b.Refill(first).Refill(second) == b.Refill(second)
  {
    RefillIsExact(b, first);
    RefillIsExact(b.Refill(first), second);
    RefillIsExact(b, second);
    if b.last < first {
      Distribute(b.perPeriod, first - b.last, second - first);
    }
  }

  lemma {:induction false} LastIsLatest(b: Level, nows: seq<u128>)
    requires Ordered(nows) && nows != [] && b.last <= nows[0]
    ensures After(b, nows).last == nows[|nows| - 1]
    decreases |nows|
  {
    var b' := b.Admit(nows[0]).0;
    if |nows| > 1 {
      assert forall i :: 0 <= i < |nows| - 1 ==> nows[1..][i] == nows[i + 1];
      LastIsLatest(b', nows[1..]);
    }
  }

  /**
    Between any two instants, whatever came before them, no more is let through than a full bucket and
    what comes in between them.
   */
  lemma NeverPastTheRate(b: Level, nows: seq<u128>)
    requires b.Valid() && Ordered(nows) && nows != [] && b.last <= nows[0]
    ensures Admitted(b, nows) * b.periodNs <= b.capacity + (nows[|nows| - 1] - nows[0]) * b.perPeriod
  {
    var filled := b.Refill(nows[0]);
    RefillIsExact(b, nows[0]);
    RefillsMerge(b, nows[0], nows[0]);
    assert Admitted(filled, nows) == Admitted(b, nows);
    LastIsLatest(filled, nows);
    NothingFromNowhere(filled, nows);
  }

  /** So over any minute at most twice the quotes of one. */
  lemma AtMostTwiceAMinute(b: Level, quotesPerMinute: u64, nows: seq<u128>)
    requires b.Valid() && Ordered(nows) && nows != [] && b.last <= nows[0] && nows[|nows| - 1] - nows[0] <= MINUTE_NS
    requires b.perPeriod == quotesPerMinute && b.periodNs == MINUTE_NS && b.capacity == quotesPerMinute * MINUTE_NS
    ensures Admitted(b, nows) <= 2 * quotesPerMinute
  {
    hide Admitted;
    NeverPastTheRate(b, nows);
    Scale(nows[|nows| - 1] - nows[0], MINUTE_NS, quotesPerMinute);
    Cancel(Admitted(b, nows), 2 * quotesPerMinute);
  }

  lemma Scale(x: nat, y: nat, k: nat)
    requires x <= y
    ensures x * k <= y * k
  {
  }

  lemma Cancel(x: nat, y: nat)
    requires x * MINUTE_NS <= y * MINUTE_NS
    ensures x <= y
  {
  }

  // ------------------------------------------------------------------------
  // Refilling in between changes nothing
  // ------------------------------------------------------------------------

  datatype Visit = Visit(now: u128, admits: bool)

  /** What a bucket answers, over visits some of which only refill it. */
  function Answers(b: Level, visits: seq<Visit>): seq<bool>
    decreases |visits|
  {
    if visits == [] then []
    else if visits[0].admits then
      var (b', ok) := b.Admit(visits[0].now);
      [ok] + Answers(b', visits[1..])
    else Answers(b.Refill(visits[0].now), visits[1..])
  }

  function OnlyAdmits(visits: seq<Visit>): seq<Visit> {
    if visits == [] then []
    else (if visits[0].admits then [visits[0]] else []) + OnlyAdmits(visits[1..])
  }

  ghost predicate InOrder(visits: seq<Visit>, from: u128) {
    && (forall i :: 0 <= i < |visits| ==> from <= visits[i].now)
    && (forall i, j :: 0 <= i < j < |visits| ==> visits[i].now <= visits[j].now)
  }

  lemma TailInOrder(visits: seq<Visit>, from: u128)
    requires InOrder(visits, from) && visits != []
    ensures InOrder(visits[1..], visits[0].now)
  {
  }

  /** A bucket refilled to an instant answers alike from then on. */
  lemma {:induction false} RefillingFirst(b: Level, visits: seq<Visit>, at: u128)
    requires b.Valid() && InOrder(visits, at)
    ensures Answers(b.Refill(at), visits) == Answers(b, visits)
    decreases |visits|
  {
    if visits != [] {
      assert at <= visits[0].now;
      RefillsMerge(b, at, visits[0].now);
    }
  }

  /** However often a bucket is refilled in between, every quote gets the same answer. */
  lemma {:induction false} ExtraRefillsChangeNothing(b: Level, visits: seq<Visit>)
    requires b.Valid() && InOrder(visits, b.last)
    ensures Answers(b, visits) == Answers(b, OnlyAdmits(visits))
    decreases |visits|
  {
    if visits != [] {
      TailInOrder(visits, b.last);
      var v, rest := visits[0], visits[1..];
      assert b.last <= v.now;
      if v.admits {
        AdmitIsExact(b, v.now);
        ExtraRefillsChangeNothing(b.Admit(v.now).0, rest);
        var only := OnlyAdmits(visits);
        assert only[0] == v && only[1..] == OnlyAdmits(rest);
      } else {
        RefillIsExact(b, v.now);
        ExtraRefillsChangeNothing(b.Refill(v.now), rest);
        AdmitsInOrder(rest, v.now);
        RefillingFirst(b, OnlyAdmits(rest), v.now);
        assert OnlyAdmits(visits) == OnlyAdmits(rest);
      }
    }
  }

  lemma {:induction false} AdmitsInOrder(visits: seq<Visit>, from: u128)
    requires InOrder(visits, from)
    ensures InOrder(OnlyAdmits(visits), from)
    decreases |visits|
  {
    if visits != [] {
      TailInOrder(visits, from);
      assert from <= visits[0].now;
      AdmitsInOrder(visits[1..], visits[0].now);
    }
  }

  // ------------------------------------------------------------------------
  // A caller that keeps to the rate
  // ------------------------------------------------------------------------

  /** Each at least the time of one token after the last. */
  ghost predicate Paced(b: Level, nows: seq<u128>) {
    forall i :: 0 <= i < |nows| - 1 ==> nows[i] <= nows[i + 1] && (nows[i + 1] - nows[i]) * b.perPeriod >= b.periodNs
  }

  /** From full, or a token short of it a token's time ago, such a caller is never refused. */
  lemma {:induction false} PacedIsNeverRefused(b: Level, nows: seq<u128>)
    requires b.Valid() && b.capacity >= b.periodNs && Paced(b, nows)
    requires nows != [] ==> b.Refill(nows[0]).level == b.capacity && b.last <= nows[0]
    ensures Admitted(b, nows) == |nows|
    decreases |nows|
  {
    if nows != [] {
      var b' := b.Admit(nows[0]).0;
      AdmitIsExact(b, nows[0]);
      assert b'.level == b.capacity - b.periodNs;
      if |nows| > 1 {
        assert (nows[1] - nows[0]) * b.perPeriod >= b.periodNs;
        RefillIsExact(b', nows[1]);
      }
      assert forall i :: 0 <= i < |nows| - 1 ==> nows[1..][i] == nows[i + 1];
      PacedIsNeverRefused(b', nows[1..]);
    }
  }

  lemma NewLimitNeverRefusesPaced(quotesPerMinute: u64, now: u128, nows: seq<u128>)
    requires quotesPerMinute > 0
    requires var b := NewLevel(quotesPerMinute, MINUTE_NS, quotesPerMinute, now); Paced(b, nows) && (nows != [] ==> now <= nows[0])
    ensures Admitted(NewLevel(quotesPerMinute, MINUTE_NS, quotesPerMinute, now), nows) == |nows|
  {
    var b := NewLevel(quotesPerMinute, MINUTE_NS, quotesPerMinute, now);
    LimitIsExact(quotesPerMinute, now);
    if nows != [] {
      RefillIsExact(b, nows[0]);
    }
    PacedIsNeverRefused(b, nows);
  }
}
