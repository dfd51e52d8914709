/**
  Two counts of one budget. The payer keeps its own count of what it holds with the provider and
  nothing is ever exchanged to correct it; fed the same purchases and the same readings, the two
  agree for as long as the link lasts. Where they can part, the exact condition is given, in terms of
  what the payer itself can see.
 */
module Lockstep {
  import opened Numbers
  import opened Wrappers
  import opened Wire
  import opened Limits
  import opened LimitsProperties
  import opened Grants
  import opened Buyers
  import GrantProperties

  datatype Link = Link(b: Buyer, g: Grant)

  /** What happens to both sides of a link at one instant. */
  datatype Happening =
    | Bought(p: Purchase)
    | Refused(p: Purchase, at: Millis, rs: seq<Reading>)
    | Metered(moved: u64)
    | Uncarried(moved: u64)
    | Balanced(left: u64, expiresInMs: u64)
    | Ticked
    | Reconnected

  /** A refusal comes for a purchase made at `at`, both sides having read the link since. */
  datatype Timed = Timed(what: Happening, now: Millis) {
    function Starts(): Millis {
      if what.Refused? then what.at else now
    }
  }

  /** The payer's own count drawn by readings in turn. */
  function BuyerDraws(b: Buyer, rs: seq<Reading>): Buyer
    decreases |rs|
  {
    if rs == [] then b else BuyerDraws(b.Draw(rs[0].moved, rs[0].now), rs[1..])
  }

  function Next(l: Link, e: Timed): Link {
    match e.what
    case Bought(p) => Link(l.b.Record(p, e.now).0, l.g.Apply(p.Legs(), p.grant, p.windowMs, p.reservedRate, e.now))
    case Refused(p, at, rs) => Link(BuyerDraws(l.b.Record(p, at).0, rs).Rewind(), GrantProperties.Draws(l.g, rs))
    case Metered(moved) => Link(l.b.Draw(moved, e.now), l.g.Draw(moved, e.now))
    case Uncarried(moved) => Link(l.b.Draw(moved, e.now), l.g.Pause())
    case Balanced(left, expiresInMs) => l.(b := l.b.NoteBalance(left, expiresInMs, e.now))
    case Ticked => l.(g := l.g.ExpireIfDue(e.now))
    case Reconnected => Link(l.b.Restart(), l.g.Restart(e.now))
  }

  function Run(l: Link, es: seq<Timed>): Link
    decreases |es|
  {
    if es == [] then l else Run(Next(l, es[0]), es[1..])
  }

  // ------------------------------------------------------------------------
  // Agreement
  // ------------------------------------------------------------------------

  /** A budget as its holder may use it now: nothing at all once it is spent or its deadline has passed. */
  datatype Live = Nothing | Live(remaining: u64, deadline: Millis, reserved: u64)

  function PayerView(b: Buyer, now: Millis): Live {
    if b.RemainingAt(now) == 0 then Nothing else Live(b.remaining, b.deadline, b.reserved)
  }

  function ProviderView(g: Grant, now: Millis): Live {
    if g.IsLive(now) then Live(g.Remaining(), g.deadline, g.reservedRate) else Nothing
  }

  /** The two views agree, and so does all that the views to come are computed from. */
  ghost predicate InStep(l: Link, now: Millis) {
    var (b, g) := (l.b, l.g);
    && g.Valid()
    && PayerView(b, now) == ProviderView(g, now)
    && if g.IsLive(now) then b.reserved == 0 || b.second == g.second
       else (now < b.deadline ==> b.reserved == 0) && (now < g.deadline ==> g.reservedRate == 0)
  }

  /** A purchase that buys something for some time, on counts that do not saturate. */
  ghost predicate Plain(l: Link, p: Purchase, now: Millis) {
    && p.grant > 0 && p.windowMs > 0
    && now + p.windowMs <= U64_MAX && l.g.authorized + p.grant <= U64_MAX
  }

  /**
    The payer's open second is one the provider has too. It is stale when the deadline has passed
    unread and the purchase names the very rate that was reserved before it.
   */
  ghost predicate SecondHolds(b: Buyer, p: Purchase, now: Millis) {
    || p.reservedRate == 0 || now < b.deadline || p.reservedRate != b.reserved
    || b.second == None || b.second == Some(Starting(now))
  }

  /** Seen from both sides: the two deadlines come to the same, and the open second holds. */
  ghost predicate Steady(l: Link, p: Purchase, now: Millis) {
    var until := now + p.windowMs;
    Max(l.b.deadline, until) == Max(l.g.deadline, until) && SecondHolds(l.b, p, now)
  }

  /**
    The condition a payer can check before it buys. With units left its deadline is the provider's
    too; with none, the provider may have forgotten a deadline that the payer still counts to.
   */
  ghost predicate PayerSteady(b: Buyer, p: Purchase, now: Millis) {
    (b.RemainingAt(now) > 0 || b.deadline <= now + p.windowMs) && SecondHolds(b, p, now)
  }

  /** What the readings would have drawn had nothing been bought, and the second they would have left. */
  ghost function OldDraw(b: Buyer, rs: seq<Reading>): (nat, Option<Second>) {
    if rs == [] then (0, b.second)
    else
      var s := if b.second.Some? then b.second.value else Starting(rs[0].now);
      (Owed(s, rs, b.reserved), Some(After(s, rs, b.reserved)))
  }

  /** What recording a purchase and then the readings draw, and the second they leave. */
  ghost function NewDraw(b: Buyer, p: Purchase, at: Millis, rs: seq<Reading>): (nat, Second) {
    var split := p.reservedRate != b.reserved && b.second.Some?;
    var s := if b.second.Some? && !split then b.second.value else Starting(at);
    ((if split then b.second.value.Close(at, b.reserved) else 0) + Owed(s, rs, p.reservedRate), After(s, rs, p.reservedRate))
  }

  /**
    And the one for a purchase that is refused, after any readings: recording it splits the open second
    and draws at the new rate, and undoing it puts back neither. It is undone whole if there was nothing
    to draw from, or the deadline passes first; and otherwise if as much was drawn as would have been,
    with nothing reserved or the same second left open.
   */
  ghost predicate Undoable(b: Buyer, p: Purchase, at: Millis, rs: seq<Reading>, now: Millis) {
    var (drawn, left) := OldDraw(b, rs);
    var (drawn', left') := NewDraw(b, p, at, rs);
    || b.RemainingAt(at) == 0 || b.deadline <= now
    || (if drawn < b.remaining then drawn' == drawn && (b.reserved == 0 || left == Some(left')) else b.reserved == 0)
  }

  /** What a Balance says when it is true. */
  ghost predicate True(g: Grant, left: u64, expiresInMs: u64, now: Millis) {
    var budget := g.BudgetAt(now);
    left == budget.remaining && expiresInMs == budget.ExpiresInMs(now)
  }

  lemma ReadAtNoRate(s: Second, moved: u64, now: Millis)
    ensures s.Read(moved, now, 0).1 == moved
  {
    assert Exact(0, s.Whole(now) * SECOND_MS) == 0;
  }

  lemma CloseAtNoRate(s: Second, until: Millis)
    ensures s.Close(until, 0) == 0
  {
  }

  lemma TimePasses(l: Link, before: Millis, now: Millis)
    requires InStep(l, before) && before <= now
    ensures InStep(l, now)
  {
  }

  /** What a purchase does to the payer's count, its channels aside. */
  lemma RecordCounts(b: Buyer, p: Purchase, now: Millis)
    ensures var b', split := b.Record(p, now).0, b.SplitSecond(p.reservedRate, now);
      && b'.remaining == SatAdd(split.RemainingAt(now), p.grant)
      && b'.deadline == Max(b.deadline, SatAdd(now, p.windowMs)) && b'.reserved == p.reservedRate
      && b'.second == Some(if split.second.Some? then split.second.value else Starting(now))
  {
    hide Second.Close, Buyer.Snapshot;
  }

  /** What it does to the provider's. */
  lemma ApplyCounts(g: Grant, p: Purchase, now: Millis)
    ensures var g', split := g.Apply(p.Legs(), p.grant, p.windowMs, p.reservedRate, now), g.ExpireIfDue(now).SplitSecond(p.reservedRate, now);
      && g'.authorized == SatAdd(split.authorized, p.grant) && g'.consumed == split.consumed
      && g'.deadline == Max(g.deadline, SatAdd(now, p.windowMs)) && g'.reservedRate == p.reservedRate
      && g'.second == Some(if split.second.Some? then split.second.value else Starting(now))
  {
    hide Second.Close, TurnRatchets, Purchase.Legs;
  }

  lemma SplitsAgree(b: Buyer, g: Grant, rate: u64, now: Millis)
    requires InStep(Link(b, g), now)
    ensures var x, y := b.SplitSecond(rate, now), g.ExpireIfDue(now).SplitSecond(rate, now);
      && y.consumed <= y.authorized && y.authorized == g.authorized && x.deadline == b.deadline
      && x.RemainingAt(now) == y.authorized - y.consumed
      && (y.second.Some? ==> y.second.value.Valid())
  {
    hide Second.Close;
    if b.second.Some? {
      CloseAtNoRate(b.second.value, now);
    }
    if g.second.Some? {
      CloseAtNoRate(g.second.value, now);
    }
  }

  /** A purchase keeps the two in step exactly when it is steady. */
  lemma PurchaseKeepsStepIff(l: Link, p: Purchase, now: Millis)
    requires InStep(l, now) && Plain(l, p, now)
    ensures InStep(Next(l, Timed(Bought(p), now)), now) <==> Steady(l, p, now)
  {
    hide Second.Close, Buyer.Record, Grant.Apply;
    RecordCounts(l.b, p, now);
    ApplyCounts(l.g, p, now);
    SplitsAgree(l.b, l.g, p.reservedRate, now);
  }

  /**
    All a payer needs to see. The provider's deadline is never past the payer's own; and a purchase keeps
    in step every provider the payer may be facing, whatever that one has forgotten, exactly when it
    meets the payer's condition.
   */
  lemma PayerDecidesIff(l: Link, p: Purchase, now: Millis)
    requires InStep(l, now) && Plain(l, p, now) && l.g.deadline <= l.b.deadline
    ensures PayerSteady(l.b, p, now) <==> forall g: Grant :: Facing(l.b, g, p, now) ==>
      InStep(Next(Link(l.b, g), Timed(Bought(p), now)), now)
  {
    hide Next, SecondHolds;
    if PayerSteady(l.b, p, now) {
      forall g: Grant | Facing(l.b, g, p, now) ensures InStep(Next(Link(l.b, g), Timed(Bought(p), now)), now) {
        PurchaseKeepsStepIff(Link(l.b, g), p, now);
      }
    } else if SecondHolds(l.b, p, now) {
      PurchaseKeepsStepIff(Link(l.b, NewGrant()), p, now);
      assert Facing(l.b, NewGrant(), p, now);
    } else {
      PurchaseKeepsStepIff(l, p, now);
      assert Facing(l.b, l.g, p, now);
    }
  }

  /** A provider this payer may be facing, in step with it. */
  ghost predicate Facing(b: Buyer, g: Grant, p: Purchase, now: Millis) {
    InStep(Link(b, g), now) && Plain(Link(b, g), p, now) && g.deadline <= b.deadline
  }

  lemma {:induction false} OwedAtNoRate(s: Second, rs: seq<Reading>)
    ensures Owed(s, rs, 0) == Moved(rs)
    decreases |rs|
  {
    if rs != [] {
      ReadAtNoRate(s, rs[0].moved, rs[0].now);
      OwedAtNoRate(s.Read(rs[0].moved, rs[0].now, 0).0, rs[1..]);
    }
  }

  lemma {:induction false} OwedAtLeastMoved(s: Second, rs: seq<Reading>, rate: u64)
    ensures Owed(s, rs, rate) >= Moved(rs)
    decreases |rs|
  {
    if rs != [] {
      OwedAtLeastMoved(s.Read(rs[0].moved, rs[0].now, rate).0, rs[1..], rate);
    }
  }

  /** Once drained, a provider's record stays so, with nothing reserved. */
  lemma {:induction false} DrainedStays(g: Grant, rs: seq<Reading>)
    requires g.Valid() && g.Remaining() == 0 && g.reservedRate == 0
    ensures var g' := GrantProperties.Draws(g, rs);
      g'.Valid() && g'.Remaining() == 0 && g'.reservedRate == 0 && g'.authorized == g.authorized && g'.deadline == g.deadline
    decreases |rs|
  {
    if rs != [] {
      DrawDrained(g, rs[0].moved, rs[0].now);
      DrainedStays(g.Draw(rs[0].moved, rs[0].now), rs[1..]);
    }
  }

  lemma DrawDrained(g: Grant, moved: u64, now: Millis)
    requires g.Valid() && g.Remaining() == 0
    ensures var g' := g.Draw(moved, now);
      g'.Valid() && g'.Remaining() == 0 && g'.reservedRate == 0 && g'.authorized == g.authorized && g'.deadline == g.deadline
  {
    var open := if g.second.Some? then g.second.value else Starting(now);
    GrantProperties.ReadKeepsValid(open, moved, now, g.reservedRate);
    hide Second.Read;
  }

  /** What readings leave at the provider: what they owe is taken while it lasts. */
  lemma ProviderDraws(g: Grant, rs: seq<Reading>)
    requires g.Valid() && rs != []
    ensures var s := if g.second.Some? then g.second.value else Starting(rs[0].now);
      var g', owed := GrantProperties.Draws(g, rs), Owed(s, rs, g.reservedRate);
      && g'.Valid() && g'.authorized == g.authorized && g'.deadline == g.deadline
      && (owed < g.Remaining() ==>
            g'.Remaining() == g.Remaining() - owed && g'.second == Some(After(s, rs, g.reservedRate)) && g'.reservedRate == g.reservedRate)
      && (owed >= g.Remaining() ==> g'.Remaining() == 0 && g'.reservedRate == 0)
    decreases |rs|
  {
    var r, rest := rs[0], rs[1..];
    var s := if g.second.Some? then g.second.value else Starting(r.now);
    var (open, owed) := s.Read(r.moved, r.now, g.reservedRate);
    FirstReadMoves(r.moved, r.now, g.reservedRate);
    GrantProperties.ReadKeepsValid(s, r.moved, r.now, g.reservedRate);
    hide Second.Read;
    var next := g.Draw(r.moved, r.now);
    assert next.second == Some(open);
    if owed >= g.Remaining() {
      DrawnOut(g, r.moved, r.now, owed);
      DrainedStays(next, rest);
    } else if rest != [] {
      ProviderDraws(next, rest);
    }
  }

  lemma DrawnOut(g: Grant, moved: u64, now: Millis, owed: u64)
    requires g.Valid() && owed >= g.Remaining()
    requires owed == (if g.second.Some? then g.second.value else Starting(now)).Read(moved, now, g.reservedRate).1
    ensures var g' := g.Draw(moved, now);
      g'.Valid() && g'.Remaining() == 0 && g'.reservedRate == 0 && g'.authorized == g.authorized && g'.deadline == g.deadline
  {
    var open := if g.second.Some? then g.second.value else Starting(now);
    FirstReadMoves(moved, now, g.reservedRate);
    GrantProperties.ReadKeepsValid(open, moved, now, g.reservedRate);
    hide Second.Read;
  }

  /** Before its deadline a payer's count loses what the readings owe, while it lasts. */
  lemma {:induction false} PayerDraws(b: Buyer, rs: seq<Reading>, now: Millis)
    requires b.second.Some? && now < b.deadline && forall r :: r in rs ==> r.now <= now
    ensures var b', s := BuyerDraws(b, rs), b.second.value;
      var owed := Owed(s, rs, b.reserved);
      && b'.deadline == b.deadline && b'.prior == b.prior && b'.second.Some?
      && (owed < b.remaining ==> b'.remaining == b.remaining - owed && b'.second == Some(After(s, rs, b.reserved)) && b'.reserved == b.reserved)
      && (owed >= b.remaining && b.remaining > 0 ==> b'.remaining == 0)
      && (b.remaining == 0 ==> b'.remaining == 0)
    decreases |rs|
  {
    if rs != [] {
      var r, rest := rs[0], rs[1..];
      assert r in rs && forall x :: x in rest ==> x in rs;
      hide Second.Read;
      PayerDraws(b.Draw(r.moved, r.now), rest, now);
    }
  }

  /** The purchase is remembered through any readings, so it can be taken back. */
  lemma {:induction false} DrawsRemember(b: Buyer, rs: seq<Reading>)
    ensures BuyerDraws(b, rs).prior == b.prior
    decreases |rs|
  {
    if rs != [] {
      hide Second.Read;
      DrawsRemember(b.Draw(rs[0].moved, rs[0].now), rs[1..]);
    }
  }

  lemma {:induction false} ReadBy(from: Millis, rs: seq<Reading>, now: Millis)
    requires InOrder(from, rs, now)
    ensures forall r :: r in rs ==> r.now <= now
    decreases |rs|
  {
    if rs != [] {
      ReadBy(rs[0].now, rs[1..], now);
    }
  }

  /** A count at or below what a purchase added has nothing left once that is taken back. */
  lemma {:induction false} DrawsOnlyLower(b: Buyer, rs: seq<Reading>)
    ensures BuyerDraws(b, rs).remaining <= b.remaining
    decreases |rs|
  {
    if rs != [] {
      hide Second.Read;
      DrawsOnlyLower(b.Draw(rs[0].moved, rs[0].now), rs[1..]);
    }
  }

  /** A payer with nothing left, or past its deadline, is in step after a refusal whatever was read. */
  lemma SpentIsUndone(l: Link, p: Purchase, at: Millis, rs: seq<Reading>, now: Millis)
    requires InStep(l, at) && InOrder(at, rs, now) && l.b.RemainingAt(at) + p.grant <= U64_MAX
    requires l.b.RemainingAt(at) == 0 || l.b.deadline <= now
    ensures InStep(Next(l, Timed(Refused(p, at, rs), now)), now)
  {
    var recorded := l.b.Record(p, at).0;
    RecordCounts(l.b, p, at);
    RecordRemembers(l.b, p, at);
    DrawsRemember(recorded, rs);
    DrawsOnlyLower(recorded, rs);
    hide Second.Close, Buyer.Record, Second.Read, After, Owed;
    if rs != [] {
      ProviderDraws(l.g, rs);
    }
  }

  /**
    A purchase refused after any readings leaves the two in step exactly when the payer can undo it
    whole.
   */
  lemma RefusalKeepsStepIff(l: Link, p: Purchase, at: Millis, rs: seq<Reading>, now: Millis)
    requires InStep(l, at) && InOrder(at, rs, now) && l.b.RemainingAt(at) + p.grant <= U64_MAX
    ensures InStep(Next(l, Timed(Refused(p, at, rs), now)), now) <==> Undoable(l.b, p, at, rs, now)
  {
    if l.b.RemainingAt(at) == 0 || l.b.deadline <= now {
      SpentIsUndone(l, p, at, rs, now);
    } else {
      LiveRefusal(l, p, at, rs, now);
    }
  }

  lemma LiveRefusal(l: Link, p: Purchase, at: Millis, rs: seq<Reading>, now: Millis)
    requires InStep(l, at) && InOrder(at, rs, now) && l.b.RemainingAt(at) + p.grant <= U64_MAX
    requires l.b.RemainingAt(at) > 0 && now < l.b.deadline
    ensures InStep(Next(l, Timed(Refused(p, at, rs), now)), now) <==> Undoable(l.b, p, at, rs, now)
  {
    hide Buyer.Record, Buyer.Rewind, BuyerDraws, GrantProperties.Draws, NewDraw, OldDraw;
    PayerRewinds(l.b, p, at, rs, now);
    ProviderReads(l, rs, at);
    NewDrawAtLeast(l.b, p, at, rs);
  }

  /** What the payer is left with by recording, reading and undoing. */
  lemma PayerRewinds(b: Buyer, p: Purchase, at: Millis, rs: seq<Reading>, now: Millis)
    requires InOrder(at, rs, now) && b.RemainingAt(at) + p.grant <= U64_MAX && b.RemainingAt(at) > 0 && now < b.deadline
    ensures var b', (drawn, left) := BuyerDraws(b.Record(p, at).0, rs).Rewind(), NewDraw(b, p, at, rs);
      && b'.remaining == (if drawn < b.remaining then b.remaining - drawn else 0) && b'.deadline == b.deadline && b'.reserved == b.reserved
      && (drawn < b.remaining ==> b'.second == Some(left))
  {
    var recorded := b.Record(p, at).0;
    ReadBy(at, rs, now);
    RecordCounts(b, p, at);
    RecordRemembers(b, p, at);
    hide Buyer.Record, Second.Close, Second.Read, After, Owed;
    PayerDraws(recorded, rs, now);
  }

  /** What the provider has left after the readings, as the payer would have had it. */
  lemma ProviderReads(l: Link, rs: seq<Reading>, at: Millis)
    requires InStep(l, at) && l.b.RemainingAt(at) > 0
    ensures var g', (drawn, left) := GrantProperties.Draws(l.g, rs), OldDraw(l.b, rs);
      && g'.Valid() && g'.deadline == l.b.deadline
      && (drawn < l.b.remaining ==> g'.Remaining() == l.b.remaining - drawn && g'.reservedRate == l.b.reserved && (l.b.reserved > 0 ==> g'.second == left))
      && (drawn >= l.b.remaining ==> g'.Remaining() == 0 && g'.reservedRate == 0)
  {
    if rs != [] {
      ProviderDraws(l.g, rs);
      if l.b.reserved == 0 {
        OwedAtNoRate(if l.b.second.Some? then l.b.second.value else Starting(rs[0].now), rs);
        OwedAtNoRate(if l.g.second.Some? then l.g.second.value else Starting(rs[0].now), rs);
      }
      hide After, Owed;
    }
  }

  lemma NewDrawAtLeast(b: Buyer, p: Purchase, at: Millis, rs: seq<Reading>)
    ensures b.reserved == 0 ==> NewDraw(b, p, at, rs).0 >= OldDraw(b, rs).0
  {
    if b.reserved == 0 {
      var split := p.reservedRate != b.reserved && b.second.Some?;
      OwedAtLeastMoved(if b.second.Some? && !split then b.second.value else Starting(at), rs, p.reservedRate);
      if rs != [] {
        OwedAtNoRate(if b.second.Some? then b.second.value else Starting(rs[0].now), rs);
      }
    }
  }

  lemma RecordRemembers(b: Buyer, p: Purchase, now: Millis)
    ensures b.Record(p, now).0.prior == Some(b.Snapshot(p.grant))
  {
  }

  /**
    A reading at which the provider does not carry the payer leaves them in step exactly when there is
    nothing left, nothing reserved and nothing moved, or all that is left is owed at both ends.
   */
  ghost predicate PausesAlike(b: Buyer, moved: u64, now: Millis) {
    || b.RemainingAt(now) == 0
    || (b.reserved == 0 && moved == 0)
    || (b.second.Some? && b.second.value.Close(b.second.value.at, b.reserved) >= b.remaining
        && b.second.value.Read(moved, now, b.reserved).1 >= b.remaining)
  }

  lemma UncarriedKeepsStepIff(l: Link, moved: u64, now: Millis)
    requires InStep(l, now)
    ensures InStep(Next(l, Timed(Uncarried(moved), now)), now) <==> PausesAlike(l.b, moved, now)
  {
    if l.b.second.Some? {
      CloseAtNoRate(l.b.second.value, l.b.second.value.at);
      ReadAtNoRate(l.b.second.value, moved, now);
    }
    if l.g.second.Some? {
      CloseAtNoRate(l.g.second.value, l.g.second.value.at);
    }
    FirstReadMoves(moved, now, l.b.reserved);
    hide Second.Close, Second.Read;
  }

  /** A true Balance tells a payer in step nothing: it changes nothing. */
  lemma BalanceKeepsStep(l: Link, left: u64, expiresInMs: u64, now: Millis)
    requires InStep(l, now) && True(l.g, left, expiresInMs, now)
    ensures Next(l, Timed(Balanced(left, expiresInMs), now)) == l
  {
  }

  /**
    And a payer that came back with no count gets in step by one, to a provider that kept a budget with
    nothing reserved, exactly when it has no later deadline of its own.
   */
  lemma BalanceRestoresStepIff(l: Link, left: u64, expiresInMs: u64, now: Millis)
    requires l.g.Valid() && l.g.IsLive(now) && l.g.reservedRate == 0 && True(l.g, left, expiresInMs, now)
    requires !l.b.started && l.b.RemainingAt(now) == 0 && l.b.reserved == 0
    ensures InStep(Next(l, Timed(Balanced(left, expiresInMs), now)), now) <==> l.b.deadline <= l.g.deadline
  {
  }

  lemma ReadingKeepsStep(l: Link, moved: u64, now: Millis)
    requires InStep(l, now)
    ensures InStep(Next(l, Timed(Metered(moved), now)), now)
  {
    hide Second.Read;
    var open := if l.b.second.Some? then l.b.second.value else Starting(now);
    var open' := if l.g.second.Some? then l.g.second.value else Starting(now);
    ReadAtNoRate(open, moved, now);
    ReadAtNoRate(open', moved, now);
    GrantProperties.ReadKeepsValid(open', moved, now, l.g.reservedRate);
    FirstReadMoves(moved, now, l.g.reservedRate);
  }

  lemma FirstReadMoves(moved: u64, now: Millis, rate: u64)
    ensures Starting(now).Read(moved, now, rate).1 == moved
  {
  }

  lemma TickKeepsStep(l: Link, now: Millis)
    requires InStep(l, now)
    ensures InStep(Next(l, Timed(Ticked, now)), now)
  {
  }

  lemma ReconnectingKeepsStep(l: Link, now: Millis)
    requires InStep(l, now)
    ensures InStep(Next(l, Timed(Reconnected, now)), now)
  {
    if l.b.second.Some? {
      CloseAtNoRate(l.b.second.value, l.b.second.value.at);
    }
    if l.g.second.Some? {
      CloseAtNoRate(l.g.second.value, l.g.second.value.at);
    }
    hide Second.Close, ClearFailures;
  }

  // ------------------------------------------------------------------------
  // Over whole runs
  // ------------------------------------------------------------------------

  /** Every purchase plain and steady when it is made, every refusal undone, every pause alike, every Balance true. */
  ghost predicate Keeps(l: Link, e: Timed) {
    match e.what
    case Bought(p) => Plain(l, p, e.now) && Steady(l, p, e.now)
    case Refused(p, at, rs) => InOrder(at, rs, e.now) && l.b.RemainingAt(at) + p.grant <= U64_MAX && Undoable(l.b, p, at, rs, e.now)
    case Uncarried(moved) => PausesAlike(l.b, moved, e.now)
    case Balanced(left, expiresInMs) => True(l.g, left, expiresInMs, e.now)
    case _ => true
  }

  /** Such events, in clock order. */
  ghost predicate SteadyRun(l: Link, now: Millis, es: seq<Timed>)
    decreases |es|
  {
    es == [] || (now <= es[0].Starts() && Keeps(l, es[0]) && SteadyRun(Next(l, es[0]), es[0].now, es[1..]))
  }

  function LastInstant(now: Millis, es: seq<Timed>): Millis {
    if es == [] then now else es[|es| - 1].now
  }

  lemma NextKeepsStep(l: Link, e: Timed)
    requires InStep(l, e.Starts()) && Keeps(l, e)
    ensures InStep(Next(l, e), e.now)
  {
    hide Next, InStep, Plain, Steady, Undoable, True, PausesAlike;
    match e.what
    case Bought(p) => PurchaseKeepsStepIff(l, p, e.now);
    case Refused(p, at, rs) => RefusalKeepsStepIff(l, p, at, rs, e.now);
    case Uncarried(moved) => UncarriedKeepsStepIff(l, moved, e.now);
    case Balanced(left, expiresInMs) => BalanceKeepsStep(l, left, expiresInMs, e.now);
    case Metered(moved) => ReadingKeepsStep(l, moved, e.now);
    case Ticked => TickKeepsStep(l, e.now);
    case Reconnected => ReconnectingKeepsStep(l, e.now);
  }

  /**
    Payer and provider agree on what is left, until when, and at what reserved rate, after any
    run of purchases, refusals, readings carried and not, balances, ticks and reconnections, and from then
    on until the next event.
   */
  lemma {:induction false} CountsAgreeForever(l: Link, now: Millis, es: seq<Timed>, later: Millis)
    requires InStep(l, now) && SteadyRun(l, now, es) && LastInstant(now, es) <= later
    ensures PayerView(Run(l, es).b, later) == ProviderView(Run(l, es).g, later)
    ensures InStep(Run(l, es), later)
    decreases |es|
  {
    if es == [] {
      TimePasses(l, now, later);
    } else {
      var e := es[0];
      TimePasses(l, now, e.Starts());
      NextKeepsStep(l, e);
      hide Next, InStep, Keeps;
      assert LastInstant(now, es) == LastInstant(e.now, es[1..]);
      CountsAgreeForever(Next(l, e), e.now, es[1..], later);
    }
  }

  /** A link with nothing bought yet. */
  lemma NewLinkInStep(now: Millis)
    ensures InStep(Link(NewBuyer(), NewGrant()), now)
  {
  }

  // ------------------------------------------------------------------------
  // An unsteady purchase is seen
  // ------------------------------------------------------------------------

  /** Readings alone, in clock order. */
  ghost predicate OnlyReadings(now: Millis, es: seq<Timed>)
    decreases |es|
  {
    es == [] || (es[0].what.Metered? && now <= es[0].now && OnlyReadings(es[0].now, es[1..]))
  }

  /** What the two count is the same at every instant, whatever is read from now on. */
  ghost predicate AgreesFrom(l: Link, now: Millis) {
    forall es: seq<Timed>, later: Millis :: OnlyReadings(now, es) && LastInstant(now, es) <= later ==>
      PayerView(Run(l, es).b, later) == ProviderView(Run(l, es).g, later)
  }

  /** A purchase of more than a second's worth for more than a second, the open second being one the clock has reached. */
  ghost predicate Lasting(b: Buyer, p: Purchase, now: Millis) {
    && p.windowMs > SECOND_MS && p.grant > p.reservedRate
    && (b.second.Some? ==> b.second.value.start <= b.second.value.at <= now)
  }

  /** Two counts alike but for the seconds they have open. */
  ghost predicate ButForSeconds(l: Link, s: Second, t: Second, left: u64, rate: u64, until: Millis) {
    && l.b.second == Some(s) && l.g.second == Some(t)
    && l.b.remaining == left && l.g.consumed <= l.g.authorized && l.g.Remaining() == left
    && l.b.deadline == until && l.g.deadline == until && l.b.reserved == rate && l.g.reservedRate == rate
  }

  /** A reading parts them exactly when the seconds owe different units and those left do not cover it. */
  lemma ReadApart(l: Link, s: Second, t: Second, left: u64, rate: u64, until: Millis, moved: u64, at: Millis)
    requires ButForSeconds(l, s, t, left, rate, until) && at < until && left > 0
    ensures var (l', (s', x), (t', y)) := (Next(l, Timed(Metered(moved), at)), s.Read(moved, at, rate), t.Read(moved, at, rate));
      && (PayerView(l'.b, at) == ProviderView(l'.g, at) <==> (x == y || (x >= left && y >= left)))
      && (x == y < left ==> ButForSeconds(l', s', t', left - x, rate, until))
  {
    hide Second.Read;
  }

  lemma StaleCounts(l: Link, p: Purchase, now: Millis)
    requires InStep(l, now) && Plain(l, p, now) && !SecondHolds(l.b, p, now)
    requires Max(l.b.deadline, now + p.windowMs) == Max(l.g.deadline, now + p.windowMs)
    ensures ButForSeconds(Next(l, Timed(Bought(p), now)), l.b.second.value, Starting(now), p.grant, p.reservedRate, now + p.windowMs)
  {
    hide Second.Close, Buyer.Record, Grant.Apply;
    RecordCounts(l.b, p, now);
    ApplyCounts(l.g, p, now);
    SplitsAgree(l.b, l.g, p.reservedRate, now);
  }

  /** One reading sees a stale second that started less than a second ago. */
  lemma YoungSecondOwes(s: Second, now: Millis, rate: u64) returns (at: Millis)
    requires s.start <= s.at <= now < s.start + SECOND_MS && s != Starting(now) && rate > 0 && now + SECOND_MS <= U64_MAX
    ensures now <= at <= now + SECOND_MS
    ensures s.Read(0, at, rate).1 != Starting(now).Read(0, at, rate).1
    ensures s.Read(0, at, rate).1 <= rate && Starting(now).Read(0, at, rate).1 <= rate
  {
    ExactSecond(rate);
    at := if s.start < now && s.moved < rate then s.start + SECOND_MS else now + SECOND_MS;
    assert s.Whole(at) == 1;
    assert Starting(now).Whole(at) == if at == now + SECOND_MS then 1 else 0;
    hide Exact;
  }

  lemma ExactSecond(rate: nat)
    ensures Exact(rate, 1 * SECOND_MS) == rate
  {
  }

  /** A stale second older than that is closed by a first reading of one unit, and seen by it or by the next. */
  lemma OldSecondOwes(s: Second, now: Millis, rate: u64) returns (at: Millis)
    requires s.start <= s.at <= now && s.start + SECOND_MS <= now && rate > 0 && now + SECOND_MS <= U64_MAX
    ensures now <= at <= now + SECOND_MS
    ensures var (s', x) := s.Read(1, now, rate); var (t', y) := Starting(now).Read(1, now, rate);
      y == 1 && (x == 1 ==> s'.Read(0, at, rate).1 == rate && t'.Read(0, at, rate).1 < rate)
  {
    var s' := s.Read(1, now, rate).0;
    var whole := s.Whole(now);
    assert s' == Second(s.start + whole * SECOND_MS, now, 0) && s'.start <= now < s'.start + SECOND_MS;
    ExactSecond(rate);
    at := s'.start + SECOND_MS;
    assert s'.Whole(at) == 1;
  }

  /** One reading or two, within a second of an unsteady purchase, part what the two count. */
  lemma UnsteadyParts(l: Link, p: Purchase, now: Millis) returns (es: seq<Timed>)
    requires InStep(l, now) && Plain(l, p, now) && Lasting(l.b, p, now) && !Steady(l, p, now)
    ensures |es| <= 2 && OnlyReadings(now, es) && LastInstant(now, es) <= now + SECOND_MS
    ensures var end := Run(Next(l, Timed(Bought(p), now)), es);
      PayerView(end.b, LastInstant(now, es)) != ProviderView(end.g, LastInstant(now, es))
  {
    hide Next, Second.Read, Second.Whole, InStep, Plain, PayerView, ProviderView;
    var bought := Next(l, Timed(Bought(p), now));
    if Max(l.b.deadline, now + p.windowMs) != Max(l.g.deadline, now + p.windowMs) {
      DeadlinesPart(l, p, now);
      es := [];
    } else {
      StaleCounts(l, p, now);
      var s, t, until := l.b.second.value, Starting(now), now + p.windowMs;
      if now < s.start + SECOND_MS {
        var at := YoungSecondOwes(s, now, p.reservedRate);
        ReadApart(bought, s, t, p.grant, p.reservedRate, until, 0, at);
        es := [Timed(Metered(0), at)];
        OneReading(now, es[0]);
        RunOne(bought, es[0]);
      } else {
        var at := OldSecondOwes(s, now, p.reservedRate);
        var first, second := Timed(Metered(1), now), Timed(Metered(0), at);
        ReadApart(bought, s, t, p.grant, p.reservedRate, until, 1, now);
        if s.Read(1, now, p.reservedRate).1 != 1 {
          es := [first];
          OneReading(now, first);
          RunOne(bought, first);
        } else {
          ReadApart(Next(bought, first), s.Read(1, now, p.reservedRate).0, t.Read(1, now, p.reservedRate).0, p.grant - 1, p.reservedRate, until, 0, at);
          es := [first, second];
          assert es[1..] == [second];
          OneReading(now, second);
          RunOne(Next(bought, first), second);
        }
      }
    }
  }

  lemma RunOne(l: Link, e: Timed)
    ensures Run(l, [e]) == Next(l, e) && LastInstant(0, [e]) == e.now
  {
    assert [e][1..] == [];
  }

  lemma OneReading(now: Millis, e: Timed)
    requires e.what.Metered? && now <= e.now
    ensures OnlyReadings(now, [e])
  {
    assert [e][1..] == [];
  }

  lemma DeadlinesPart(l: Link, p: Purchase, now: Millis)
    requires InStep(l, now) && Plain(l, p, now)
    requires Max(l.b.deadline, now + p.windowMs) != Max(l.g.deadline, now + p.windowMs)
    ensures var l' := Next(l, Timed(Bought(p), now)); PayerView(l'.b, now) != ProviderView(l'.g, now)
  {
    hide Second.Close, Buyer.Record, Grant.Apply;
    RecordCounts(l.b, p, now);
    ApplyCounts(l.g, p, now);
    SplitsAgree(l.b, l.g, p.reservedRate, now);
  }

  lemma {:induction false} ReadingsAreSteady(l: Link, now: Millis, es: seq<Timed>)
    requires OnlyReadings(now, es)
    ensures SteadyRun(l, now, es)
    decreases |es|
  {
    if es != [] {
      hide Next;
      ReadingsAreSteady(Next(l, es[0]), es[0].now, es[1..]);
    }
  }

  /**
    What a lasting purchase leaves the two counting agrees at every later instant, whatever is read,
    exactly when the purchase is steady.
   */
  lemma PurchaseAgreesIff(l: Link, p: Purchase, now: Millis)
    requires InStep(l, now) && Plain(l, p, now) && Lasting(l.b, p, now)
    ensures AgreesFrom(Next(l, Timed(Bought(p), now)), now) <==> Steady(l, p, now)
  {
    hide Next, InStep, Plain, Lasting, Steady, Run, OnlyReadings, SteadyRun, PayerView, ProviderView, LastInstant;
    var bought := Next(l, Timed(Bought(p), now));
    PurchaseKeepsStepIff(l, p, now);
    if Steady(l, p, now) {
      forall es: seq<Timed>, later: Millis | OnlyReadings(now, es) && LastInstant(now, es) <= later
        ensures PayerView(Run(bought, es).b, later) == ProviderView(Run(bought, es).g, later)
      {
        ReadingsAreSteady(bought, now, es);
        CountsAgreeForever(bought, now, es, later);
      }
    } else {
      var es := UnsteadyParts(l, p, now);
      assert !AgreesFrom(bought, now);
    }
  }

  // ------------------------------------------------------------------------
  // What the payer can see
  // ------------------------------------------------------------------------

  /** The payer's own state after an event: nothing of the provider's is in it. */
  function Payer(b: Buyer, e: Timed): Buyer {
    match e.what
    case Bought(p) => b.Record(p, e.now).0
    case Refused(p, at, rs) => BuyerDraws(b.Record(p, at).0, rs).Rewind()
    case Metered(moved) => b.Draw(moved, e.now)
    case Uncarried(moved) => b.Draw(moved, e.now)
    case Balanced(left, expiresInMs) => b.NoteBalance(left, expiresInMs, e.now)
    case Ticked => b
    case Reconnected => b.Restart()
  }

  function GrantOf(e: Timed): nat {
    if e.what.Bought? then e.what.p.grant else 0
  }

  /** What the payer can check of one event: nothing of the provider's is in it. */
  ghost predicate PayerMeets(b: Buyer, bought: nat, e: Timed) {
    match e.what
    case Bought(p) =>
      && p.grant > 0 && p.windowMs > 0 && e.now + p.windowMs <= U64_MAX && bought + p.grant <= U64_MAX
      && PayerSteady(b, p, e.now)
    case Refused(p, at, rs) =>
      InOrder(at, rs, e.now) && b.RemainingAt(at) + p.grant <= U64_MAX && Undoable(b, p, at, rs, e.now)
    case Uncarried(moved) => PausesAlike(b, moved, e.now)
    case _ => true
  }

  /** A run the payer can check as it goes, `bought` being all it has bought so far. */
  ghost predicate PayerRun(b: Buyer, bought: nat, now: Millis, es: seq<Timed>)
    decreases |es|
  {
    es == [] ||
    (now <= es[0].Starts() && PayerMeets(b, bought, es[0]) &&
     PayerRun(Payer(b, es[0]), bought + GrantOf(es[0]), es[0].now, es[1..]))
  }

  /** The provider's Balances are true. */
  ghost predicate Truthful(l: Link, es: seq<Timed>)
    decreases |es|
  {
    es == [] ||
    ((es[0].what.Balanced? ==> True(l.g, es[0].what.left, es[0].what.expiresInMs, es[0].now)) && Truthful(Next(l, es[0]), es[1..]))
  }

  /** The provider counts to no later a deadline than the payer, and has authorized no more than was bought. */
  ghost predicate Bounded(l: Link, bought: nat) {
    l.g.Valid() && l.g.deadline <= l.b.deadline && l.g.authorized <= bought
  }

  lemma NextIsBounded(l: Link, e: Timed, bought: nat)
    requires Bounded(l, bought) && InStep(Next(l, e), e.now)
    requires e.what.Balanced? ==> Next(l, e) == l
    ensures Next(l, e).b == Payer(l.b, e) && Bounded(Next(l, e), bought + GrantOf(e))
  {
    hide Second.Read, Second.Close, TurnRatchets, Purchase.Legs, ClearFailures, PayerView, ProviderView;
    if e.what.Refused? {
      RefusedIsBounded(l, e.what.p, e.what.at, e.what.rs);
    }
  }

  lemma RefusedIsBounded(l: Link, p: Purchase, at: Millis, rs: seq<Reading>)
    requires l.g.Valid()
    ensures BuyerDraws(l.b.Record(p, at).0, rs).Rewind().deadline == l.b.deadline
    ensures var g' := GrantProperties.Draws(l.g, rs); g'.Valid() && g'.deadline == l.g.deadline && g'.authorized == l.g.authorized
  {
    hide Buyer.Record, BuyerDraws, Owed, After;
    RecordRemembers(l.b, p, at);
    DrawsRemember(l.b.Record(p, at).0, rs);
    if rs != [] {
      ProviderDraws(l.g, rs);
    }
  }

  lemma {:induction false} PayerRunIsSteady(l: Link, bought: nat, now: Millis, es: seq<Timed>)
    requires InStep(l, now) && Bounded(l, bought) && PayerRun(l.b, bought, now, es) && Truthful(l, es)
    ensures SteadyRun(l, now, es)
    decreases |es|
  {
    if es != [] {
      var e := es[0];
      TimePasses(l, now, e.Starts());
      PayerKeeps(l, bought, e);
      hide Next, InStep, Keeps, Bounded, Payer, PayerMeets;
      NextKeepsStep(l, e);
      if e.what.Balanced? {
        BalanceKeepsStep(l, e.what.left, e.what.expiresInMs, e.now);
      }
      NextIsBounded(l, e, bought);
      PayerRunIsSteady(Next(l, e), bought + GrantOf(e), e.now, es[1..]);
    }
  }

  lemma PayerKeeps(l: Link, bought: nat, e: Timed)
    requires InStep(l, e.Starts()) && Bounded(l, bought) && PayerMeets(l.b, bought, e)
    requires e.what.Balanced? ==> True(l.g, e.what.left, e.what.expiresInMs, e.now)
    ensures Keeps(l, e)
  {
    hide Payer, Next, SecondHolds;
  }

  /**
    From the first purchase over a link on, through any reconnections, the two counts agree at every
    instant, if the payer meets its own condition at each purchase and each refusal.
   */
  lemma LinkInLockstep(now: Millis, es: seq<Timed>, later: Millis)
    requires PayerRun(NewBuyer(), 0, now, es) && Truthful(Link(NewBuyer(), NewGrant()), es) && LastInstant(now, es) <= later
    ensures var end := Run(Link(NewBuyer(), NewGrant()), es);
      PayerView(end.b, later) == ProviderView(end.g, later)
  {
    NewLinkInStep(now);
    hide Run, PayerRun, Truthful, SteadyRun, InStep;
    PayerRunIsSteady(Link(NewBuyer(), NewGrant()), 0, now, es);
    CountsAgreeForever(Link(NewBuyer(), NewGrant()), now, es, later);
  }

  // ------------------------------------------------------------------------
  // What the order of events alone says
  // ------------------------------------------------------------------------

  /**
    Kept from the events alone: the latest deadline bought, whether no second is open because a reading
    came at or past it or the link came back, and whether the link came back since the last purchase.
   */
  datatype Clock = Clock(deadline: Millis, closed: bool, back: bool)

  function NextClock(c: Clock, e: Timed): Clock {
    match e.what
    case Bought(p) => Clock(Max(c.deadline, SatAdd(e.now, p.windowMs)), false, false)
    case Metered(_) => c.(closed := e.now >= c.deadline)
    case Reconnected => c.(closed := true, back := true)
    case _ => c
  }

  /**
    Each purchase comes before the deadline, or reserves nothing, or is the first since a reading at or
    past it; and the first after a reconnection runs to the deadline at least.
   */
  ghost predicate Scheduled(c: Clock, bought: nat, now: Millis, es: seq<Timed>)
    decreases |es|
  {
    es == [] ||
    (now <= es[0].now && !es[0].what.Refused? && !es[0].what.Uncarried? &&
     (es[0].what.Bought? ==>
        (var p := es[0].what.p;
         && p.grant > 0 && p.windowMs > 0 && es[0].now + p.windowMs <= U64_MAX && bought + p.grant <= U64_MAX
         && (es[0].now < c.deadline || c.closed || p.reservedRate == 0)
         && (c.back ==> c.deadline <= es[0].now + p.windowMs))) &&
     Scheduled(NextClock(c, es[0]), bought + GrantOf(es[0]), es[0].now, es[1..]))
  }

  ghost predicate Clocked(l: Link, c: Clock) {
    && l.b.deadline == c.deadline
    && (c.closed ==> l.b.second.None?)
    && (!c.back ==> l.g.deadline == l.b.deadline)
  }

  lemma ScheduledKeeps(l: Link, c: Clock, bought: nat, e: Timed)
    requires InStep(l, e.now) && Bounded(l, bought) && Clocked(l, c) && Scheduled(c, bought, e.now, [e])
    requires e.what.Balanced? ==> True(l.g, e.what.left, e.what.expiresInMs, e.now)
    ensures Keeps(l, e)
  {
    hide NextClock;
  }

  lemma NextIsClocked(l: Link, c: Clock, bought: nat, e: Timed)
    requires Bounded(l, bought) && Clocked(l, c) && Scheduled(c, bought, e.now, [e])
    requires e.what.Balanced? ==> Next(l, e) == l
    ensures Clocked(Next(l, e), NextClock(c, e))
  {
    hide Second.Read, Second.Close, TurnRatchets, Purchase.Legs, ClearFailures;
  }

  lemma {:induction false} ScheduledIsSteady(l: Link, c: Clock, bought: nat, now: Millis, es: seq<Timed>)
    requires InStep(l, now) && Bounded(l, bought) && Clocked(l, c) && Scheduled(c, bought, now, es) && Truthful(l, es)
    ensures SteadyRun(l, now, es)
    decreases |es|
  {
    if es != [] {
      var e := es[0];
      assert Scheduled(c, bought, e.now, [e]) by { assert [e][1..] == []; }
      TimePasses(l, now, e.now);
      hide Next, InStep, Keeps, Bounded, Clocked, NextClock;
      ScheduledKeeps(l, c, bought, e);
      NextKeepsStep(l, e);
      if e.what.Balanced? {
        BalanceKeepsStep(l, e.what.left, e.what.expiresInMs, e.now);
      }
      NextIsBounded(l, e, bought);
      NextIsClocked(l, c, bought, e);
      ScheduledIsSteady(Next(l, e), NextClock(c, e), bought + GrantOf(e), e.now, es[1..]);
    }
  }

  /**
    The same from the events alone, with no state looked at: a reading at or past the deadline before
    each purchase past it, and a first purchase after each reconnection that reaches the deadline.
   */
  lemma ScheduleInLockstep(now: Millis, es: seq<Timed>, later: Millis)
    requires Scheduled(Clock(0, true, false), 0, now, es) && Truthful(Link(NewBuyer(), NewGrant()), es) && LastInstant(now, es) <= later
    ensures var end := Run(Link(NewBuyer(), NewGrant()), es);
      PayerView(end.b, later) == ProviderView(end.g, later)
  {
    NewLinkInStep(now);
    assert Clocked(Link(NewBuyer(), NewGrant()), Clock(0, true, false));
    hide Run, Scheduled, Truthful, SteadyRun, InStep;
    ScheduledIsSteady(Link(NewBuyer(), NewGrant()), Clock(0, true, false), 0, now, es);
    CountsAgreeForever(Link(NewBuyer(), NewGrant()), now, es, later);
  }

  // ------------------------------------------------------------------------
  // Within one session
  // ------------------------------------------------------------------------

  /**
    Within a session every purchase is steady if it is made before the deadline, or with no second open.
   */
  ghost predicate Timely(l: Link, now: Millis, es: seq<Timed>)
    decreases |es|
  {
    es == [] ||
    (now <= es[0].now && !es[0].what.Reconnected? && !es[0].what.Refused? && !es[0].what.Uncarried? && !es[0].what.Balanced? &&
     (es[0].what.Bought? ==>
        && Plain(l, es[0].what.p, es[0].now)
        && (es[0].now < l.b.deadline || l.b.second.None?)) &&
     Timely(Next(l, es[0]), es[0].now, es[1..]))
  }

  lemma DeadlinesMoveTogether(l: Link, e: Timed)
    requires l.b.deadline == l.g.deadline && !e.what.Reconnected? && !e.what.Refused? && !e.what.Uncarried? && !e.what.Balanced?
    ensures Next(l, e).b.deadline == Next(l, e).g.deadline
  {
    hide Second.Read, Second.Close, TurnRatchets;
  }

  lemma {:induction false} TimelyIsSteady(l: Link, now: Millis, es: seq<Timed>)
    requires l.b.deadline == l.g.deadline && Timely(l, now, es)
    ensures SteadyRun(l, now, es)
    decreases |es|
  {
    if es != [] {
      DeadlinesMoveTogether(l, es[0]);
      hide Next;
      TimelyIsSteady(Next(l, es[0]), es[0].now, es[1..]);
    }
  }

  /** Through one session, from its first purchase on, the counts agree at every instant. */
  lemma SessionInLockstep(now: Millis, es: seq<Timed>, later: Millis)
    requires Timely(Link(NewBuyer(), NewGrant()), now, es) && LastInstant(now, es) <= later
    ensures var end := Run(Link(NewBuyer(), NewGrant()), es);
      PayerView(end.b, later) == ProviderView(end.g, later)
  {
    NewLinkInStep(now);
    TimelyIsSteady(Link(NewBuyer(), NewGrant()), now, es);
    CountsAgreeForever(Link(NewBuyer(), NewGrant()), now, es, later);
  }

  // ------------------------------------------------------------------------
  // How they part
  // ------------------------------------------------------------------------

  /** The deadline passed at 1 s unread, with 1000 units a second reserved and 500 left. */
  ghost predicate LapsedUnread(l: Link) {
    && l.b.remaining == 500 && l.b.deadline == 1_000 && l.b.reserved == 1_000 && l.b.second == Some(Second(0, 0, 0))
    && l.g.authorized == 500 && l.g.consumed == 0 && l.g.deadline == 1_000 && l.g.reservedRate == 1_000
    && l.g.second == Some(Second(0, 0, 0))
  }

  ghost predicate BoughtAgain(l: Link) {
    && l.b.remaining == 10_000 && l.b.deadline == 15_000 && l.b.reserved == 1_000 && l.b.second == Some(Second(0, 0, 0))
    && l.g.authorized == 10_500 && l.g.consumed == 500 && l.g.deadline == 15_000 && l.g.reservedRate == 1_000
    && l.g.second == Some(Starting(5_000))
  }

  lemma StalePurchase(l: Link, p: Purchase)
    requires LapsedUnread(l) && p.grant == 10_000 && p.windowMs == 10_000 && p.reservedRate == 1_000
    ensures InStep(l, 5_000) && Plain(l, p, 5_000) && !Steady(l, p, 5_000)
    ensures BoughtAgain(Next(l, Timed(Bought(p), 5_000)))
  {
    CloseAtNoRate(Second(0, 0, 0), 5_000);
    hide TurnRatchets;
  }

  /**
    What an unsteady purchase does: buying again at 5 s at the same rate leaves the payer counting
    the 5 s it was not carried, and the two are 5000 units apart at the next reading.
   */
  lemma StaleSecondParts(l: Link, p: Purchase)
    requires LapsedUnread(l) && p.grant == 10_000 && p.windowMs == 10_000 && p.reservedRate == 1_000
    ensures var end := Next(Next(l, Timed(Bought(p), 5_000)), Timed(Metered(0), 5_000));
      PayerView(end.b, 5_000) == Live(5_000, 15_000, 1_000) && ProviderView(end.g, 5_000) == Live(10_000, 15_000, 1_000)
  {
    hide Second.Read, InStep, Plain, Steady, Buyer.Record, Grant.Apply, LapsedUnread;
    StalePurchase(l, p);
    FifthSecondReads();
    var bought := Next(l, Timed(Bought(p), 5_000));
    assert BoughtAgain(bought);
  }

  lemma FifthSecondReads()
    ensures Second(0, 0, 0).Read(0, 5_000, 1_000).1 == 5_000
    ensures Starting(5_000).Read(0, 5_000, 1_000).1 == 0
  {
  }

  function Buy(id: ChannelId, windowMs: u64, rate: u64, grant: u64): Purchase {
    Purchase(Ratchet(id, 0), None, windowMs, rate, grant, First)
  }

  /**
    A count drained to nothing, 100 s bought, and the link back at 5 s: the provider has forgotten the
    deadline and the payer has not. Ten seconds more are then counted to 100 s by the one and to 15 s by
    the other, from a link in step and a purchase that is plain.
   */
  lemma ForgottenDeadlineParts(id: ChannelId)
    ensures var l := Run(Link(NewBuyer(), NewGrant()),
                         [Timed(Bought(Buy(id, 100_000, 0, 10)), 0), Timed(Metered(10), 1_000), Timed(Reconnected, 5_000)]);
      var p := Buy(id, 10_000, 0, 10_000);
      var end := Next(l, Timed(Bought(p), 5_000));
      && InStep(l, 5_000) && Plain(l, p, 5_000) && !PayerSteady(l.b, p, 5_000)
      && PayerView(end.b, 5_000) == Live(10_000, 100_000, 0) && ProviderView(end.g, 5_000) == Live(10_000, 15_000, 0)
  {
    var start, e, f, h := Link(NewBuyer(), NewGrant()), Timed(Bought(Buy(id, 100_000, 0, 10)), 0), Timed(Metered(10), 1_000), Timed(Reconnected, 5_000);
    assert [e, f, h][1..] == [f, h] && [f, h][1..] == [h] && [h][1..] == [];
    var l := Next(Next(Next(start, e), f), h);
    assert Run(Next(Next(start, e), f), [h]) == Run(l, []);
    assert Run(Next(start, e), [f, h]) == l;
    Drained(id);
    hide Run, Next, InStep, Plain, PayerSteady;
  }

  lemma Drained(id: ChannelId)
    ensures var l := Next(Next(Next(Link(NewBuyer(), NewGrant()), Timed(Bought(Buy(id, 100_000, 0, 10)), 0)), Timed(Metered(10), 1_000)), Timed(Reconnected, 5_000));
      var p := Buy(id, 10_000, 0, 10_000);
      var end := Next(l, Timed(Bought(p), 5_000));
      && InStep(l, 5_000) && Plain(l, p, 5_000) && !PayerSteady(l.b, p, 5_000)
      && PayerView(end.b, 5_000) == Live(10_000, 100_000, 0) && ProviderView(end.g, 5_000) == Live(10_000, 15_000, 0)
  {
  }

  /** The unread deadline above is one any payer may come to: 500 units bought for 1 s at 1000 a second. */
  lemma LapsedUnreadHappens(id: ChannelId)
    ensures LapsedUnread(Next(Link(NewBuyer(), NewGrant()), Timed(Bought(Buy(id, 1_000, 1_000, 500)), 0)))
  {
    hide TurnRatchets;
  }

  /**
    A rise refused: with 1000 units a second reserved, a purchase at 2000 half way through a second is
    refused. The payer has closed that second and started another, the provider has not, and at the next
    reading the two are 500 units apart.
   */
  lemma RefusedRiseParts(id: ChannelId)
    ensures var l := Next(Link(NewBuyer(), NewGrant()), Timed(Bought(Buy(id, 15_000, 1_000, 10_000)), 0));
      var p := Buy(id, 15_000, 2_000, 30_000);
      var end := Next(Next(l, Timed(Refused(p, 500, []), 500)), Timed(Metered(0), 1_000));
      && InStep(l, 500) && !Undoable(l.b, p, 500, [], 500)
      && PayerView(end.b, 1_000) == Live(9_500, 15_000, 1_000) && ProviderView(end.g, 1_000) == Live(9_000, 15_000, 1_000)
  {
    hide TurnRatchets;
  }

  /** A reading not carried: ten units move, which the payer counts and the provider does not draw. */
  lemma UncarriedParts(id: ChannelId)
    ensures var l := Next(Link(NewBuyer(), NewGrant()), Timed(Bought(Buy(id, 15_000, 0, 10_000)), 0));
      var end := Next(l, Timed(Uncarried(10), 500));
      && InStep(l, 500) && !PausesAlike(l.b, 10, 500)
      && PayerView(end.b, 500) == Live(9_990, 15_000, 0) && ProviderView(end.g, 500) == Live(10_000, 15_000, 0)
  {
    hide TurnRatchets;
  }
}
