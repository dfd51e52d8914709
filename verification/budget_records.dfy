/**
  The host's record of a payer's budget, and what every event but that payer's connecting does to the
  budget it covers: draws from it, saves it, or leaves both alone.
 */
module BudgetRecords {
  import opened Numbers
  import opened Wrappers
  import opened Wire
  import opened Grants
  import opened GrantChannels
  import opened Sessions
  import opened SessionFrames
  import opened SessionPurchases
  import opened Nodes
  import opened NodeFrames
  import opened NodeEarnings

  // ------------------------------------------------------------------------
  // The host's record
  // ------------------------------------------------------------------------

  /** The last budget saved for a payer among some actions. */
  function LastSaved(out: seq<Action>, p: PubKey): Option<Budget>
    decreases |out|
  {
    if out == [] then None
    else
      var last := out[|out| - 1];
      if last.SaveBudget? && last.peer == p then Some(last.budget) else LastSaved(out[..|out| - 1], p)
  }

  lemma {:induction false} LastSavedIsSaved(out: seq<Action>, p: PubKey)
    ensures LastSaved(out, p).Some? ==> SaveBudget(p, LastSaved(out, p).value) in out
    ensures LastSaved(out, p).None? ==> forall b: Budget :: SaveBudget(p, b) !in out
    decreases |out|
  {
    if out != [] {
      var front := out[..|out| - 1];
      LastSavedIsSaved(front, p);
      assert out == front + [out[|out| - 1]];
    }
  }

  /** What the host has on record for one payer, and what has been drawn since it was saved. */
  datatype Ledger = Ledger(saved: Budget, drawn: int)

  /** Units taken from a payer's budget by one event; a live session that starts over first closes its open second. */
  ghost function DrawnBy(n: Node, e: Event, n': Node, p: PubKey): int {
    if p !in n.peers || p !in n'.peers then 0
    else
      var g := n.peers[p].grant;
      (if e.PeerConnected? && e.peer == p && !PolicyFor(n, p).blocked then g.Pause().consumed else n'.peers[p].grant.consumed)
        - g.consumed
  }

  ghost function Entered(l: Ledger, n: Node, e: Event, c: Course, p: PubKey): Ledger {
    var last := LastSaved(c.out, p);
    if last.Some? then Ledger(last.value, 0)
    else if p in n.peers && p !in c.n.peers then Ledger(l.saved, 0)
    else Ledger(l.saved, l.drawn + DrawnBy(n, e, c.n, p))
  }

  /** What is left of a payer's budget, whether or not its deadline has passed. */
  function Worth(g: Grant): Budget {
    Budget(g.Remaining(), g.deadline)
  }

  /** The record is the budget plus what was drawn since; or there is no budget, on record or held. */
  ghost predicate Covered(l: Ledger, g: Grant, now: Millis) {
    || (l.saved.remaining == g.Remaining() + l.drawn && (g.Remaining() > 0 ==> l.saved.deadline == g.deadline))
    || (l.saved.At(now) == NO_BUDGET && g.BudgetAt(now) == NO_BUDGET)
  }

  ghost predicate Covers(l: Ledger, n: Node, p: PubKey, now: Millis) {
    && !PolicyFor(n, p).noCharge
    && l.drawn >= 0
    && (p !in n.peers ==> l.drawn == 0)
    && (p in n.peers ==> !n.peers[p].policy.noCharge && Covered(l, n.peers[p].grant, now))
    && (p in n.parked ==> l.saved.At(now) == n.parked[p].session.grant.BudgetAt(now))
  }

  lemma TimePasses(l: Ledger, n: Node, p: PubKey, was: Millis, now: Millis)
    requires Covers(l, n, p, was) && was <= now
    ensures Covers(l, n, p, now)
  {
  }

  /**
    What the record is worth to the payer: never less than the budget it holds, and more by no more
    than was drawn since; by exactly that while the budget is live.
   */
  lemma RecordIsWorth(l: Ledger, n: Node, p: PubKey, now: Millis)
    requires Covers(l, n, p, now) && p in n.peers
    ensures var live, record := n.peers[p].grant.BudgetAt(now), l.saved.At(now);
      && live.remaining <= record.remaining <= live.remaining + l.drawn
      && (n.peers[p].grant.IsLive(now) ==> record == Budget(live.remaining + l.drawn, live.deadline))
  {
  }

  // ------------------------------------------------------------------------
  // What one event may do to a payer's budget
  // ------------------------------------------------------------------------

  ghost predicate NothingSaved(out: seq<Action>, p: PubKey) {
    forall b: Budget :: SaveBudget(p, b) !in out
  }

  /** Everything saved for the payer is `b`; if `must`, something was. */
  ghost predicate SavesOnly(out: seq<Action>, p: PubKey, b: Budget, must: bool) {
    && (forall d: Budget :: SaveBudget(p, d) in out ==> d == b)
    && (must ==> SaveBudget(p, b) in out)
  }

  /** A live session stays: only drawn from, and only its end saved; or saved as it now stands. */
  ghost predicate Remains(n: Node, c: Course, p: PubKey, now: Millis) {
    && p in n.peers && p in c.n.peers && p !in c.n.parked && !c.n.peers[p].policy.noCharge
    && var g, g' := n.peers[p].grant, c.n.peers[p].grant;
      && g'.Valid()
      && (|| (Drawn(g, g') && SavesOnly(c.out, p, NO_BUDGET, false) && (NothingSaved(c.out, p) || !g'.IsLive(now)))
          || SavesOnly(c.out, p, g'.BudgetAt(now), true))
  }

  /** A live session goes: saved as it leaves, and parked with that or not at all. */
  ghost predicate Leaves(n: Node, c: Course, p: PubKey, now: Millis) {
    && p in n.peers && p !in c.n.peers
    && exists b: Budget :: SavesOnly(c.out, p, b, true)
         && (p in c.n.parked ==> b.At(now) == c.n.parked[p].session.grant.BudgetAt(now))
  }

  /** No live session before or after: what is parked stays as it was, goes, or is saved as it goes. */
  ghost predicate StaysAway(n: Node, c: Course, p: PubKey, now: Millis) {
    && p !in n.peers && p !in c.n.peers
    && (NothingSaved(c.out, p) || (p in n.parked && SavesOnly(c.out, p, n.parked[p].session.grant.BudgetAt(now), true)))
    && (p in c.n.parked ==>
          (p in n.parked && c.n.parked[p].session.grant.BudgetAt(now) == n.parked[p].session.grant.BudgetAt(now)))
  }

  ghost predicate Accounts(n: Node, c: Course, p: PubKey, now: Millis) {
    Remains(n, c, p, now) || Leaves(n, c, p, now) || StaysAway(n, c, p, now)
  }

  lemma OnlySaved(out: seq<Action>, p: PubKey, b: Budget, must: bool)
    requires SavesOnly(out, p, b, must)
    ensures LastSaved(out, p).Some? ==> LastSaved(out, p).value == b
    ensures must ==> LastSaved(out, p) == Some(b)
  {
    LastSavedIsSaved(out, p);
  }

  /** Whatever an event does of these, the record goes on covering the budget. */
  lemma AccountsKeepsCovers(l: Ledger, n: Node, e: Event, c: Course, p: PubKey, now: Millis)
    requires NodeSound(n) && Covers(l, n, p, now) && Accounts(n, c, p, now) && !PolicyFor(c.n, p).noCharge
    requires !(e.PeerConnected? && e.peer == p && !PolicyFor(n, p).blocked)
    ensures Covers(Entered(l, n, e, c, p), c.n, p, now)
  {
    LastSavedIsSaved(c.out, p);
    hide LastSaved;
    if Remains(n, c, p, now) {
      RemainingKeepsCovers(l, n, e, c, p, now);
    } else if Leaves(n, c, p, now) {
      var b :| SavesOnly(c.out, p, b, true) && (p in c.n.parked ==> b.At(now) == c.n.parked[p].session.grant.BudgetAt(now));
      OnlySaved(c.out, p, b, true);
    } else if !NothingSaved(c.out, p) {
      OnlySaved(c.out, p, n.parked[p].session.grant.BudgetAt(now), true);
    }
  }

  lemma RemainingKeepsCovers(l: Ledger, n: Node, e: Event, c: Course, p: PubKey, now: Millis)
    requires NodeSound(n) && Covers(l, n, p, now) && Remains(n, c, p, now) && !PolicyFor(c.n, p).noCharge
    requires !(e.PeerConnected? && e.peer == p && !PolicyFor(n, p).blocked)
    ensures Covers(Entered(l, n, e, c, p), c.n, p, now)
  {
    var g, g' := n.peers[p].grant, c.n.peers[p].grant;
    LastSavedIsSaved(c.out, p);
    hide LastSaved;
    if SavesOnly(c.out, p, g'.BudgetAt(now), true) {
      OnlySaved(c.out, p, g'.BudgetAt(now), true);
    } else {
      OnlySaved(c.out, p, NO_BUDGET, false);
      assert g.Valid() && Sound(n.peers[p]);
    }
  }

  // ------------------------------------------------------------------------
  // Events about other peers
  // ------------------------------------------------------------------------

  ghost predicate Untouched(c: Course, c': Course, p: PubKey) {
    && (p in c'.n.peers <==> p in c.n.peers)
    && (p in c.n.peers ==> c'.n.peers[p].grant == c.n.peers[p].grant && c'.n.peers[p].policy == c.n.peers[p].policy)
    && (p in c'.n.parked ==> p in c.n.parked && Worth(c'.n.parked[p].session.grant) == Worth(c.n.parked[p].session.grant))
    && (forall b: Budget :: SaveBudget(p, b) in c'.out <==> SaveBudget(p, b) in c.out)
  }

  lemma UntouchedThen(c: Course, d: Course, e: Course, p: PubKey)
    requires Untouched(c, d, p) && Untouched(d, e, p)
    ensures Untouched(c, e, p)
  {
  }

  ghost predicate Charged(n: Node, p: PubKey) {
    p in n.peers ==> !n.peers[p].policy.noCharge
  }

  lemma UntouchedAccounts(n: Node, c: Course, p: PubKey, now: Millis)
    requires NodeSound(n) && Charged(n, p) && Untouched(Course(n, []), c, p)
    ensures Accounts(n, c, p, now)
  {
    assert NothingSaved(c.out, p);
    if p in n.peers {
      assert p !in c.n.parked && Sound(n.peers[p]);
    }
  }

  lemma AccountsThenUntouched(n: Node, c: Course, c': Course, p: PubKey, now: Millis)
    requires Accounts(n, c, p, now) && Untouched(c, c', p)
    ensures Accounts(n, c', p, now)
  {
    assert NothingSaved(c'.out, p) <==> NothingSaved(c.out, p);
    if Leaves(n, c, p, now) && !Remains(n, c, p, now) {
      var b :| SavesOnly(c.out, p, b, true) && (p in c.n.parked ==> b.At(now) == c.n.parked[p].session.grant.BudgetAt(now));
      assert SavesOnly(c'.out, p, b, true);
    }
  }

  lemma NotingTouchesNone(c: Course, p: PubKey, now: Millis)
    ensures Untouched(c, NoteSent(c, now), p)
  {
  }

  // ------------------------------------------------------------------------
  // One peer's events
  // ------------------------------------------------------------------------

  lemma BasisSameBudget(n: Node, t: Turn, e: Event, now: Millis)
    ensures var b := Basis(n, t, e, now);
      && b.out == t.out && Worth(b.s.grant) == Worth(t.s.grant)
      && b.s.grant.authorized == t.s.grant.authorized && b.s.grant.consumed == t.s.grant.consumed
      && b.s.grant.deadline == t.s.grant.deadline && b.s.grant.reservedRate == t.s.grant.reservedRate
      && (t.s.grant.Valid() ==> b.s.grant.Valid())
      && b.s.policy == if e.PeerPolicySet? then e.policy else t.s.policy
  {
    hide Find, Put;
    if e.PeerPolicySet? {
      assert !ChecksSignatures(n, t.s, e, now) && !Verifies(n, e) && !Resuming(n, t.s, e);
    }
  }

  lemma EventAccounts(n: Node, e: Event, p: PubKey, now: Millis)
    requires NodeSound(n) && AboutOne(e) && Charged(n, p)
    requires e.PeerPolicySet? && e.peer == p ==> !e.policy.noCharge
    ensures Accounts(n, OnPeer(n, e.peer, e, now), p, now)
  {
    hide ReservedElsewhere, OnSession, Basis, Buys, Accounted, Distinct, Accounts, Untouched;
    var c := OnPeer(n, e.peer, e, now);
    if e.peer !in n.peers {
      StrangerUntouched(n, e, p);
      UntouchedAccounts(n, c, p, now);
    } else {
      var t, elsewhere := Enter(n, e.peer), ReservedElsewhere(n, e.peer);
      var after := OnSession(n, t, e, elsewhere, now);
      var basis := Basis(n, t, e, now);
      assert Sound(t.s) && c == Install(Course(n, []), e.peer, after);
      EventMoves(n, t, e, elsewhere, now);
      BasisSameBudget(n, t, e, now);
      hide OnPeer, NodeSound;
      if e.peer != p {
        assert forall a :: a in after.out ==> a.peer == e.peer;
        hide Ordinary, Honored;
        InstallUntouched(n, e.peer, after, p);
        UntouchedAccounts(n, c, p, now);
      } else {
        OnlyTopUpsBuy(n, t, e, elsewhere, now);
        SessionAccounts(n, t, basis, after, e, elsewhere, now);
        RemainsAccounts(n, c, p, now);
      }
    }
  }

  lemma OnlyTopUpsBuy(n: Node, t: Turn, e: Event, elsewhere: u64, now: Millis)
    ensures Buys(n, t, e, elsewhere, now) ==> e.MessageReceived? && e.msg.MTopUp?
  {
  }

  lemma StrangerUntouched(n: Node, e: Event, p: PubKey)
    ensures Untouched(Course(n, []), Course(n, OnStranger(n.cfg, e)), p)
  {
  }

  lemma InstallUntouched(n: Node, peer: PubKey, t: Turn, p: PubKey)
    requires p != peer && forall a :: a in t.out ==> a.peer == peer
    ensures Untouched(Course(n, []), Install(Course(n, []), peer, t), p)
  {
  }

  lemma RemainsAccounts(n: Node, c: Course, p: PubKey, now: Millis)
    requires Remains(n, c, p, now)
    ensures Accounts(n, c, p, now)
  {
  }

  lemma SessionAccounts(n: Node, t: Turn, basis: Turn, after: Turn, e: Event, elsewhere: u64, now: Millis)
    requires NodeSound(n) && AboutOne(e) && e.peer in n.peers && t == Enter(n, e.peer)
    requires basis.out == [] && basis.s.policy.noCharge == false
    requires basis.s.grant.Valid() && basis.s.grant.authorized == t.s.grant.authorized && basis.s.grant.consumed == t.s.grant.consumed
    requires basis.s.grant.deadline == t.s.grant.deadline && basis.s.grant.reservedRate == t.s.grant.reservedRate
    requires (e.MessageReceived? && e.msg.MTopUp? && Honored(e.peer, basis, after, e.msg.topup, now)) || Ordinary(e.peer, basis, after, now)
    ensures Remains(n, Install(Course(n, []), e.peer, after), e.peer, now)
  {
    hide Accounted, Distinct;
    var c := Install(Course(n, []), e.peer, after);
    assert c.out == after.out;
    if Ordinary(e.peer, basis, after, now) {
      assert Drawn(t.s.grant, after.s.grant);
      assert SavesOnly(c.out, e.peer, NO_BUDGET, false);
      if !NothingSaved(c.out, e.peer) {
        var b: Budget :| SaveBudget(e.peer, b) in c.out;
        assert !after.s.grant.IsLive(now);
      }
    } else {
      assert SavesOnly(c.out, e.peer, after.s.grant.BudgetAt(now), true);
    }
  }

  // ------------------------------------------------------------------------
  // Leaving
  // ------------------------------------------------------------------------

  lemma DiscardSavesNone(peer: PubKey, t: Turn)
    requires Distinct(t.s.grant.channels)
    ensures forall q: PubKey, b: Budget :: SaveBudget(q, b) in Discard(peer, t).out <==> SaveBudget(q, b) in t.out
    ensures Discard(peer, t).s == t.s.(grant := t.s.grant.(channels := Discard(peer, t).s.grant.channels))
  {
    SettleEachAccounts(peer, t.s.grant.channels, Ids(t.s.grant.channels));
    hide SettleEach;
  }

  lemma LetGoSaves(peer: PubKey, s: PeerSession, now: Millis)
    requires Sound(s)
    ensures forall q: PubKey, b: Budget :: SaveBudget(q, b) in LetGo(peer, s, now) <==>
      !s.policy.noCharge && q == peer && b == s.grant.BudgetAt(now)
  {
    DiscardSavesNone(peer, Save(peer, Turn(s, 0, []), now));
    hide Discard;
  }

  /** A live session parked, or let go of if there is no grace. */
  lemma ParkingSaves(c: Course, peer: PubKey, now: Millis)
    requires NodeSound(c.n) && peer in c.n.peers && Charged(c.n, peer)
    ensures var c', g := ParkPeer(c, peer, now), c.n.peers[peer].grant.EndReservation();
      && peer !in c'.n.peers
      && (peer in c'.n.parked ==> c'.n.parked[peer].session.grant == g)
      && (forall q: PubKey, b: Budget :: SaveBudget(q, b) in c'.out <==>
            SaveBudget(q, b) in c.out || (q == peer && b == g.BudgetAt(now)))
  {
    var s := c.n.peers[peer];
    EndReservationRests(s);
    DiscardSavesNone(peer, Park(peer, Turn(s, c.n.nextRequest, []), now));
    hide Discard, Grant.EndReservation;
  }

  lemma BudgetAtIsStable(g: Grant, now: Millis)
    ensures g.BudgetAt(now).At(now) == g.BudgetAt(now)
  {
  }

  lemma DisconnectAccounts(n: Node, peer: PubKey, p: PubKey, now: Millis)
    requires NodeSound(n) && Charged(n, p)
    ensures Accounts(n, Disconnect(n, peer, now), p, now)
  {
    var c := Disconnect(n, peer, now);
    if peer !in n.peers {
      UntouchedAccounts(n, c, p, now);
    } else if n.peers[peer].phase.Closing? {
      LetGoSaves(peer, n.peers[peer], now);
      hide LetGo;
      if peer == p {
        assert SavesOnly(c.out, p, n.peers[p].grant.BudgetAt(now), true);
      } else {
        UntouchedAccounts(n, c, p, now);
      }
    } else {
      DisconnectParks(n, peer, p, now);
    }
  }

  lemma DisconnectParks(n: Node, peer: PubKey, p: PubKey, now: Millis)
    requires NodeSound(n) && Charged(n, p) && peer in n.peers
    ensures Accounts(n, ParkPeer(Course(n, []), peer, now), p, now)
  {
    var c := ParkPeer(Course(n, []), peer, now);
    if peer == p {
      ParkingSaves(Course(n, []), peer, now);
      BudgetAtIsStable(n.peers[p].grant.EndReservation(), now);
      hide ParkPeer, Grant.EndReservation, Grant.BudgetAt;
      assert SavesOnly(c.out, p, n.peers[p].grant.EndReservation().BudgetAt(now), true);
    } else {
      ParkingAside(Course(n, []), peer, p, now);
      UntouchedAccounts(n, c, p, now);
    }
  }

  lemma ParkingAside(c: Course, peer: PubKey, p: PubKey, now: Millis)
    requires NodeSound(c.n) && peer in c.n.peers && p != peer
    ensures Untouched(c, ParkPeer(c, peer, now), p)
  {
    var s := c.n.peers[peer];
    EndReservationRests(s);
    DiscardSavesNone(peer, Park(peer, Turn(s, c.n.nextRequest, []), now));
    hide Discard, Grant.EndReservation;
  }

  lemma ForgetAccounts(n: Node, peer: PubKey, p: PubKey, now: Millis)
    requires NodeSound(n) && Charged(n, p)
    ensures Accounts(n, Forget(n, peer, now), p, now)
  {
    var c := Forget(n, peer, now);
    if peer in n.peers {
      LetGoSaves(peer, n.peers[peer], now);
    }
    if peer in n.parked {
      LetGoSaves(peer, n.parked[peer].session, now);
    }
    hide LetGo;
    if peer != p {
      UntouchedAccounts(n, c, p, now);
    } else if p in n.peers {
      assert SavesOnly(c.out, p, n.peers[p].grant.BudgetAt(now), true);
    }
  }

  // ------------------------------------------------------------------------
  // Ticks
  // ------------------------------------------------------------------------

  lemma TickingOneTouchesNoOther(c: Course, peer: PubKey, p: PubKey, now: Millis)
    requires NodeSound(c.n) && p != peer
    ensures Untouched(c, TickPeer(c, peer, now), p)
  {
    hide OnTick, Accounted, Drawn, ParkPeer;
    if peer in c.n.peers {
      assert Sound(c.n.peers[peer]);
      if Stale(c.n.cfg, c.n.peers[peer], now) {
        ParkingAside(c, peer, p, now);
      } else {
        OnTickIsOrdinary(c.n.cfg, peer, Enter(c.n, peer), now);
      }
    }
  }

  lemma TickingOneAccounts(n: Node, c: Course, p: PubKey, now: Millis)
    requires NodeSound(n) && NodeSound(c.n) && Charged(n, p) && Untouched(Course(n, []), c, p)
    ensures Accounts(n, TickPeer(c, p, now), p, now)
  {
    var c' := TickPeer(c, p, now);
    if p !in c.n.peers {
      UntouchedAccounts(n, c, p, now);
    } else if Stale(c.n.cfg, c.n.peers[p], now) {
      ParkingSaves(c, p, now);
      BudgetAtIsStable(n.peers[p].grant.EndReservation(), now);
      hide ParkPeer, Grant.EndReservation, Grant.BudgetAt;
      assert SavesOnly(c'.out, p, n.peers[p].grant.EndReservation().BudgetAt(now), true);
    } else {
      var t := OnTick(c.n.cfg, p, Enter(c.n, p), now);
      OnTickIsOrdinary(c.n.cfg, p, Enter(c.n, p), now);
      hide OnTick, Accounted;
      assert c'.n.peers[p] == t.s && c'.out == c.out + t.out;
      assert Sound(n.peers[p]) && Drawn(n.peers[p].grant, t.s.grant);
      assert forall b: Budget :: SaveBudget(p, b) in c'.out ==> b == NO_BUDGET && !t.s.grant.IsLive(now);
    }
  }

  lemma {:induction false} TickingTouchesNoOther(c: Course, order: seq<PubKey>, p: PubKey, now: Millis)
    requires NodeSound(c.n) && p !in order
    ensures Untouched(c, TickPeers(c, order, now), p)
    decreases |order|
  {
    if order != [] {
      var d := TickPeer(c, order[0], now);
      TickingOneTouchesNoOther(c, order[0], p, now);
      TickPeerCarries(c, order[0], now);
      CarriesIsSound(c, d);
      hide TickPeer, NodeSound, Carries;
      TickingTouchesNoOther(d, order[1..], p, now);
      hide Untouched;
      UntouchedThen(c, d, TickPeers(d, order[1..], now), p);
    }
  }

  lemma {:induction false} TickingAccounts(n: Node, c: Course, order: seq<PubKey>, p: PubKey, now: Millis)
    requires NodeSound(n) && NodeSound(c.n) && Charged(n, p) && Untouched(Course(n, []), c, p)
    requires forall i, j :: 0 <= i < j < |order| ==> order[i] != order[j]
    ensures Accounts(n, TickPeers(c, order, now), p, now)
    decreases |order|
  {
    if order == [] {
      UntouchedAccounts(n, c, p, now);
    } else {
      var d := TickPeer(c, order[0], now);
      TickPeerCarries(c, order[0], now);
      CarriesIsSound(c, d);
      assert order[0] !in order[1..];
      if order[0] == p {
        TickingOneAccounts(n, c, p, now);
        hide TickPeer, NodeSound, Carries, Accounts, Untouched;
        TickingTouchesNoOther(d, order[1..], p, now);
        AccountsThenUntouched(n, d, TickPeers(d, order[1..], now), p, now);
      } else {
        TickingOneTouchesNoOther(c, order[0], p, now);
        hide TickPeer, NodeSound, Carries, Accounts, Untouched;
        UntouchedThen(Course(n, []), c, d, p);
        TickingAccounts(n, d, order[1..], p, now);
      }
    }
  }

  lemma {:induction false} ParkedAreUntouched(c: Course, order: seq<PubKey>, p: PubKey, now: Millis)
    requires NodeSound(c.n)
    ensures Untouched(c, ExpireAllParked(c, order, now), p)
    decreases |order|
  {
    if order != [] {
      var d := ExpireParked(c, order[0], now);
      ExpireParkedCarries(c, order[0], now);
      CarriesIsSound(c, d);
      if order[0] in c.n.parked {
        DiscardSavesNone(order[0], Turn(c.n.parked[order[0]].session, 0, []));
      }
      assert Untouched(c, d, p) by { hide Discard; }
      hide ExpireParked, NodeSound, Carries, Untouched;
      ParkedAreUntouched(d, order[1..], p, now);
      UntouchedThen(c, d, ExpireAllParked(d, order[1..], now), p);
    }
  }

  lemma SettlingSavesNone(cfg: Config, peer: PubKey, s: PeerSession, now: Millis)
    requires Sound(s)
    ensures var t := SettleExpiring(cfg, peer, Turn(s, 0, []), now);
      Worth(t.s.grant) == Worth(s.grant) && forall a :: a in t.out ==> a.SettleChannel?
  {
    SettleEachAccounts(peer, s.grant.channels, ExpiringIds(s.grant.channels, now, cfg.node.SettleLeadMs()));
    hide SettleEach, ExpiringIds;
  }

  lemma SettlingOneTouchesNone(c: Course, peer: PubKey, p: PubKey, now: Millis)
    requires NodeSound(c.n)
    ensures Untouched(c, SettleParked(c, peer, now), p)
  {
    if peer in c.n.parked {
      SettlingSavesNone(c.n.cfg, peer, c.n.parked[peer].session, now);
    }
    hide SettleExpiring, Worth;
  }

  lemma {:induction false} SettledAreUntouched(c: Course, order: seq<PubKey>, p: PubKey, now: Millis)
    requires NodeSound(c.n)
    ensures Untouched(c, SettleAllParked(c, order, now), p)
    decreases |order|
  {
    if order != [] {
      var d := SettleParked(c, order[0], now);
      SettleParkedCarries(c, order[0], now);
      CarriesIsSound(c, d);
      SettlingOneTouchesNone(c, order[0], p, now);
      hide SettleParked, NodeSound, Carries, Untouched;
      SettledAreUntouched(d, order[1..], p, now);
      UntouchedThen(c, d, SettleAllParked(d, order[1..], now), p);
    }
  }

  lemma {:induction false} KeptAliveAreUntouched(c: Course, order: seq<PubKey>, p: PubKey, now: Millis)
    ensures Untouched(c, KeepAllAlive(c, order, now), p)
    decreases |order|
  {
    if order != [] {
      var d := KeepAlive(c, order[0], now);
      assert Untouched(c, d, p);
      hide KeepAlive, Untouched;
      KeptAliveAreUntouched(d, order[1..], p, now);
      UntouchedThen(c, d, KeepAllAlive(d, order[1..], now), p);
    }
  }

  lemma TickAccounts(n: Node, order: seq<PubKey>, p: PubKey, now: Millis)
    requires NodeSound(n) && Visits(order, n) && Charged(n, p)
    ensures Accounts(n, Ticked(n, order, now), p, now)
  {
    var start := Course(n, []);
    var ticked := TickPeers(start, order, now);
    var expired := ExpireAllParked(ticked, order, now);
    var settled := SettleAllParked(expired, order, now);
    var noted := NoteSent(settled, now);
    hide NodeSound, Carries, TickPeers, ExpireAllParked, SettleAllParked, NoteSent, KeepAllAlive;
    TickPeersCarry(start, order, now);
    CarriesIsSound(start, ticked);
    TickingAccounts(n, start, order, p, now);
    hide Accounts, Untouched;
    ExpireAllParkedCarries(ticked, order, now);
    CarriesIsSound(ticked, expired);
    ParkedAreUntouched(ticked, order, p, now);
    AccountsThenUntouched(n, ticked, expired, p, now);
    SettledAreUntouched(expired, order, p, now);
    AccountsThenUntouched(n, expired, settled, p, now);
    NotingTouchesNone(settled, p, now);
    AccountsThenUntouched(n, settled, noted, p, now);
    KeptAliveAreUntouched(noted, order, p, now);
    AccountsThenUntouched(n, noted, KeepAllAlive(noted, order, now), p, now);
  }

  // ------------------------------------------------------------------------
  // Winding down
  // ------------------------------------------------------------------------

  lemma WindingDownOneSaves(c: Course, peer: PubKey, now: Millis)
    requires NodeSound(c.n) && peer in c.n.peers
    ensures var c' := WindDownPeer(c, peer, now);
      && c'.n.peers.Keys == c.n.peers.Keys && c'.n.parked == c.n.parked
      && (forall q :: q in c.n.peers && q != peer ==> c'.n.peers[q] == c.n.peers[q])
      && c'.n.peers[peer].policy == c.n.peers[peer].policy && c'.n.peers[peer].grant.Valid()
      && Worth(c'.n.peers[peer].grant) == Worth(c.n.peers[peer].grant)
      && forall q: PubKey, b: Budget :: SaveBudget(q, b) in c'.out <==>
           (SaveBudget(q, b) in c.out || (!c.n.peers[peer].policy.noCharge && q == peer && b == c.n.peers[peer].grant.BudgetAt(now)))
  {
    var saved := Save(peer, Close(Enter(c.n, peer)), now);
    DiscardSavesNone(peer, saved);
    assert Sound(c.n.peers[peer]);
    hide Discard;
  }

  lemma {:induction false} WindingDownTouchesNoOther(c: Course, order: seq<PubKey>, p: PubKey, now: Millis)
    requires NodeSound(c.n) && p !in order
    ensures Untouched(c, WindDownPeers(c, order, now), p)
    decreases |order|
  {
    if order != [] {
      var d := WindDownPeer(c, order[0], now);
      if order[0] in c.n.peers {
        WindingDownOneSaves(c, order[0], now);
      }
      assert Untouched(c, d, p) by { hide WindDownPeer; }
      WindDownPeerCarries(c, order[0], now);
      CarriesIsSound(c, d);
      hide WindDownPeer, NodeSound, Carries, Untouched;
      WindingDownTouchesNoOther(d, order[1..], p, now);
      UntouchedThen(c, d, WindDownPeers(d, order[1..], now), p);
    }
  }

  lemma {:induction false} WindingDownAccounts(n: Node, c: Course, order: seq<PubKey>, p: PubKey, now: Millis)
    requires NodeSound(n) && NodeSound(c.n) && Charged(n, p) && Untouched(Course(n, []), c, p)
    requires forall i, j :: 0 <= i < j < |order| ==> order[i] != order[j]
    ensures Accounts(n, WindDownPeers(c, order, now), p, now)
    decreases |order|
  {
    if order == [] {
      UntouchedAccounts(n, c, p, now);
    } else {
      var d := WindDownPeer(c, order[0], now);
      WindDownPeerCarries(c, order[0], now);
      CarriesIsSound(c, d);
      assert order[0] !in order[1..];
      if order[0] == p && p in c.n.peers {
        WindingDownOneSaves(c, p, now);
        hide WindDownPeer;
        assert SavesOnly(d.out, p, d.n.peers[p].grant.BudgetAt(now), true);
        assert Remains(n, d, p, now);
        hide NodeSound, Carries, Accounts, Untouched;
        WindingDownTouchesNoOther(d, order[1..], p, now);
        AccountsThenUntouched(n, d, WindDownPeers(d, order[1..], now), p, now);
      } else {
        if order[0] in c.n.peers {
          WindingDownOneSaves(c, order[0], now);
        }
        assert Untouched(c, d, p) by { hide WindDownPeer; }
        hide WindDownPeer, NodeSound, Carries, Accounts, Untouched;
        UntouchedThen(Course(n, []), c, d, p);
        WindingDownAccounts(n, d, order[1..], p, now);
      }
    }
  }

  /** Winding down what is parked, on top of whatever came before. */
  lemma {:induction false} WindingDownParkedAccounts(n: Node, c: Course, order: seq<PubKey>, p: PubKey, now: Millis)
    requires NodeSound(n) && NodeSound(c.n) && Charged(n, p) && Accounts(n, c, p, now)
    requires p in c.n.parked ==> p in n.parked && p !in n.peers && c.n.parked[p].session == n.parked[p].session && NothingSaved(c.out, p)
    ensures Accounts(n, WindDownAllParked(c, order, now), p, now)
    decreases |order|
  {
    if order != [] {
      var q := order[0];
      var d := WindDownParked(c, q, now);
      if q in c.n.parked {
        LetGoSaves(q, c.n.parked[q].session, now);
        LetGoAccounts(q, c.n.parked[q].session, now);
      }
      assert NodeSound(d.n) && (q != p || p !in c.n.parked ==> Untouched(c, d, p)) by { hide LetGo; }
      if q == p && p in c.n.parked {
        assert Accounts(n, d, p, now) by {
          hide LetGo;
          assert p !in c.n.peers;
          assert StaysAway(n, d, p, now);
        }
      } else {
        AccountsThenUntouched(n, c, d, p, now);
        assert p in d.n.parked ==> p in c.n.parked && d.n.parked[p] == c.n.parked[p];
        assert p in d.n.parked ==> NothingSaved(d.out, p);
      }
      hide WindDownParked, NodeSound, Accounts;
      WindingDownParkedAccounts(n, d, order[1..], p, now);
    }
  }

  lemma ShutDownAccounts(n: Node, order: seq<PubKey>, p: PubKey, now: Millis)
    requires NodeSound(n) && Visits(order, n) && Charged(n, p)
    ensures Accounts(n, WindDownAllParked(WindDownPeers(Course(n, []), order, now), order, now), p, now)
  {
    var start := Course(n, []);
    var c := WindDownPeers(start, order, now);
    WindDownPeersCarry(start, order, now);
    CarriesIsSound(start, c);
    WindingDownAccounts(n, start, order, p, now);
    WindingDownLeavesParked(start, order, now);
    assert p in c.n.parked ==> p !in n.peers && NothingSaved(c.out, p) by {
      if p in n.parked {
        WindingDownStrangers(start, order, p, now);
      }
      hide WindDownPeers;
    }
    hide NodeSound, Accounts, WindDownPeers;
    WindingDownParkedAccounts(n, c, order, p, now);
  }

  lemma {:induction false} WindingDownLeavesParked(c: Course, order: seq<PubKey>, now: Millis)
    ensures WindDownPeers(c, order, now).n.parked == c.n.parked
    decreases |order|
  {
    if order != [] {
      assert WindDownPeer(c, order[0], now).n.parked == c.n.parked by { hide Discard; }
      hide WindDownPeer;
      WindingDownLeavesParked(WindDownPeer(c, order[0], now), order[1..], now);
    }
  }

  lemma {:induction false} WindingDownStrangers(c: Course, order: seq<PubKey>, p: PubKey, now: Millis)
    requires NodeSound(c.n) && p !in c.n.peers
    ensures Untouched(c, WindDownPeers(c, order, now), p)
    decreases |order|
  {
    if order != [] {
      var d := WindDownPeer(c, order[0], now);
      if order[0] in c.n.peers {
        WindingDownOneSaves(c, order[0], now);
      }
      assert Untouched(c, d, p) by { hide WindDownPeer; }
      WindDownPeerCarries(c, order[0], now);
      CarriesIsSound(c, d);
      assert p !in d.n.peers;
      hide WindDownPeer, NodeSound, Carries, Untouched;
      WindingDownStrangers(d, order[1..], p, now);
      UntouchedThen(c, d, WindDownPeers(d, order[1..], now), p);
    }
  }
}
