/**
  Budgets outlive a crash. The host keeps the last budget it was asked to save for each payer, and
  hands it back when that payer connects. For a payer charged throughout, that record always covers
  the budget the payer holds, and differs from it by exactly what was drawn since it was saved.
 */
module NodeBudgets {
  import opened Numbers
  import opened Wrappers
  import opened Wire
  import opened Grants
  import opened Buyers
  import opened Sessions
  import opened SessionFrames
  import opened Nodes
  import opened NodeFrames
  import opened NodeEarnings
  import NodeCapacity
  import opened BudgetRecords

  // ------------------------------------------------------------------------
  // Connecting
  // ------------------------------------------------------------------------

  /** What a budget handed over on connecting is worth. */
  function Handed(budget: Option<Budget>, now: Millis): Budget {
    if budget.Some? then budget.value.At(now) else NO_BUDGET
  }

  lemma GreetSavesNone(cfg: Config, peer: PubKey, policy: PeerPolicy, t: Turn, now: Millis)
    requires t.s.policy == policy
    ensures forall q: PubKey, b: Budget :: SaveBudget(q, b) in Greet(cfg, peer, policy, t, now).out <==> SaveBudget(q, b) in t.out
    ensures Greet(cfg, peer, policy, t, now).s.policy == policy
  {
    ReadiesAreSent(peer, Ids(t.s.grant.channels));
    hide Readies, BalanceOf, OfferFor, RateOf, Ids;
  }

  /** What a connection starts with: nothing reserved or drawn, and what was kept or handed over. */
  lemma BeginBudget(cfg: Config, peer: PubKey, policy: PeerPolicy, kept: Option<PeerSession>, budget: Option<Budget>, now: Millis, next: u64)
    requires kept.Some? ==> Sound(kept.value)
    ensures var t := Begin(cfg, peer, policy, kept, budget, now, next);
      && (forall q: PubKey, b: Budget :: SaveBudget(q, b) !in t.out)
      && t.s.policy == policy && t.s.grant.Valid()
      && Worth(t.s.grant) == if kept.Some? then kept.value.grant.Pause().BudgetAt(now) else Handed(budget, now)
  {
    if kept.Some? {
      var resumed := Turn(kept.value.Resume(policy, now), next, []);
      RestartIsSound(kept.value.grant, now);
      PauseIsDrawn(kept.value.grant);
      assert Worth(resumed.s.grant) == kept.value.grant.Pause().BudgetAt(now) by { hide Grant.Pause; }
      hide Grant.Restart, Buyer.Restart, Grant.Pause;
      SettleEachAccounts(peer, resumed.s.grant.channels, ExpiringIds(resumed.s.grant.channels, now, cfg.node.SettleLeadMs()));
      hide SettleEach, ExpiringIds;
    }
  }

  /** The session a connection puts in place, and what it has the host save. */
  lemma ConnectBudget(n: Node, p: PubKey, budget: Option<Budget>, now: Millis)
    requires NodeSound(n) && !PolicyFor(n, p).blocked
    ensures var c, kept, ending := Connect(n, p, budget, now), Kept(n, p, now).0, p in n.peers && n.peers[p].phase.Closing?;
      && p in c.n.peers && p !in c.n.parked && c.n.overrides == n.overrides
      && c.n.peers[p].policy == PolicyFor(n, p) && c.n.peers[p].grant.Valid()
      && Worth(c.n.peers[p].grant) == (if kept.Some? then kept.value.grant.Pause().BudgetAt(now) else Handed(budget, now))
      && forall q: PubKey, b: Budget :: SaveBudget(q, b) in c.out <==>
           ending && q == p && !n.peers[p].policy.noCharge && b == n.peers[p].grant.BudgetAt(now)
  {
    hide Kept, Begin, Greet, Grant.Pause, Grant.BudgetAt, Budget.At, NodeSound, Held, Settled;
    var policy := PolicyFor(n, p);
    var (kept, ended) := Kept(n, p, now);
    var begun := Begin(n.cfg, p, policy, kept, budget, now, n.nextRequest);
    KeptAccounts(n, p, now);
    BeginBudget(n.cfg, p, policy, kept, budget, now, n.nextRequest);
    GreetLeavesGrant(n.cfg, p, policy, begun, now);
    GreetSavesNone(n.cfg, p, policy, begun, now);
    EndedSaves(n, p, now);
    NotParkedLive(n, p);
    assert Connect(n, p, budget, now) == Install(Course(Cleared(n, p), ended), p, Greet(n.cfg, p, policy, begun, now));
    hide Connect;
  }

  lemma NotParkedLive(n: Node, p: PubKey)
    requires NodeSound(n)
    ensures p !in Cleared(n, p).parked
  {
  }

  lemma EndedSaves(n: Node, p: PubKey, now: Millis)
    requires NodeSound(n)
    ensures forall q: PubKey, b: Budget :: SaveBudget(q, b) in Kept(n, p, now).1 <==>
      p in n.peers && n.peers[p].phase.Closing? && q == p && !n.peers[p].policy.noCharge && b == n.peers[p].grant.BudgetAt(now)
  {
    if p in n.peers {
      LetGoSaves(p, n.peers[p], now);
    } else if p in n.parked {
      DiscardSavesNone(p, Turn(n.parked[p].session, 0, []));
    }
    hide LetGo, Discard, Grant.BudgetAt;
  }

  lemma ConnectingTouchesNoOther(n: Node, peer: PubKey, budget: Option<Budget>, p: PubKey, now: Millis)
    requires NodeSound(n) && (p != peer || PolicyFor(n, peer).blocked)
    ensures Untouched(Course(n, []), Connect(n, peer, budget, now), p)
  {
    if !PolicyFor(n, peer).blocked {
      ConnectBudget(n, peer, budget, now);
      hide Kept, Begin, Greet, Worth;
    }
  }

  /**
    A connection begins a budget the record covers, whatever was held before it, but for one case: a
    session that was ending is saved as it stands, after the host has looked up the record it hands
    over, so the new one is covered exactly when that record had nothing drawn from it since.
   */
  lemma ConnectCoversIff(l: Ledger, n: Node, p: PubKey, budget: Option<Budget>, now: Millis)
    requires NodeSound(n) && Covers(l, n, p, now) && !PolicyFor(n, p).blocked && Handed(budget, now) == l.saved.At(now)
    ensures var c := Step(n, PeerConnected(p, budget), now);
      Covers(Entered(l, n, PeerConnected(p, budget), c, p), c.n, p, now) <==>
        (p in n.peers && n.peers[p].phase.Closing? ==> l.saved.At(now) == n.peers[p].grant.BudgetAt(now))
  {
    hide Connect, LastSaved, Entered, Grant.Pause, Covered, Kept, NodeSound;
    var c := Step(n, PeerConnected(p, budget), now);
    ConnectBudget(n, p, budget, now);
    ConnectEntered(l, n, p, budget, now);
    var g' := c.n.peers[p].grant;
    assert Worth(g') == Worth(Connect(n, p, budget, now).n.peers[p].grant);
    KeptCases(n, p, now);
    if p in n.peers {
      var g := n.peers[p].grant;
      if n.peers[p].phase.Closing? {
        CoveredFromRecord(l, g, g', now);
      } else {
        PauseIsDrawn(g);
        CoveredAfterPause(l, g, g.Pause(), g', now);
      }
    } else {
      CoveredAgain(l, g', now);
    }
  }

  /** What a connection carries on with: a live session, or one parked, at rest. */
  lemma KeptCases(n: Node, p: PubKey, now: Millis)
    requires NodeSound(n)
    ensures var kept := Kept(n, p, now).0;
      && (p in n.peers ==> n.peers[p].grant.Valid())
      && (p in n.peers ==> kept == if n.peers[p].phase.Closing? then None else Some(n.peers[p]))
      && (p !in n.peers && kept.Some? ==> p in n.parked && kept.value == n.parked[p].session)
      && (p !in n.peers && kept.Some? ==> kept.value.grant.Pause() == kept.value.grant)
  {
    hide LetGo, Discard;
    if p in n.peers {
      assert Sound(n.peers[p]);
    } else if p in n.parked {
      assert Resting(n.parked[p].session);
    }
  }

  /** A session begun with just what the record is worth, nothing drawn from it yet. */
  lemma CoveredAgain(l: Ledger, g: Grant, now: Millis)
    requires Worth(g) == l.saved.At(now) && l.drawn == 0
    ensures Covered(l, g, now)
  {
  }

  lemma ConnectEntered(l: Ledger, n: Node, p: PubKey, budget: Option<Budget>, now: Millis)
    requires NodeSound(n) && !PolicyFor(n, p).blocked && (p in n.peers ==> !n.peers[p].policy.noCharge)
    ensures Entered(l, n, PeerConnected(p, budget), NoteSent(Connect(n, p, budget, now), now), p) ==
      if p !in n.peers then l
      else if n.peers[p].phase.Closing? then Ledger(n.peers[p].grant.BudgetAt(now), 0)
      else Ledger(l.saved, l.drawn + n.peers[p].grant.Pause().consumed - n.peers[p].grant.consumed)
  {
    var noted := NoteSent(Connect(n, p, budget, now), now);
    ConnectBudget(n, p, budget, now);
    LastSavedIsSaved(noted.out, p);
    hide Connect, LastSaved, Grant.Pause, Grant.BudgetAt, Kept, NodeSound;
    if p in n.peers && n.peers[p].phase.Closing? {
      OnlySaved(noted.out, p, n.peers[p].grant.BudgetAt(now), true);
    }
  }

  /** A session started from the record, beside one that ended with budget `g`. */
  lemma CoveredFromRecord(l: Ledger, g: Grant, g': Grant, now: Millis)
    requires Worth(g') == l.saved.At(now)
    ensures Covered(Ledger(g.BudgetAt(now), 0), g', now) <==> l.saved.At(now) == g.BudgetAt(now)
  {
  }

  /** A live session that starts over, its open second closed. */
  lemma CoveredAfterPause(l: Ledger, g: Grant, paused: Grant, g': Grant, now: Millis)
    requires g.Valid() && Covered(l, g, now) && Drawn(g, paused) && Worth(g') == paused.BudgetAt(now)
    ensures Covered(Ledger(l.saved, l.drawn + paused.consumed - g.consumed), g', now)
  {
  }

  /**
    Coming back within the grace, to the session that was parked, and coming back after it, from
    nothing but the host's record, give the same budget.
   */
  lemma SameBudgetEitherWay(l: Ledger, n: Node, p: PubKey, budget: Option<Budget>, now: Millis)
    requires NodeSound(n) && Covers(l, n, p, now) && p !in n.peers && !PolicyFor(n, p).blocked
    requires Handed(budget, now) == l.saved.At(now)
    ensures var g := Connect(n, p, budget, now).n.peers[p].grant;
      && g.BudgetAt(now) == l.saved.At(now)
      && (p in n.parked && SatSub(now, n.parked[p].since) <= n.cfg.node.staleTimeoutMs ==>
            Kept(n, p, now).0 == Some(n.parked[p].session) && g.BudgetAt(now) == n.parked[p].session.grant.BudgetAt(now))
  {
    ConnectBudget(n, p, budget, now);
    if p in n.parked {
      assert Resting(n.parked[p].session);
    }
    hide Connect;
  }

  /** A node that starts again after a crash gives a payer back what it held, and what was drawn since it was last saved. */
  lemma CrashGivesBack(l: Ledger, n: Node, p: PubKey, now: Millis)
    requires NodeSound(n) && Covers(l, n, p, now) && p in n.peers && n.peers[p].grant.IsLive(now)
    ensures Connect(NewNode(n.cfg), p, Some(l.saved), now).n.peers[p].grant.Remaining()
      == n.peers[p].grant.Remaining() + l.drawn
  {
    ConnectBudget(NewNode(n.cfg), p, Some(l.saved), now);
    hide Connect;
  }

  // ------------------------------------------------------------------------
  // Every event, over every run
  // ------------------------------------------------------------------------

  /** The host hands the record back, never over an ending session with more drawn; the payer stays charged. */
  ghost predicate HostKeeps(l: Ledger, n: Node, e: Event, p: PubKey, now: Millis) {
    && Possible(n, e)
    && (e.PeerPolicySet? && e.peer == p ==> !e.policy.noCharge)
    && (e.PeerConnected? && e.peer == p ==>
          (&& Handed(e.budget, now) == l.saved.At(now)
           && (p in n.peers && n.peers[p].phase.Closing? ==> l.saved.At(now) == n.peers[p].grant.BudgetAt(now))))
  }

  lemma OtherEventsAccount(l: Ledger, n: Node, e: Event, p: PubKey, now: Millis)
    requires NodeSound(n) && Covers(l, n, p, now) && HostKeeps(l, n, e, p, now)
    requires !(e.PeerConnected? && e.peer == p && !PolicyFor(n, p).blocked)
    ensures Accounts(n, Step(n, e, now), p, now)
  {
    hide NodeSound, Accounts, NoteSent, OnPeer, Connect, Disconnect, Forget, Ticked, WindDownPeers, WindDownAllParked, Untouched;
    match e
    case PeerConnected(peer, budget) =>
      ConnectingTouchesNoOther(n, peer, budget, p, now);
      UntouchedAccounts(n, Connect(n, peer, budget, now), p, now);
      NotingAccounts(n, Connect(n, peer, budget, now), p, now);
    case PeerDisconnected(peer) =>
      DisconnectAccounts(n, peer, p, now);
      NotingAccounts(n, Disconnect(n, peer, now), p, now);
    case Tick(order) => TickAccounts(n, order, p, now);
    case Forgotten(peer) => ForgetAccounts(n, peer, p, now);
    case ShutDown(order) => ShutDownAccounts(n, order, p, now);
    case BuyerPolicySet(buying) =>
      assert Untouched(Course(n, []), Step(n, e, now), p) by { SameNodeUntouched(n, Step(n, e, now), p); }
      UntouchedAccounts(n, Step(n, e, now), p, now);
    case PeerPolicySet(peer, policy) =>
      var m := n.(overrides := n.overrides[peer := policy]);
      assert NodeSound(m) by { OverridesKeepSound(n, m); }
      EventAccounts(m, e, p, now);
      AccountsAs(n, m, OnPeer(m, peer, e, now), p, now);
      NotingAccounts(n, OnPeer(m, peer, e, now), p, now);
    case _ =>
      EventAccounts(n, e, p, now);
      NotingAccounts(n, OnPeer(n, e.peer, e, now), p, now);
  }

  lemma SameNodeUntouched(n: Node, c: Course, p: PubKey)
    requires c.n.peers == n.peers && c.n.parked == n.parked && c.out == []
    ensures Untouched(Course(n, []), c, p)
  {
  }

  lemma OverridesKeepSound(n: Node, m: Node)
    requires NodeSound(n) && m == n.(overrides := m.overrides)
    ensures NodeSound(m)
  {
  }

  lemma AccountsAs(n: Node, m: Node, c: Course, p: PubKey, now: Millis)
    requires m.peers == n.peers && m.parked == n.parked && Accounts(m, c, p, now)
    ensures Accounts(n, c, p, now)
  {
    if Leaves(m, c, p, now) {
      var b :| SavesOnly(c.out, p, b, true) && (p in c.n.parked ==> b.At(now) == c.n.parked[p].session.grant.BudgetAt(now));
      assert Leaves(n, c, p, now);
    }
  }

  lemma NotingAccounts(n: Node, c: Course, p: PubKey, now: Millis)
    requires Accounts(n, c, p, now)
    ensures Accounts(n, NoteSent(c, now), p, now)
  {
    NotingTouchesNone(c, p, now);
    AccountsThenUntouched(n, c, NoteSent(c, now), p, now);
  }

  lemma StepKeepsOverrides(n: Node, e: Event, p: PubKey, now: Millis)
    requires Possible(n, e) && !PolicyFor(n, p).noCharge && (e.PeerPolicySet? && e.peer == p ==> !e.policy.noCharge)
    ensures !PolicyFor(Step(n, e, now).n, p).noCharge
  {
    StepKeepsSettings(n, e, now);
    hide Step;
  }

  /** No event leaves a payer's budget uncovered by the record. */
  lemma StepKeepsCovers(l: Ledger, n: Node, e: Event, p: PubKey, now: Millis)
    requires NodeSound(n) && Covers(l, n, p, now) && HostKeeps(l, n, e, p, now)
    ensures var c := Step(n, e, now); Covers(Entered(l, n, e, c, p), c.n, p, now)
  {
    var c := Step(n, e, now);
    if e.PeerConnected? && e.peer == p && !PolicyFor(n, p).blocked {
      ConnectCoversIff(l, n, p, e.budget, now);
    } else {
      OtherEventsAccount(l, n, e, p, now);
      StepKeepsOverrides(n, e, p, now);
      hide Step;
      AccountsKeepsCovers(l, n, e, c, p, now);
    }
  }

  /** A run in which the host keeps one payer's record, and time does not go back. */
  ghost predicate WellKept(l: Ledger, n: Node, es: seq<(Event, Millis)>, p: PubKey, from: Millis)
    decreases |es|
  {
    es == [] ||
    var (e, now) := es[0];
    var c := Step(n, e, now);
    from <= now && HostKeeps(l, n, e, p, now) && WellKept(Entered(l, n, e, c, p), c.n, es[1..], p, now)
  }

  /** The record after a run, and what was drawn since it was last saved. */
  ghost function Recorded(l: Ledger, n: Node, es: seq<(Event, Millis)>, p: PubKey): Ledger
    decreases |es|
  {
    if es == [] then l
    else
      var c := Step(n, es[0].0, es[0].1);
      Recorded(Entered(l, n, es[0].0, c, p), c.n, es[1..], p)
  }

  function Ending(es: seq<(Event, Millis)>, from: Millis): Millis {
    if es == [] then from else es[|es| - 1].1
  }

  /** Over any run: a payer's budget is always covered, live or parked. */
  lemma {:induction false} RecordCoversForever(l: Ledger, n: Node, es: seq<(Event, Millis)>, p: PubKey, from: Millis)
    requires NodeSound(n) && Covers(l, n, p, from) && WellKept(l, n, es, p, from)
    ensures Covers(Recorded(l, n, es, p), NodeCapacity.Run(n, es), p, Ending(es, from)) && NodeSound(NodeCapacity.Run(n, es))
    decreases |es|
  {
    hide Step, NodeSound, Covers, HostKeeps, NoneDropped, Entered;
    if es != [] {
      var (e, now) := es[0];
      HostIsPossible(l, n, e, p, now);
      TimePasses(l, n, p, from, now);
      StepKeepsCovers(l, n, e, p, now);
      NoEarningsDropped(n, e, now);
      RecordCoversForever(Entered(l, n, e, Step(n, e, now), p), Step(n, e, now).n, es[1..], p, now);
      assert Ending(es, from) == Ending(es[1..], now);
    }
  }

  lemma HostIsPossible(l: Ledger, n: Node, e: Event, p: PubKey, now: Millis)
    requires HostKeeps(l, n, e, p, now)
    ensures Possible(n, e)
  {
  }

  lemma NewNodeCovers(cfg: Config, p: PubKey, now: Millis)
    ensures NodeSound(NewNode(cfg)) && Covers(Ledger(NO_BUDGET, 0), NewNode(cfg), p, now)
  {
  }

  /** So from a node with no one, and nothing on record. */
  lemma RecordCoversFromTheStart(cfg: Config, es: seq<(Event, Millis)>, p: PubKey, start: Millis)
    requires WellKept(Ledger(NO_BUDGET, 0), NewNode(cfg), es, p, start)
    ensures Covers(Recorded(Ledger(NO_BUDGET, 0), NewNode(cfg), es, p), NodeCapacity.Run(NewNode(cfg), es), p, Ending(es, start))
  {
    NewNodeCovers(cfg, p, start);
    RecordCoversForever(Ledger(NO_BUDGET, 0), NewNode(cfg), es, p, start);
  }
}
