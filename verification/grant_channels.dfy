/** How the operations on a list of channels read through `Find`. */
module GrantChannels {
  import opened Wrappers
  import opened Wire
  import opened Numbers
  import opened Grants

  ghost predicate Distinct(cs: seq<IncomingChannel>) {
    forall i, j :: 0 <= i < j < |cs| ==> cs[i].id != cs[j].id
  }

  lemma DistinctTail(cs: seq<IncomingChannel>)
    requires cs != [] && Distinct(cs)
    ensures Distinct(cs[1..]) && Find(cs[1..], cs[0].id).None?
  {
  }

  lemma {:induction false} FindMember(cs: seq<IncomingChannel>, c: IncomingChannel)
    requires Distinct(cs) && c in cs
    ensures Find(cs, c.id) == Some(c)
  {
    if cs[0] != c {
      DistinctTail(cs);
      assert c in cs[1..];
      FindMember(cs[1..], c);
    }
  }

  lemma {:induction false} PutReads(cs: seq<IncomingChannel>, c: IncomingChannel, id: ChannelId)
    ensures Find(Put(cs, c), id) == if id == c.id && Find(cs, id).Some? then Some(c) else Find(cs, id)
    ensures Ids(Put(cs, c)) == Ids(cs)
  {
    if cs != [] && cs[0].id != c.id {
      PutReads(cs[1..], c, id);
    }
  }

  lemma {:induction false} PutKeepsDistinct(cs: seq<IncomingChannel>, c: IncomingChannel)
    requires Distinct(cs)
    ensures Distinct(Put(cs, c)) && |Put(cs, c)| == |cs|
    ensures forall i :: 0 <= i < |cs| ==> Put(cs, c)[i].id == cs[i].id
  {
    if cs != [] && cs[0].id != c.id {
      PutKeepsDistinct(cs[1..], c);
    }
  }

  /** `i` is where the program's search for a channel stops. */
  ghost predicate FirstAt(cs: seq<IncomingChannel>, id: ChannelId, i: nat) {
    i <= |cs| && (i < |cs| ==> cs[i].id == id) && forall j :: 0 <= j < i ==> cs[j].id != id
  }

  lemma {:induction false} SearchAgrees(cs: seq<IncomingChannel>, id: ChannelId, i: nat)
    requires FirstAt(cs, id, i)
    ensures Find(cs, id) == if i < |cs| then Some(cs[i]) else None
    ensures Remove(cs, id) == if i < |cs| then cs[..i] + cs[i + 1..] else cs
  {
    if i > 0 {
      var rest := cs[1..];
      SearchAgrees(rest, id, i - 1);
      if i < |cs| {
        assert rest[i - 1] == cs[i] && [cs[0]] + (rest[..i - 1] + rest[i..]) == cs[..i] + cs[i + 1..];
      } else {
        assert [cs[0]] + rest == cs;
      }
    }
  }

  lemma {:induction false} UpdateAgrees(cs: seq<IncomingChannel>, c: IncomingChannel, i: nat)
    requires FirstAt(cs, c.id, i) && i < |cs|
    ensures Put(cs, c) == cs[i := c]
  {
    if i > 0 {
      UpdateAgrees(cs[1..], c, i - 1);
    }
  }

  lemma {:induction false} SearchStops(cs: seq<IncomingChannel>, id: ChannelId) returns (i: nat)
    ensures FirstAt(cs, id, i)
  {
    if cs == [] || cs[0].id == id {
      i := 0;
    } else {
      i := SearchStops(cs[1..], id);
      i := i + 1;
    }
  }

  lemma DropKeepsDistinct(cs: seq<IncomingChannel>, i: nat)
    requires Distinct(cs) && i < |cs|
    ensures Distinct(cs[..i] + cs[i + 1..])
  {
    var rest := cs[..i] + cs[i + 1..];
    assert forall j :: 0 <= j < |rest| ==> rest[j] == cs[if j < i then j else j + 1];
  }

  lemma DropMembers(cs: seq<IncomingChannel>, i: nat)
    requires Distinct(cs) && i < |cs|
    ensures forall c :: c in cs[..i] + cs[i + 1..] <==> c in cs && c.id != cs[i].id
  {
    assert cs == cs[..i] + [cs[i]] + cs[i + 1..];
    assert forall j :: 0 <= j < |cs| && j != i ==> cs[j].id != cs[i].id;
  }

  lemma RemoveKeepsDistinct(cs: seq<IncomingChannel>, gone: ChannelId)
    requires Distinct(cs)
    ensures Distinct(Remove(cs, gone))
    ensures forall c :: c in Remove(cs, gone) <==> c in cs && c.id != gone
  {
    var i := SearchStops(cs, gone);
    SearchAgrees(cs, gone, i);
    if i < |cs| {
      DropKeepsDistinct(cs, i);
      DropMembers(cs, i);
    }
    hide Distinct, Remove;
  }

  lemma {:induction false} RemoveReads(cs: seq<IncomingChannel>, gone: ChannelId, id: ChannelId)
    requires Distinct(cs)
    ensures Find(Remove(cs, gone), id) == if id == gone then None else Find(cs, id)
  {
    if cs != [] {
      DistinctTail(cs);
      if cs[0].id != gone {
        RemoveReads(cs[1..], gone, id);
      }
    }
  }

  lemma {:induction false} AppendReads(cs: seq<IncomingChannel>, c: IncomingChannel, id: ChannelId)
    ensures Find(cs + [c], id) == if Find(cs, id).Some? then Find(cs, id) else if c.id == id then Some(c) else None
  {
    if cs != [] {
      assert (cs + [c])[1..] == cs[1..] + [c];
      AppendReads(cs[1..], c, id);
    } else {
      assert cs + [c] == [c];
    }
  }

  // ------------------------------------------------------------------------
  // Totals
  /** A channel opened again has its new capacity and expiry, and what was signed and counted on it still. */
  lemma OpenedReads(g: Grant, id: ChannelId, capacity: u64, expiresAt: Option<Millis>, other: ChannelId)
    ensures var found, after := Find(g.channels, id), g.OpenChannel(id, capacity, expiresAt);
      && Find(after.channels, id) == Some(if found.Some? then found.value.(capacity := capacity, expiresAt := expiresAt)
                                          else IncomingChannel(id, capacity, 0, 0, expiresAt))
      && (other != id ==> Find(after.channels, other) == Find(g.channels, other))
      && after == g.(channels := after.channels)
  {
    var found := Find(g.channels, id);
    if found.Some? {
      var c := found.value.(capacity := capacity, expiresAt := expiresAt);
      PutReads(g.channels, c, id);
      PutReads(g.channels, c, other);
    } else {
      AppendReads(g.channels, IncomingChannel(id, capacity, 0, 0, expiresAt), id);
      AppendReads(g.channels, IncomingChannel(id, capacity, 0, 0, expiresAt), other);
    }
    hide Find, Put;
  }

  // ------------------------------------------------------------------------

  function SignedTotal(cs: seq<IncomingChannel>): nat {
    if cs == [] then 0 else cs[0].signed + SignedTotal(cs[1..])
  }

  lemma {:induction false} SignedTotalSplits(xs: seq<IncomingChannel>, ys: seq<IncomingChannel>)
    ensures SignedTotal(xs + ys) == SignedTotal(xs) + SignedTotal(ys)
  {
    if xs == [] {
      assert xs + ys == ys;
    } else {
      assert (xs + ys)[1..] == xs[1..] + ys;
      SignedTotalSplits(xs[1..], ys);
    }
  }

  lemma {:induction false} PutTotal(cs: seq<IncomingChannel>, c: IncomingChannel)
    requires Find(cs, c.id).Some?
    ensures SignedTotal(Put(cs, c)) == SignedTotal(cs) - Find(cs, c.id).value.signed + c.signed
  {
    if cs[0].id != c.id {
      PutTotal(cs[1..], c);
    }
  }

  lemma {:induction false} RemoveTotal(cs: seq<IncomingChannel>, id: ChannelId)
    ensures SignedTotal(Remove(cs, id)) == SignedTotal(cs) - (if Find(cs, id).Some? then Find(cs, id).value.signed else 0)
  {
    if cs != [] && cs[0].id != id {
      RemoveTotal(cs[1..], id);
    }
  }

  // ------------------------------------------------------------------------
  // Turning several ratchets at once
  // ------------------------------------------------------------------------

  ghost predicate NoRepeat(rs: seq<Ratchet>) {
    forall i, j :: 0 <= i < j < |rs| ==> rs[i].id != rs[j].id
  }

  /** What the ratchets add, each over what its own channel has signed. */
  function Rise(cs: seq<IncomingChannel>, rs: seq<Ratchet>): int {
    if rs == [] then 0
    else (if Find(cs, rs[0].id).Some? then rs[0].cumulative - Find(cs, rs[0].id).value.signed else 0) + Rise(cs, rs[1..])
  }

  lemma {:induction false} RiseUnaffected(cs: seq<IncomingChannel>, c: IncomingChannel, rs: seq<Ratchet>)
    requires forall r :: r in rs ==> r.id != c.id
    ensures Rise(Put(cs, c), rs) == Rise(cs, rs)
  {
    if rs != [] {
      PutReads(cs, c, rs[0].id);
      RiseUnaffected(cs, c, rs[1..]);
    }
  }

  lemma {:induction false} TurnTotal(cs: seq<IncomingChannel>, rs: seq<Ratchet>)
    requires Distinct(cs) && NoRepeat(rs)
    ensures Distinct(TurnRatchets(cs, rs)) && |TurnRatchets(cs, rs)| == |cs|
    ensures SignedTotal(TurnRatchets(cs, rs)) == SignedTotal(cs) + Rise(cs, rs)
    decreases |rs|
  {
    if rs != [] {
      var found := Find(cs, rs[0].id);
      assert forall r :: r in rs[1..] ==> r.id != rs[0].id;
      if found.Some? {
        var turned := found.value.(signed := rs[0].cumulative, failures := 0);
        PutKeepsDistinct(cs, turned);
        PutTotal(cs, turned);
        RiseUnaffected(cs, turned, rs[1..]);
        TurnTotal(Put(cs, turned), rs[1..]);
      } else {
        TurnTotal(cs, rs[1..]);
      }
    }
  }

  /** Where `id` stands after the ratchets: at the total named for it, or as it was. */
  lemma {:induction false} TurnReads(cs: seq<IncomingChannel>, rs: seq<Ratchet>, id: ChannelId)
    requires NoRepeat(rs)
    ensures Find(TurnRatchets(cs, rs), id).Some? <==> Find(cs, id).Some?
    ensures Find(cs, id).Some? ==>
      var before, after := Find(cs, id).value, Find(TurnRatchets(cs, rs), id).value;
      && after.capacity == before.capacity && after.expiresAt == before.expiresAt
      && (!Named(rs, id) ==> after == before)
      && (forall r :: r in rs && r.id == id ==> after.signed == r.cumulative && after.failures == 0)
    decreases |rs|
  {
    if rs != [] {
      var found := Find(cs, rs[0].id);
      var cs' := if found.None? then cs else Put(cs, found.value.(signed := rs[0].cumulative, failures := 0));
      if found.Some? {
        PutReads(cs, found.value.(signed := rs[0].cumulative, failures := 0), id);
      }
      TurnReads(cs', rs[1..], id);
      assert forall r :: r in rs <==> r == rs[0] || r in rs[1..];
      if Named(rs[1..], id) {
        assert Named(rs, id);
      }
    }
  }
}
