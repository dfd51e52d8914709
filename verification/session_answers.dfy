/**
  How a session answers what does not verify: which channels a purchase failed on, that a refusal of
  this kind always has one to be counted against, and that the third in a row settles it.
 */
module SessionAnswers {
  import opened Numbers
  import opened Wrappers
  import opened Wire
  import opened Grants
  import opened GrantChannels
  import opened Sessions
  import opened SessionFrames

  // ------------------------------------------------------------------------
  // Which channels a purchase failed on
  // ------------------------------------------------------------------------

  /** An update of a channel held that does not raise it, or that names it again. */
  ghost predicate Fails(cs: seq<IncomingChannel>, updates: seq<ChannelUpdate>, i: nat, seen: seq<ChannelId>)
    requires i < |updates|
  {
    var u := updates[i];
    var found := Find(cs, u.channelId);
    found.Some? && (u.channelId in seen || u.cumulative <= found.value.signed || exists j :: 0 <= j < i && updates[j].channelId == u.channelId)
  }

  ghost predicate FailsOn(cs: seq<IncomingChannel>, updates: seq<ChannelUpdate>, seen: seq<ChannelId>, id: ChannelId) {
    exists i :: 0 <= i < |updates| && updates[i].channelId == id && Fails(cs, updates, i, seen)
  }

  /** One update taken off the front: what fails of the rest, with its channel seen. */
  lemma FailsAfter(cs: seq<IncomingChannel>, updates: seq<ChannelUpdate>, seen: seq<ChannelId>, id: ChannelId)
    requires updates != []
    ensures var u := updates[0];
      var found := Find(cs, u.channelId).Some?;
      FailsOn(cs, updates, seen, id) <==>
        (u.channelId == id && Fails(cs, updates, 0, seen)) || FailsOn(cs, updates[1..], if found then seen + [u.channelId] else seen, id)
  {
    var u, rest := updates[0], updates[1..];
    var seen' := if Find(cs, u.channelId).Some? then seen + [u.channelId] else seen;
    forall i | 0 <= i < |rest| ensures Fails(cs, rest, i, seen') <==> Fails(cs, updates, i + 1, seen) {
      assert rest[i] == updates[i + 1];
      if j :| 0 <= j < i + 1 && updates[j].channelId == rest[i].channelId {
        if j > 0 {
          assert rest[j - 1] == updates[j];
        }
      }
      if j :| 0 <= j < i && rest[j].channelId == rest[i].channelId {
        assert updates[j + 1] == rest[j];
      }
    }
    if FailsOn(cs, updates, seen, id) {
      var i :| 0 <= i < |updates| && updates[i].channelId == id && Fails(cs, updates, i, seen);
      if i > 0 {
        assert rest[i - 1] == updates[i];
      }
    }
    if FailsOn(cs, rest, seen', id) {
      var i :| 0 <= i < |rest| && rest[i].channelId == id && Fails(cs, rest, i, seen');
      assert updates[i + 1] == rest[i];
    }
  }

  /** The channels named are exactly those some update fails on, and each is named once. */
  lemma {:induction false} NamesWhatFailed(cs: seq<IncomingChannel>, updates: seq<ChannelUpdate>, seen: seq<ChannelId>, failed: seq<ChannelId>, id: ChannelId)
    ensures id in NotIncreasing(cs, updates, seen, failed) <==> id in failed || FailsOn(cs, updates, seen, id)
    decreases |updates|
  {
    if updates != [] {
      hide Find;
      FailsAfter(cs, updates, seen, id);
      var u := updates[0];
      var found := Find(cs, u.channelId);
      if found.None? {
        NamesWhatFailed(cs, updates[1..], seen, failed, id);
      } else {
        var more := if (u.channelId in seen || u.cumulative <= found.value.signed) && u.channelId !in failed
          then failed + [u.channelId] else failed;
        NamesWhatFailed(cs, updates[1..], seen + [u.channelId], more, id);
      }
    }
  }

  ghost predicate NoneTwice(ids: seq<ChannelId>) {
    forall i, j :: 0 <= i < j < |ids| ==> ids[i] != ids[j]
  }

  lemma {:induction false} NamesOnce(cs: seq<IncomingChannel>, updates: seq<ChannelUpdate>, seen: seq<ChannelId>, failed: seq<ChannelId>)
    requires NoneTwice(failed)
    ensures NoneTwice(NotIncreasing(cs, updates, seen, failed))
    decreases |updates|
  {
    if updates != [] {
      hide Find;
      var u := updates[0];
      var found := Find(cs, u.channelId);
      if found.None? {
        NamesOnce(cs, updates[1..], seen, failed);
        assert NotIncreasing(cs, updates, seen, failed) == NotIncreasing(cs, updates[1..], seen, failed);
      } else {
        var more := if (u.channelId in seen || u.cumulative <= found.value.signed) && u.channelId !in failed
          then failed + [u.channelId] else failed;
        NamesOnce(cs, updates[1..], seen + [u.channelId], more);
        assert NotIncreasing(cs, updates, seen, failed) == NotIncreasing(cs, updates[1..], seen + [u.channelId], more);
      }
    }
  }

  lemma {:induction false} InvalidFails(cs: seq<IncomingChannel>, updates: seq<ChannelUpdate>, ratchets: seq<Ratchet>, grant: u64, seen: seq<ChannelId>)
    requires Gather(cs, updates, ratchets, grant) == Err(GrantInvalid) && forall r :: r in ratchets ==> r.id in seen
    ensures exists id :: FailsOn(cs, updates, seen, id)
    decreases |updates|
  {
    hide Find;
    var u, rest := updates[0], updates[1..];
    var found := Find(cs, u.channelId);
    if u.cumulative <= found.value.signed || Named(ratchets, u.channelId) {
      assert Fails(cs, updates, 0, seen);
      assert FailsOn(cs, updates, seen, u.channelId);
    } else {
      InvalidFails(cs, rest, ratchets + [Ratchet(u.channelId, u.cumulative)], SatAdd(grant, u.cumulative - found.value.signed), seen + [u.channelId]);
      var id :| FailsOn(cs, rest, seen + [u.channelId], id);
      FailsAfter(cs, updates, seen, id);
    }
  }

  /** A purchase of something, refused as invalid, always has a channel for the failure to be counted against. */
  lemma InvalidNamesAChannel(g: Grant, admission: Admission, updates: seq<ChannelUpdate>, windowMs: u64, rate: u64)
    requires updates != [] && Evaluate(g, admission, updates, windowMs, rate) == Refuse(GrantInvalid, admission.RateAvailable())
    ensures NotIncreasing(g.channels, updates, [], []) != []
  {
    hide Gather, NotIncreasing;
    InvalidFails(g.channels, updates, [], 0, []);
    var id :| FailsOn(g.channels, updates, [], id);
    NamesWhatFailed(g.channels, updates, [], [], id);
  }

  // ------------------------------------------------------------------------
  // Three in a row
  // ------------------------------------------------------------------------

  /** One failure on a channel held: counted, or its third, and then it is settled and held no more. */
  lemma OneFailure(cfg: Config, peer: PubKey, t: Turn, id: ChannelId, now: Millis)
    requires Distinct(t.s.grant.channels) && Find(t.s.grant.channels, id).Some?
    ensures var c, after := Find(t.s.grant.channels, id).value, OnUnverified(cfg, peer, t, [id], now);
      && Distinct(after.s.grant.channels)
      && if c.failures + 1 >= MAX_VERIFICATION_FAILURES then
           Find(after.s.grant.channels, id).None? && SettleChannel(peer, id, c.expiresAt) in after.out
         else
           Find(after.s.grant.channels, id) == Some(c.(failures := c.failures + 1))
  {
    hide Refresh, Put, Find, Settle, Distinct, CountFailures, Accounted, Drawn, SavesOnlyGone, Thinned, NoneRecorded;
    var told := t.Does(Send(peer, MReject(TOPUP, GrantInvalid, None)));
    var after := CountFailures(peer, told, [id]);
    OneCounted(peer, told, id, now);
    RefreshIsOrdinary(cfg, peer, after, now);
  }

  lemma OneCounted(peer: PubKey, t: Turn, id: ChannelId, now: Millis)
    requires Distinct(t.s.grant.channels) && Find(t.s.grant.channels, id).Some?
    ensures var c, after := Find(t.s.grant.channels, id).value, CountFailures(peer, t, [id]);
      && Distinct(after.s.grant.channels)
      && if c.failures + 1 >= MAX_VERIFICATION_FAILURES then
           Find(after.s.grant.channels, id).None? && SettleChannel(peer, id, c.expiresAt) in after.out
         else
           Find(after.s.grant.channels, id) == Some(c.(failures := c.failures + 1))
  {
    hide Put, Find, Settle, Distinct;
    var c := Find(t.s.grant.channels, id).value;
    var counted := c.(failures := Min(c.failures + 1, 0xFFFF_FFFF));
    CountFailuresIsOrdinary(peer, t, [id], now);
    PutKeepsDistinct(t.s.grant.channels, counted);
    PutReads(t.s.grant.channels, counted, id);
    var raised := t.(s := t.s.(grant := t.s.grant.(channels := Put(t.s.grant.channels, counted))));
    assert [id][1..] == [];
    if c.failures + 1 >= MAX_VERIFICATION_FAILURES {
      SettlesOne(peer, raised, id);
      assert CountFailures(peer, t, [id]) == CountFailures(peer, Settle(peer, raised, [id]), []);
    } else {
      assert CountFailures(peer, t, [id]) == CountFailures(peer, raised, []);
    }
  }

  lemma SettlesOne(peer: PubKey, t: Turn, id: ChannelId)
    requires Distinct(t.s.grant.channels) && Find(t.s.grant.channels, id).Some?
    ensures var after := Settle(peer, t, [id]);
      Find(after.s.grant.channels, id).None? && SettleChannel(peer, id, Find(t.s.grant.channels, id).value.expiresAt) in after.out
  {
    hide Find, Remove;
    var cs := t.s.grant.channels;
    assert [id][1..] == [];
    assert SettleEach(peer, Remove(cs, id), []) == (Remove(cs, id), []);
    assert SettleEach(peer, cs, [id]) == (Remove(cs, id), [SettleChannel(peer, id, Find(cs, id).value.expiresAt)] + []);
    RemoveReads(cs, id, id);
  }

  /** Failures on one channel, and nothing else, at each of these instants. */
  function Failing(cfg: Config, peer: PubKey, t: Turn, id: ChannelId, nows: seq<Millis>): Turn
    decreases |nows|
  {
    if nows == [] then t else Failing(cfg, peer, OnUnverified(cfg, peer, t, [id], nows[0]), id, nows[1..])
  }

  /** Two failures in a row leave a channel open and the third settles it, with its expiry. */
  lemma ThirdInARowSettles(cfg: Config, peer: PubKey, t: Turn, id: ChannelId, a: Millis, b: Millis, c: Millis)
    requires Distinct(t.s.grant.channels) && Find(t.s.grant.channels, id).Some? && Find(t.s.grant.channels, id).value.failures == 0
    ensures Find(Failing(cfg, peer, t, id, [a, b]).s.grant.channels, id).Some?
    ensures var after := Failing(cfg, peer, t, id, [a, b, c]);
      && Find(after.s.grant.channels, id).None?
      && SettleChannel(peer, id, Find(t.s.grant.channels, id).value.expiresAt) in after.out
  {
    hide OnUnverified, Find, Distinct;
    var first := OnUnverified(cfg, peer, t, [id], a);
    var second := OnUnverified(cfg, peer, first, [id], b);
    OneFailure(cfg, peer, t, id, a);
    OneFailure(cfg, peer, first, id, b);
    OneFailure(cfg, peer, second, id, c);
    assert [a, b][1..] == [b] && [b][1..] == [] && [a, b, c][1..] == [b, c] && [b, c][1..] == [c] && [c][1..] == [];
    assert Failing(cfg, peer, second, id, []) == second;
    assert Failing(cfg, peer, first, id, [b]) == second;
    assert Failing(cfg, peer, second, id, [c]) == Failing(cfg, peer, OnUnverified(cfg, peer, second, [id], c), id, []);
    assert Failing(cfg, peer, first, id, [b, c]) == Failing(cfg, peer, second, id, [c]);
  }

  /** A purchase honored in between starts the count again. */
  lemma HonoredStartsAgain(cs: seq<IncomingChannel>, ratchets: seq<Ratchet>, id: ChannelId)
    requires NoRepeat(ratchets) && Find(cs, id).Some? && Named(ratchets, id)
    ensures Find(TurnRatchets(cs, ratchets), id).Some? && Find(TurnRatchets(cs, ratchets), id).value.failures == 0
    decreases |ratchets|
  {
    hide Find, Put;
    var r, rest := ratchets[0], ratchets[1..];
    assert forall x :: x in ratchets ==> x == r || x in rest;
    var found := Find(cs, r.id);
    if found.Some? {
      var turned := found.value.(signed := r.cumulative, failures := 0);
      PutReads(cs, turned, id);
      if r.id == id {
        TurnsNoOther(Put(cs, turned), rest, id);
      } else {
        HonoredStartsAgain(Put(cs, turned), rest, id);
      }
    } else {
      HonoredStartsAgain(cs, rest, id);
    }
  }

  lemma {:induction false} TurnsNoOther(cs: seq<IncomingChannel>, ratchets: seq<Ratchet>, id: ChannelId)
    requires forall r :: r in ratchets ==> r.id != id
    ensures Find(TurnRatchets(cs, ratchets), id) == Find(cs, id)
    decreases |ratchets|
  {
    hide Find, Put;
    if ratchets != [] {
      var found := Find(cs, ratchets[0].id);
      if found.Some? {
        var turned := found.value.(signed := ratchets[0].cumulative, failures := 0);
        PutReads(cs, turned, id);
        TurnsNoOther(Put(cs, turned), ratchets[1..], id);
      } else {
        TurnsNoOther(cs, ratchets[1..], id);
      }
    }
  }
}
