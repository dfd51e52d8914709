/**
  Fields left out. A message of the wire written without some of its fields is read as if they said what
  they mean by default, or is refused, naming the first it cannot do without.
 */
module Defaults {
  import opened Wrappers
  import opened Wire
  import opened Fields
  import opened MapCodec
  import opened Codec

  // ------------------------------------------------------------------------
  // What is left out
  // ------------------------------------------------------------------------

  function Without(entries: Entries, gone: set<byte>): Entries {
    if entries == [] then [] else (if entries[0].0 in gone then [] else [entries[0]]) + Without(entries[1..], gone)
  }

  /** The fields a message cannot do without, in the order they are looked for. */
  ghost function Needed(msg: Message): seq<byte> {
    match msg
    case MAnnounce(_) => [1, 2, 3]
    case MOffer(_) => [1, 3, 2]
    case MAccept(_) => []
    case MChannelReady(_) => [1]
    case MTopUp(_) => [1, 2]
    case MTopUpReject(_) => [1, 2]
    case MRolloverInit(_, _) => [1, 2]
    case MRolloverReady(_, _) => [1, 2]
    case MChannelClose(_, _, _, _) => [1, 2, 3]
    case MCloseAck(_, _) => [1, 2]
    case MReject(_, _, _) => [1]
    case MDisconnect(_) => []
    case MBalance(_) => [1, 2, 3]
  }

  ghost function FirstIn(keys: seq<byte>, gone: set<byte>): Option<byte> {
    if keys == [] then None else if keys[0] in gone then Some(keys[0]) else FirstIn(keys[1..], gone)
  }

  /**
    What a message means with some of the fields it can do without left out: no capabilities; a weight of one,
    a charge, no smallest rate and no gap; no funding; nothing reserved; no reason in particular, and no text.
   */
  ghost function LeftOut(msg: Message, gone: set<byte>): Message {
    match msg
    case MAnnounce(m) => if 4 in gone then MAnnounce(m.(capabilities := 0)) else msg
    case MOffer(m) =>
      var a := if 4 in gone then m.(fromPayerWeight := 1) else m;
      var b := if 5 in gone then a.(noCharge := false) else a;
      var c := if 6 in gone then b.(minReservedRate := 0) else b;
      MOffer(if 7 in gone then c.(minTopupGapMs := 0) else c)
    case MAccept(funding) => if 1 in gone then MAccept([]) else msg
    case MTopUp(m) => if 3 in gone then MTopUp(m.(reservedRate := 0)) else msg
    case MTopUpReject(m) => if 3 in gone then MTopUpReject(m.(reason := Other)) else msg
    case MChannelClose(id, final, signature, reason) => if 4 in gone then MChannelClose(id, final, signature, Normal) else msg
    case MReject(rejected, reason, text) => MReject(rejected, if 2 in gone then Other else reason, if 3 in gone then None else text)
    case MDisconnect(reason) => if 1 in gone then MDisconnect(Other) else msg
    case _ => msg
  }

  // ------------------------------------------------------------------------
  // The fields that are read
  // ------------------------------------------------------------------------

  lemma {:induction false} WithoutReads(entries: Entries, gone: set<byte>)
    ensures forall e :: e in Without(entries, gone) <==> e in entries && e.0 !in gone
    ensures |Without(entries, gone)| <= |entries|
  {
    if entries != [] {
      WithoutReads(entries[1..], gone);
      assert entries == [entries[0]] + entries[1..];
    }
  }

  lemma {:induction false} WithoutIsDistinct(entries: Entries, gone: set<byte>)
    requires forall i, j :: 0 <= i < j < |entries| ==> entries[i].0 != entries[j].0
    ensures var rest := Without(entries, gone); forall i, j :: 0 <= i < j < |rest| ==> rest[i].0 != rest[j].0
  {
    if entries != [] {
      WithoutIsDistinct(entries[1..], gone);
      WithoutReads(entries[1..], gone);
      var tail := Without(entries[1..], gone);
      forall j | 0 <= j < |tail| ensures tail[j].0 != entries[0].0 {
        assert tail[j] in tail;
        var k :| 0 <= k < |entries[1..]| && entries[1..][k] == tail[j];
        assert entries[k + 1] == tail[j];
      }
    }
  }

  lemma WithoutSuits(shapes: seq<Shape>, entries: Entries, gone: set<byte>)
    requires Suits(shapes, entries)
    ensures Suits(shapes, Without(entries, gone))
  {
    hide ShapeOf, Fits, Writable;
    WithoutReads(entries, gone);
    WithoutIsDistinct(entries, gone);
  }

  /** A draft of the fields of a message but for those left out. */
  ghost predicate Partly(msg: Message, gone: set<byte>, d: Draft) {
    && WireFields(TagFor(msg)).Some? && Typed(WireFields(TagFor(msg)).value, d)
    && Mirrors(WireFields(TagFor(msg)).value, Without(EntriesOf(msg), gone), d)
  }

  lemma PartlyGives(msg: Message, gone: set<byte>, d: Draft, i: nat)
    requires Partly(msg, gone, d) && i < |EntriesOf(msg)|
    ensures var (k, v) := EntriesOf(msg)[i];
      if k in gone then k !in d else if v.VNull? then k !in d || d[k] == v else k in d && d[k] == v
  {
    var shapes, e, rest := WireFields(TagFor(msg)).value, EntriesOf(msg)[i], Without(EntriesOf(msg), gone);
    WithoutReads(EntriesOf(msg), gone);
    hide EntriesOf, WireFields, ShapeOf, Typed, Without;
    forall j | 0 <= j < |rest| ensures rest[j].0 !in gone {
      assert rest[j] in rest;
    }
    if e.0 !in gone {
      assert e in rest;
      var j :| 0 <= j < |rest| && rest[j] == e;
      assert ReadAt(shapes, rest, d, j);
    }
  }

  lemma PartlyGivesNoOther(msg: Message, gone: set<byte>, d: Draft, k: byte)
    requires Partly(msg, gone, d) && forall i :: 0 <= i < |EntriesOf(msg)| ==> EntriesOf(msg)[i].0 != k
    ensures k !in d
  {
    var rest := Without(EntriesOf(msg), gone);
    WithoutReads(EntriesOf(msg), gone);
    hide EntriesOf, WireFields, ShapeOf, ReadAt, Typed, Without;
    forall j | 0 <= j < |rest| ensures rest[j].0 != k {
      assert rest[j] in rest;
      assert rest[j] in EntriesOf(msg);
    }
  }

  /** What those fields come to. */
  ghost predicate Comes(msg: Message, gone: set<byte>, d: Draft)
    requires WireFields(TagFor(msg)).Some? && Typed(WireFields(TagFor(msg)).value, d)
  {
    var first := FirstIn(Needed(msg), gone);
    Finish(TagFor(msg), d) == if first.Some? then Err(MissingField(TagFor(msg), first.value)) else Ok(LeftOut(msg, gone))
  }

  lemma Three(a: byte, b: byte, c: byte, gone: set<byte>)
    ensures FirstIn([a, b, c], gone) == if a in gone then Some(a) else if b in gone then Some(b) else if c in gone then Some(c) else None
    ensures FirstIn([a, b], gone) == if a in gone then Some(a) else if b in gone then Some(b) else None
    ensures FirstIn([a], gone) == if a in gone then Some(a) else None
    ensures FirstIn([], gone) == None
  {
    assert [a, b, c][1..] == [b, c] && [a, b][1..] == [b] && [b, c][1..] == [c] && [a][1..] == [] && [b][1..] == [] && [c][1..] == [];
    assert FirstIn([c], gone) == (if c in gone then Some(c) else None) && FirstIn([b], gone) == (if b in gone then Some(b) else None);
    assert FirstIn([b, c], gone) == if b in gone then Some(b) else FirstIn([c], gone);
  }

  lemma AnnounceComes(msg: Message, gone: set<byte>, d: Draft)
    requires msg.MAnnounce? && Partly(msg, gone, d)
    ensures Comes(msg, gone, d)
  {
    hide Partly, ValidUtf8;
    Three(1, 2, 3, gone);
    assert Typed(ANNOUNCE_FIELDS, d) by { PartlyTyped(msg, gone, d); }
    PartlyGives(msg, gone, d, 0);
    PartlyGives(msg, gone, d, 1);
    PartlyGives(msg, gone, d, 2);
    PartlyGives(msg, gone, d, 3);
  }

  lemma PartlyTyped(msg: Message, gone: set<byte>, d: Draft)
    requires Partly(msg, gone, d)
    ensures WireFields(TagFor(msg)).Some? && Typed(WireFields(TagFor(msg)).value, d)
  {
  }

  lemma OfferComes(msg: Message, gone: set<byte>, d: Draft)
    requires msg.MOffer? && Acceptable(msg) && Partly(msg, gone, d)
    ensures Comes(msg, gone, d)
  {
    hide Partly, ValidUtf8;
    Three(1, 3, 2, gone);
    PartlyTyped(msg, gone, d);
    TextsReadBack(msg.offer.acceptedMints);
    assert |TextValues(msg.offer.acceptedMints)| == |msg.offer.acceptedMints|;
    hide TextValues, Texts;
    PartlyGives(msg, gone, d, 0);
    PartlyGives(msg, gone, d, 1);
    PartlyGives(msg, gone, d, 2);
    PartlyGives(msg, gone, d, 3);
    PartlyGives(msg, gone, d, 4);
    PartlyGives(msg, gone, d, 5);
    if msg.offer.noCharge {
      PartlyGives(msg, gone, d, 6);
    } else {
      PartlyGivesNoOther(msg, gone, d, 5);
    }
  }

  lemma TopUpComes(msg: Message, gone: set<byte>, d: Draft)
    requires msg.MTopUp? && Acceptable(msg) && Partly(msg, gone, d)
    ensures Comes(msg, gone, d)
  {
    hide Partly, ValidUtf8;
    Three(1, 2, 0, gone);
    PartlyTyped(msg, gone, d);
    ListsFit(msg);
    UpdatesReadBack(msg.topup.updates);
    UpdateCount(msg.topup.updates);
    hide UpdateValues, Updates;
    PartlyGives(msg, gone, d, 0);
    PartlyGives(msg, gone, d, 1);
    PartlyGives(msg, gone, d, 2);
  }

  lemma TopUpRejectComes(msg: Message, gone: set<byte>, d: Draft)
    requires msg.MTopUpReject? && Acceptable(msg) && Partly(msg, gone, d)
    ensures Comes(msg, gone, d)
  {
    hide Partly, ValidUtf8;
    Three(1, 2, 0, gone);
    PartlyTyped(msg, gone, d);
    ListsFit(msg);
    RefusalsReadBack(msg.topupReject.refused);
    ReasonsReadBack(msg.topupReject.reason, Normal);
    hide RefusedValues, Refusals, ReasonCode.FromByte, ReasonCode.ToByte;
    PartlyGives(msg, gone, d, 0);
    PartlyGives(msg, gone, d, 1);
    PartlyGives(msg, gone, d, 2);
  }

  lemma ChannelCloseComes(msg: Message, gone: set<byte>, d: Draft)
    requires msg.MChannelClose? && Partly(msg, gone, d)
    ensures Comes(msg, gone, d)
  {
    hide Partly, ValidUtf8;
    Three(1, 2, 3, gone);
    PartlyTyped(msg, gone, d);
    ReasonsReadBack(Other, msg.closeReason);
    hide CloseReason.FromByte, CloseReason.ToByte;
    PartlyGives(msg, gone, d, 0);
    PartlyGives(msg, gone, d, 1);
    PartlyGives(msg, gone, d, 2);
    PartlyGives(msg, gone, d, 3);
  }

  lemma RejectComes(msg: Message, gone: set<byte>, d: Draft)
    requires msg.MReject? && Partly(msg, gone, d)
    ensures Comes(msg, gone, d)
  {
    hide Partly, ValidUtf8;
    Three(1, 0, 0, gone);
    PartlyTyped(msg, gone, d);
    ReasonsReadBack(msg.reason, Normal);
    hide ReasonCode.FromByte, ReasonCode.ToByte;
    PartlyGives(msg, gone, d, 0);
    PartlyGives(msg, gone, d, 1);
    PartlyGives(msg, gone, d, 2);
  }

  lemma OthersCome(msg: Message, gone: set<byte>, d: Draft)
    requires msg.MAccept? || msg.MChannelReady? || msg.MRolloverInit? || msg.MRolloverReady? || msg.MCloseAck? || msg.MDisconnect? || msg.MBalance?
    requires Partly(msg, gone, d)
    ensures Comes(msg, gone, d)
  {
    hide Partly, ValidUtf8;
    Three(1, 2, 3, gone);
    PartlyTyped(msg, gone, d);
    PartlyGives(msg, gone, d, 0);
    if |EntriesOf(msg)| > 1 {
      PartlyGives(msg, gone, d, 1);
    }
    if |EntriesOf(msg)| > 2 {
      PartlyGives(msg, gone, d, 2);
    }
    if msg.MDisconnect? {
      ReasonsReadBack(msg.reason, Normal);
      hide ReasonCode.FromByte, ReasonCode.ToByte;
    }
  }

  lemma PartComes(msg: Message, gone: set<byte>, d: Draft)
    requires Acceptable(msg) && Partly(msg, gone, d)
    ensures Comes(msg, gone, d)
  {
    PartlyTyped(msg, gone, d);
    hide Partly, Comes, Acceptable;
    match msg
    case MAnnounce(_) => AnnounceComes(msg, gone, d);
    case MOffer(_) => OfferComes(msg, gone, d);
    case MTopUp(_) => TopUpComes(msg, gone, d);
    case MTopUpReject(_) => TopUpRejectComes(msg, gone, d);
    case MChannelClose(_, _, _, _) => ChannelCloseComes(msg, gone, d);
    case MReject(_, _, _) => RejectComes(msg, gone, d);
    case _ => OthersCome(msg, gone, d);
  }

  /** A message without some of its fields, as it is written. */
  function EncodedWithout(msg: Message, gone: set<byte>): Bytes
    requires Sized(msg)
  {
    WithoutWritable(msg, gone);
    EncodeMap(TagFor(msg), Without(EntriesOf(msg), gone))
  }

  lemma WithoutWritable(msg: Message, gone: set<byte>)
    requires Sized(msg)
    ensures AllWritable(Without(EntriesOf(msg), gone))
  {
    WithoutReads(EntriesOf(msg), gone);
    hide EntriesOf, Writable, Without;
  }

  /**
    Any of the thirteen messages, written without any of its fields and with anything after it: refused for the
    first it cannot do without that is not there, and otherwise read as what it means without the others.
   */
  lemma LeftOutReads(msg: Message, gone: set<byte>, tail: Bytes)
    requires Sized(msg) && Acceptable(msg)
    ensures var first := FirstIn(Needed(msg), gone);
      Decode(EncodedWithout(msg, gone) + tail) ==
        if first.Some? then Err(MissingField(TagFor(msg), first.value)) else Ok(LeftOut(msg, gone))
  {
    assert Capped(msg);
    WithoutWritable(msg, gone);
    hide Decode, DecodeDraft, Typed, Mirrors, EncodeMap, EntriesOf, WireFields, TagFor, ShapeOf, Fits, Without, Acceptable, Sized, FirstIn, Needed, LeftOut, Finish;
    EntriesSuit(msg);
    var shapes, rest := WireFields(TagFor(msg)).value, Without(EntriesOf(msg), gone);
    WithoutSuits(shapes, EntriesOf(msg), gone);
    var d := DraftOf(shapes, rest);
    hide DraftOf, Suits;
    DraftMirrors(shapes, rest);
    EncodedDecodes(WireFields, TagFor(msg), rest, tail);
    DecodesAs(EncodedWithout(msg, gone) + tail, TagFor(msg), d);
    PartComes(msg, gone, d);
  }
}
