/** The wire protocol's thirteen messages as CBOR maps. */
module Codec {
  import opened Numbers
  import opened Wrappers
  import opened Wire
  import opened Cbor
  import opened Fields
  import opened MapCodec

  // ------------------------------------------------------------------------
  // The fields of each message type, in the order of their keys, from 1 on
  // ------------------------------------------------------------------------

  const BYTE: Shape := Unsigned(0xFF)
  const WORD: Shape := Unsigned(U64_MAX)
  const ID: Shape := Fixed(32)
  const CAP: Option<nat> := Some(MAX_CHANNEL_UPDATES)

  const ANNOUNCE_FIELDS: seq<Shape> := [BYTE, Fixed(33), Str, Unsigned(0xFFFF_FFFF)]
  const OFFER_FIELDS: seq<Shape> := [ListOf(Str, None), Str, Tuple([WORD, WORD], false), Unsigned(0xFFFF), Flag, WORD, WORD]
  const ACCEPT_FIELDS: seq<Shape> := [Blob]
  const CHANNEL_READY_FIELDS: seq<Shape> := [ID]
  const TOPUP_FIELDS: seq<Shape> := [ListOf(Tuple([ID, WORD, Fixed(64)], false), CAP), WORD, WORD]
  const TOPUP_REJECT_FIELDS: seq<Shape> := [ListOf(Tuple([ID, WORD], false), CAP), WORD, BYTE]
  const ROLLOVER_INIT_FIELDS: seq<Shape> := [ID, Blob]
  const ROLLOVER_READY_FIELDS: seq<Shape> := [ID, ID]
  const CHANNEL_CLOSE_FIELDS: seq<Shape> := [ID, WORD, Fixed(64), BYTE]
  const CLOSE_ACK_FIELDS: seq<Shape> := [ID, WORD]
  const REJECT_FIELDS: seq<Shape> := [BYTE, BYTE, Nullable(Str, true)]
  const DISCONNECT_FIELDS: seq<Shape> := [BYTE]
  const BALANCE_FIELDS: seq<Shape> := [WORD, WORD, WORD]

  function WireFields(tag: byte): Option<seq<Shape>> {
    match tag
    case 0x00 => Some(ANNOUNCE_FIELDS)
    case 0x01 => Some(OFFER_FIELDS)
    case 0x02 => Some(ACCEPT_FIELDS)
    case 0x03 => Some(CHANNEL_READY_FIELDS)
    case 0x04 => Some(TOPUP_FIELDS)
    case 0x05 => Some(TOPUP_REJECT_FIELDS)
    case 0x06 => Some(ROLLOVER_INIT_FIELDS)
    case 0x07 => Some(ROLLOVER_READY_FIELDS)
    case 0x08 => Some(CHANNEL_CLOSE_FIELDS)
    case 0x09 => Some(CLOSE_ACK_FIELDS)
    case 0x0A => Some(REJECT_FIELDS)
    case 0x0B => Some(DISCONNECT_FIELDS)
    case 0x0C => Some(BALANCE_FIELDS)
    case _ => None
  }

  function TagFor(msg: Message): byte {
    match msg
    case MAnnounce(_) => 0x00
    case MOffer(_) => 0x01
    case MAccept(_) => 0x02
    case MChannelReady(_) => 0x03
    case MTopUp(_) => 0x04
    case MTopUpReject(_) => 0x05
    case MRolloverInit(_, _) => 0x06
    case MRolloverReady(_, _) => 0x07
    case MChannelClose(_, _, _, _) => 0x08
    case MCloseAck(_, _) => 0x09
    case MReject(_, _, _) => 0x0A
    case MDisconnect(_) => 0x0B
    case MBalance(_) => 0x0C
  }

  // ------------------------------------------------------------------------
  // Encoding
  // ------------------------------------------------------------------------

  function TextValues(ts: seq<Text>): seq<Value> {
    seq(|ts|, i requires 0 <= i < |ts| => VText(ts[i]))
  }

  function UpdateValues(us: seq<ChannelUpdate>): seq<Value> {
    seq(|us|, i requires 0 <= i < |us| => VSeq([VBytes(us[i].channelId), VNum(us[i].cumulative), VBytes(us[i].signature)]))
  }

  function RefusedValues(rs: seq<RefusedUpdate>): seq<Value> {
    seq(|rs|, i requires 0 <= i < |rs| => VSeq([VBytes(rs[i].channelId), VNum(rs[i].cumulative)]))
  }

  /** What is written of a message, besides its tag. An Offer says that it does not charge only when it does not. */
  function EntriesOf(msg: Message): Entries {
    match msg
    case MAnnounce(m) => [(1, VNum(m.version)), (2, VBytes(m.pubkey)), (3, VText(m.unit)), (4, VNum(m.capabilities))]
    case MOffer(m) =>
      [(1, VSeq(TextValues(m.acceptedMints))), (2, VText(m.unit)), (3, VSeq([VNum(m.minWindowMs), VNum(m.maxWindowMs)])),
       (4, VNum(m.fromPayerWeight))]
      + (if m.noCharge then [(5, VFlag(true))] else [])
      + [(6, VNum(m.minReservedRate)), (7, VNum(m.minTopupGapMs))]
    case MAccept(funding) => [(1, VBytes(funding))]
    case MChannelReady(id) => [(1, VBytes(id))]
    case MTopUp(m) => [(1, VSeq(UpdateValues(m.updates))), (2, VNum(m.windowMs)), (3, VNum(m.reservedRate))]
    case MTopUpReject(m) => [(1, VSeq(RefusedValues(m.refused))), (2, VNum(m.maxReservedRate)), (3, VNum(m.reason.ToByte()))]
    case MRolloverInit(id, funding) => [(1, VBytes(id)), (2, VBytes(funding))]
    case MRolloverReady(before, after) => [(1, VBytes(before)), (2, VBytes(after))]
    case MChannelClose(id, final, signature, reason) =>
      [(1, VBytes(id)), (2, VNum(final)), (3, VBytes(signature)), (4, VNum(reason.ToByte()))]
    case MCloseAck(id, accepted) => [(1, VBytes(id)), (2, VNum(accepted))]
    case MReject(rejected, reason, text) =>
      [(1, VNum(rejected)), (2, VNum(reason.ToByte())), (3, if text.Some? then VText(text.value) else VNull)]
    case MDisconnect(reason) => [(1, VNum(reason.ToByte()))]
    case MBalance(m) => [(1, VNum(m.remaining)), (2, VNum(m.expiresInMs)), (3, VNum(m.reservedRate))]
  }

  /** A message whose every length can be written: any that fits in memory. */
  predicate Sized(msg: Message) {
    AllWritable(EntriesOf(msg))
  }

  function Encoded(msg: Message): Bytes
    requires Sized(msg)
  {
    EncodeMap(TagFor(msg), EntriesOf(msg))
  }

  // ------------------------------------------------------------------------
  // Decoding
  // ------------------------------------------------------------------------

  function Texts(vs: seq<Value>): seq<Text>
    requires forall i :: 0 <= i < |vs| ==> Fits(Str, vs[i])
  {
    seq(|vs|, i requires 0 <= i < |vs| => TextOf(vs[i]))
  }

  function TextOf(v: Value): Text
    requires Fits(Str, v)
  {
    v.t
  }

  function Updates(vs: seq<Value>): seq<ChannelUpdate>
    requires forall i :: 0 <= i < |vs| ==> Fits(Tuple([ID, WORD, Fixed(64)], false), vs[i])
  {
    seq(|vs|, i requires 0 <= i < |vs| => UpdateOf(vs[i]))
  }

  function UpdateOf(v: Value): ChannelUpdate
    requires Fits(Tuple([ID, WORD, Fixed(64)], false), v)
  {
    assert Fits(ID, v.vs[0]) && Fits(WORD, v.vs[1]) && Fits(Fixed(64), v.vs[2]);
    ChannelUpdate(v.vs[0].b, v.vs[1].n, v.vs[2].b)
  }

  function Refusals(vs: seq<Value>): seq<RefusedUpdate>
    requires forall i :: 0 <= i < |vs| ==> Fits(Tuple([ID, WORD], false), vs[i])
  {
    seq(|vs|, i requires 0 <= i < |vs| => RefusalOf(vs[i]))
  }

  function RefusalOf(v: Value): RefusedUpdate
    requires Fits(Tuple([ID, WORD], false), v)
  {
    assert Fits(ID, v.vs[0]) && Fits(WORD, v.vs[1]);
    RefusedUpdate(v.vs[0].b, v.vs[1].n)
  }

  function Missing(tag: byte, key: byte): Result<Message, Error> {
    Err(MissingField(tag, key))
  }

  function FinishAnnounce(d: Draft): Result<Message, Error>
    requires Typed(ANNOUNCE_FIELDS, d)
  {
    if 1 !in d then Missing(0x00, 1)
    else if 2 !in d then Missing(0x00, 2)
    else if 3 !in d then Missing(0x00, 3)
    else Ok(MAnnounce(Announce(d[1].n, d[2].b, d[3].t, if 4 in d then d[4].n else 0)))
  }

  function FinishOffer(d: Draft): Result<Message, Error>
    requires Typed(OFFER_FIELDS, d)
  {
    if 1 !in d then Missing(0x01, 1)
    else if d[1].vs == [] then Err(EmptyMintList)
    else if 3 !in d then Missing(0x01, 3)
    else if 2 !in d then Missing(0x01, 2)
    else
      assert Fits(WORD, d[3].vs[0]) && Fits(WORD, d[3].vs[1]);
      Ok(MOffer(Offer(Texts(d[1].vs), d[2].t, d[3].vs[0].n, d[3].vs[1].n, if 4 in d then d[4].n else 1,
                      if 5 in d then d[5].f else false, if 6 in d then d[6].n else 0, if 7 in d then d[7].n else 0)))
  }

  function FinishTopUp(d: Draft): Result<Message, Error>
    requires Typed(TOPUP_FIELDS, d)
  {
    if 1 !in d then Missing(0x04, 1)
    else if d[1].vs == [] then Err(NoChannelUpdates)
    else if 2 !in d then Missing(0x04, 2)
    else Ok(MTopUp(TopUp(Updates(d[1].vs), d[2].n, if 3 in d then d[3].n else 0)))
  }

  function FinishTopUpReject(d: Draft): Result<Message, Error>
    requires Typed(TOPUP_REJECT_FIELDS, d)
  {
    if 1 !in d then Missing(0x05, 1)
    else if 2 !in d then Missing(0x05, 2)
    else Ok(MTopUpReject(TopUpReject(Refusals(d[1].vs), d[2].n, if 3 in d then ReasonCode.FromByte(d[3].n) else Other)))
  }

  function FinishChannelClose(d: Draft): Result<Message, Error>
    requires Typed(CHANNEL_CLOSE_FIELDS, d)
  {
    if 1 !in d then Missing(0x08, 1)
    else if 2 !in d then Missing(0x08, 2)
    else if 3 !in d then Missing(0x08, 3)
    else Ok(MChannelClose(d[1].b, d[2].n, d[3].b, if 4 in d then CloseReason.FromByte(d[4].n) else Normal))
  }

  function FinishReject(d: Draft): Result<Message, Error>
    requires Typed(REJECT_FIELDS, d)
  {
    if 1 !in d then Missing(0x0A, 1)
    else Ok(MReject(d[1].n, if 2 in d then ReasonCode.FromByte(d[2].n) else Other,
                    if 3 in d && d[3].VText? then Some(d[3].t) else None))
  }

  function FinishBalance(d: Draft): Result<Message, Error>
    requires Typed(BALANCE_FIELDS, d)
  {
    if 1 !in d then Missing(0x0C, 1)
    else if 2 !in d then Missing(0x0C, 2)
    else if 3 !in d then Missing(0x0C, 3)
    else Ok(MBalance(Balance(d[1].n, d[2].n, d[3].n)))
  }

  /** The message some fields come to: each required one present, and those left out at their defaults. */
  function Finish(tag: byte, d: Draft): Result<Message, Error>
    requires WireFields(tag).Some? && Typed(WireFields(tag).value, d)
  {
    match tag
    case 0x00 => FinishAnnounce(d)
    case 0x01 => FinishOffer(d)
    case 0x02 => Ok(MAccept(if 1 in d then d[1].b else []))
    case 0x03 => if 1 !in d then Missing(0x03, 1) else Ok(MChannelReady(d[1].b))
    case 0x04 => FinishTopUp(d)
    case 0x05 => FinishTopUpReject(d)
    case 0x06 =>
      if 1 !in d then Missing(0x06, 1) else if 2 !in d then Missing(0x06, 2) else Ok(MRolloverInit(d[1].b, d[2].b))
    case 0x07 =>
      if 1 !in d then Missing(0x07, 1) else if 2 !in d then Missing(0x07, 2) else Ok(MRolloverReady(d[1].b, d[2].b))
    case 0x08 => FinishChannelClose(d)
    case 0x09 =>
      if 1 !in d then Missing(0x09, 1) else if 2 !in d then Missing(0x09, 2) else Ok(MCloseAck(d[1].b, d[2].n))
    case 0x0A => FinishReject(d)
    case 0x0B => Ok(MDisconnect(if 1 in d then ReasonCode.FromByte(d[1].n) else Other))
    case 0x0C => FinishBalance(d)
  }

  function Decode(input: Bytes): Result<Message, Error> {
    match DecodeDraft(WireFields, input)
    case Err(e) => Err(e)
    case Ok((tag, d)) => DraftIsTyped(WireFields, input); Finish(tag, d)
  }

  // ------------------------------------------------------------------------
  // Round trip
  // ------------------------------------------------------------------------

  /** What a receiver takes: an Offer with a mint in it, a purchase of one to eight updates, at most eight refused. */
  predicate Acceptable(msg: Message) {
    match msg
    case MOffer(m) => m.acceptedMints != []
    case MTopUp(m) => 1 <= |m.updates| <= MAX_CHANNEL_UPDATES
    case MTopUpReject(m) => |m.refused| <= MAX_CHANNEL_UPDATES
    case _ => true
  }

  /** Short enough to be read: the empty lists that are refused only once read are not too long. */
  predicate Capped(msg: Message) {
    match msg
    case MTopUp(m) => |m.updates| <= MAX_CHANNEL_UPDATES
    case MTopUpReject(m) => |m.refused| <= MAX_CHANNEL_UPDATES
    case _ => true
  }

  lemma ListsFit(msg: Message)
    ensures msg.MOffer? ==> Fits(ListOf(Str, None), VSeq(TextValues(msg.offer.acceptedMints)))
    ensures msg.MOffer? ==> Fits(Tuple([WORD, WORD], false), VSeq([VNum(msg.offer.minWindowMs), VNum(msg.offer.maxWindowMs)]))
    ensures msg.MTopUp? ==> forall i :: 0 <= i < |msg.topup.updates| ==>
      Fits(Tuple([ID, WORD, Fixed(64)], false), UpdateValues(msg.topup.updates)[i])
    ensures msg.MTopUpReject? ==> forall i :: 0 <= i < |msg.topupReject.refused| ==>
      Fits(Tuple([ID, WORD], false), RefusedValues(msg.topupReject.refused)[i])
  {
  }

  lemma EntriesSuit(msg: Message)
    requires Sized(msg) && Capped(msg)
    ensures WireFields(TagFor(msg)).Some? && Suits(WireFields(TagFor(msg)).value, EntriesOf(msg))
  {
    hide EntriesOf, ShapeOf, Fits;
    forall i | 0 <= i < |EntriesOf(msg)|
      ensures var shapes, e := WireFields(TagFor(msg)).value, EntriesOf(msg)[i];
        ShapeOf(shapes, e.0).Some? && Fits(ShapeOf(shapes, e.0).value, e.1)
    {
      EntryFits(msg, i);
    }
    KeysDistinct(msg);
    hide TagFor, WireFields;
    EachSuits(WireFields(TagFor(msg)).value, EntriesOf(msg));
  }

  lemma KeysDistinct(msg: Message)
    ensures forall i, j :: 0 <= i < j < |EntriesOf(msg)| ==> EntriesOf(msg)[i].0 != EntriesOf(msg)[j].0
  {
    hide TextValues, UpdateValues, RefusedValues;
  }

  lemma EntryFits(msg: Message, i: nat)
    requires Capped(msg) && i < |EntriesOf(msg)|
    ensures WireFields(TagFor(msg)).Some?
    ensures var shapes, e := WireFields(TagFor(msg)).value, EntriesOf(msg)[i];
      ShapeOf(shapes, e.0).Some? && Fits(ShapeOf(shapes, e.0).value, e.1)
  {
    ListsFit(msg);
    hide TextValues;
  }

  lemma UpdatesReadBack(us: seq<ChannelUpdate>)
    requires forall i :: 0 <= i < |us| ==> Fits(Tuple([ID, WORD, Fixed(64)], false), UpdateValues(us)[i])
    ensures Updates(UpdateValues(us)) == us
  {
  }

  lemma RefusalsReadBack(rs: seq<RefusedUpdate>)
    requires forall i :: 0 <= i < |rs| ==> Fits(Tuple([ID, WORD], false), RefusedValues(rs)[i])
    ensures Refusals(RefusedValues(rs)) == rs
  {
  }

  lemma TextsReadBack(ts: seq<Text>)
    ensures (forall i :: 0 <= i < |ts| ==> Fits(Str, TextValues(ts)[i])) && Texts(TextValues(ts)) == ts
  {
  }

  lemma ReasonsReadBack(r: ReasonCode, c: CloseReason)
    ensures ReasonCode.FromByte(r.ToByte()) == r && CloseReason.FromByte(c.ToByte()) == c
  {
  }

  /** A draft of exactly the fields of a message. */
  ghost predicate Reads(msg: Message, d: Draft) {
    WireFields(TagFor(msg)).Some? && Mirrors(WireFields(TagFor(msg)).value, EntriesOf(msg), d)
  }

  /** What the fields of a message come to: itself, or the refusal of an empty list. */
  ghost predicate Finishes(msg: Message, d: Draft)
    requires WireFields(TagFor(msg)).Some? && Typed(WireFields(TagFor(msg)).value, d)
  {
    Finish(TagFor(msg), d) ==
      if msg.MOffer? && msg.offer.acceptedMints == [] then Err(EmptyMintList)
      else if msg.MTopUp? && msg.topup.updates == [] then Err(NoChannelUpdates)
      else Ok(msg)
  }

  /** One field of a message, in the draft its fields are read to. */
  lemma Gives(msg: Message, d: Draft, i: nat)
    requires Reads(msg, d) && i < |EntriesOf(msg)|
    ensures var (k, v) := EntriesOf(msg)[i]; if v.VNull? then k !in d || d[k] == v else k in d && d[k] == v
  {
    assert ReadAt(WireFields(TagFor(msg)).value, EntriesOf(msg), d, i);
    hide EntriesOf, WireFields, ShapeOf;
  }

  lemma GivesNoOther(msg: Message, d: Draft, k: byte)
    requires Reads(msg, d) && forall i :: 0 <= i < |EntriesOf(msg)| ==> EntriesOf(msg)[i].0 != k
    ensures k !in d
  {
    hide EntriesOf, WireFields, ShapeOf, ReadAt;
  }

  lemma AnnounceFinishes(msg: Message, d: Draft)
    requires msg.MAnnounce? && Reads(msg, d) && Typed(ANNOUNCE_FIELDS, d)
    ensures Finishes(msg, d)
  {
    hide Reads, ValidUtf8;
    Gives(msg, d, 0);
    Gives(msg, d, 1);
    Gives(msg, d, 2);
    Gives(msg, d, 3);
  }

  lemma OfferFinishes(msg: Message, d: Draft)
    requires msg.MOffer? && Reads(msg, d) && Typed(OFFER_FIELDS, d)
    ensures Finishes(msg, d)
  {
    hide Reads, ValidUtf8;
    TextsReadBack(msg.offer.acceptedMints);
    hide TextValues, Texts;
    Gives(msg, d, 0);
    Gives(msg, d, 1);
    Gives(msg, d, 2);
    Gives(msg, d, 3);
    Gives(msg, d, 4);
    Gives(msg, d, 5);
    if msg.offer.noCharge {
      Gives(msg, d, 6);
    } else {
      GivesNoOther(msg, d, 5);
    }
  }

  lemma TopUpFinishes(msg: Message, d: Draft)
    requires msg.MTopUp? && Reads(msg, d) && Typed(TOPUP_FIELDS, d)
    ensures Finishes(msg, d)
  {
    hide Reads, ValidUtf8;
    ListsFit(msg);
    UpdatesReadBack(msg.topup.updates);
    hide UpdateValues, Updates;
    Gives(msg, d, 0);
    Gives(msg, d, 1);
    Gives(msg, d, 2);
    assert |UpdateValues(msg.topup.updates)| == |msg.topup.updates| by { UpdateCount(msg.topup.updates); }
  }

  lemma UpdateCount(us: seq<ChannelUpdate>)
    ensures |UpdateValues(us)| == |us|
  {
  }

  lemma TopUpRejectFinishes(msg: Message, d: Draft)
    requires msg.MTopUpReject? && Reads(msg, d) && Typed(TOPUP_REJECT_FIELDS, d)
    ensures Finishes(msg, d)
  {
    hide Reads, ValidUtf8;
    ListsFit(msg);
    RefusalsReadBack(msg.topupReject.refused);
    ReasonsReadBack(msg.topupReject.reason, Normal);
    hide RefusedValues, Refusals, ReasonCode.FromByte, ReasonCode.ToByte;
    Gives(msg, d, 0);
    Gives(msg, d, 1);
    Gives(msg, d, 2);
  }

  lemma ChannelCloseFinishes(msg: Message, d: Draft)
    requires msg.MChannelClose? && Reads(msg, d) && Typed(CHANNEL_CLOSE_FIELDS, d)
    ensures Finishes(msg, d)
  {
    hide Reads, ValidUtf8;
    ReasonsReadBack(Other, msg.closeReason);
    hide CloseReason.FromByte, CloseReason.ToByte;
    Gives(msg, d, 0);
    Gives(msg, d, 1);
    Gives(msg, d, 2);
    Gives(msg, d, 3);
  }

  lemma RejectFinishes(msg: Message, d: Draft)
    requires msg.MReject? && Reads(msg, d) && Typed(REJECT_FIELDS, d)
    ensures Finishes(msg, d)
  {
    hide Reads, ValidUtf8;
    ReasonsReadBack(msg.reason, Normal);
    hide ReasonCode.FromByte, ReasonCode.ToByte;
    Gives(msg, d, 0);
    Gives(msg, d, 1);
    Gives(msg, d, 2);
  }

  lemma OthersFinish(msg: Message, d: Draft)
    requires msg.MAccept? || msg.MChannelReady? || msg.MRolloverInit? || msg.MRolloverReady? || msg.MCloseAck? || msg.MDisconnect?
      || msg.MBalance?
    requires Reads(msg, d) && Typed(WireFields(TagFor(msg)).value, d)
    ensures Finishes(msg, d)
  {
    hide Reads, ValidUtf8;
    Gives(msg, d, 0);
    if |EntriesOf(msg)| > 1 {
      Gives(msg, d, 1);
    }
    if |EntriesOf(msg)| > 2 {
      Gives(msg, d, 2);
    }
    if msg.MDisconnect? {
      ReasonsReadBack(msg.reason, Normal);
      hide ReasonCode.FromByte, ReasonCode.ToByte;
    }
  }

  /** The fields written come back to the message, or to the refusal of an empty list. */
  lemma FieldsFinish(msg: Message, d: Draft)
    requires WireFields(TagFor(msg)).Some? && Reads(msg, d) && Typed(WireFields(TagFor(msg)).value, d)
    ensures Finishes(msg, d)
  {
    hide Reads, Finishes, Typed;
    match msg
    case MAnnounce(_) => AnnounceFinishes(msg, d);
    case MOffer(_) => OfferFinishes(msg, d);
    case MTopUp(_) => TopUpFinishes(msg, d);
    case MTopUpReject(_) => TopUpRejectFinishes(msg, d);
    case MChannelClose(_, _, _, _) => ChannelCloseFinishes(msg, d);
    case MReject(_, _, _) => RejectFinishes(msg, d);
    case _ => OthersFinish(msg, d);
  }

  lemma FinishedIsAcceptable(tag: byte, d: Draft)
    requires WireFields(tag).Some? && Typed(WireFields(tag).value, d) && Finish(tag, d).Ok?
    ensures Acceptable(Finish(tag, d).value) && TagFor(Finish(tag, d).value) == tag
  {
    hide UpdateOf, RefusalOf, ReasonCode.FromByte, CloseReason.FromByte;
  }

  /** Nothing is decoded that a sender should not have sent. */
  lemma DecodedIsAcceptable(input: Bytes)
    requires Decode(input).Ok?
    ensures Acceptable(Decode(input).value)
  {
    DraftIsTyped(WireFields, input);
    var (tag, d) := DecodeDraft(WireFields, input).value;
    FinishedIsAcceptable(tag, d);
    hide DecodeDraft, Finish, Acceptable;
  }

  lemma DecodesAs(input: Bytes, tag: byte, d: Draft)
    requires DecodeDraft(WireFields, input) == Ok((tag, d))
    ensures WireFields(tag).Some? && Typed(WireFields(tag).value, d) && Decode(input) == Finish(tag, d)
  {
    DraftIsTyped(WireFields, input);
  }

  /** The draft a message is decoded from. */
  ghost predicate Comes(msg: Message, d: Draft) {
    Reads(msg, d) && WireFields(TagFor(msg)).Some? && Typed(WireFields(TagFor(msg)).value, d)
  }

  lemma EncodedDraft(msg: Message, tail: Bytes) returns (d: Draft)
    requires Sized(msg) && Capped(msg)
    ensures Comes(msg, d) && DecodeDraft(WireFields, Encoded(msg) + tail) == Ok((TagFor(msg), d))
  {
    hide DecodeDraft, Typed, Mirrors, EncodeMap, EntriesOf, WireFields, TagFor, ShapeOf, Fits;
    EntriesSuit(msg);
    var shapes := WireFields(TagFor(msg)).value;
    d := DraftOf(shapes, EntriesOf(msg));
    hide DraftOf, Suits;
    DraftMirrors(shapes, EntriesOf(msg));
    EncodedDecodes(WireFields, TagFor(msg), EntriesOf(msg), tail);
  }

  lemma EncodedFinishes(msg: Message, tail: Bytes)
    requires Sized(msg) && Capped(msg)
    ensures Decode(Encoded(msg) + tail) ==
      if msg.MOffer? && msg.offer.acceptedMints == [] then Err(EmptyMintList)
      else if msg.MTopUp? && msg.topup.updates == [] then Err(NoChannelUpdates)
      else Ok(msg)
  {
    hide Decode, DecodeDraft, Typed, Reads, Finish, Encoded, EntriesOf, WireFields, TagFor;
    var d := EncodedDraft(msg, tail);
    FieldsFinish(msg, d);
    DecodesAs(Encoded(msg) + tail, TagFor(msg), d);
  }

  /**
    What is encoded decodes to the same message, whatever follows it, exactly when it is one a
    receiver takes; and then `no_charge` left out, and null for no text, come back as they were.
   */
  lemma RoundTripsIff(msg: Message, tail: Bytes)
    requires Sized(msg)
    ensures Decode(Encoded(msg) + tail) == Ok(msg) <==> Acceptable(msg)
  {
    hide Decode, Encoded;
    if Acceptable(msg) {
      EncodedFinishes(msg, tail);
    } else if Decode(Encoded(msg) + tail).Ok? {
      DecodedIsAcceptable(Encoded(msg) + tail);
    }
  }

  /** An empty list is refused as such, not as malformed. */
  lemma EmptyListsAreRefused(msg: Message, tail: Bytes)
    requires Sized(msg) && !Acceptable(msg) && Capped(msg)
    ensures Decode(Encoded(msg) + tail) == Err(if msg.MOffer? then EmptyMintList else NoChannelUpdates)
  {
    hide Decode, Encoded;
    EncodedFinishes(msg, tail);
  }

  /**
    A message decodes to the same whatever order its pairs come in, and whatever pairs under keys its
    type does not have are put among them: a later version may add fields.
   */
  lemma MessageOrderDoesNotMatter(h: Bytes, ps: seq<Pair>, tail: Bytes, h': Bytes, qs: seq<Pair>, tail': Bytes, msg: Message)
    requires MapHead(h, |ps|) && MapHead(h', |qs|) && Decode(h + Joined(ps) + tail) == Ok(msg)
    requires WireFields(TagFor(msg)).Some? && Agree(WireFields(TagFor(msg)).value, ps) && AllWellFormed(qs)
    requires Extends(WireFields(TagFor(msg)).value, ps, qs)
    ensures Decode(h' + Joined(qs) + tail') == Ok(msg)
  {
    hide MapHead, Agree, AllWellFormed, Extends, Typed, WireFields, TagFor, Finish, Joined, DecodeDraft;
    var input := h + Joined(ps) + tail;
    var (tag, d) := DecodeDraft(WireFields, input).value;
    DecodesAs(input, tag, d);
    FinishedIsAcceptable(tag, d);
    OrderDoesNotMatter(WireFields, h, ps, tail, h', qs, tail', tag, d);
    DecodesAs(h' + Joined(qs) + tail', tag, d);
  }

  /** In particular the fields of a message may be sent in any order, the tag's not first. */
  lemma EncodedInAnyOrder(msg: Message, qs: seq<Pair>, tail: Bytes)
    requires Sized(msg) && Acceptable(msg) && |qs| <= U64_MAX
    requires WireFields(TagFor(msg)).Some? && AllWellFormed(qs)
    requires Extends(WireFields(TagFor(msg)).value, EncodePairs(TagFor(msg), EntriesOf(msg)), qs)
    ensures Decode(WriteHead(MAP, |qs|) + Joined(qs) + tail) == Ok(msg)
  {
    hide Extends, Agree, AllWellFormed, Decode, Acceptable, TagFor, WireFields, MapHead, EncodePairs, Joined, EntriesOf, WriteHead, Encoded;
    var ps := EncodePairs(TagFor(msg), EntriesOf(msg));
    RoundTripsIff(msg, []);
    EncodedAgrees(msg);
    EncodedLength(msg);
    WrittenMapHead(|ps|);
    WrittenMapHead(|qs|);
    MessageOrderDoesNotMatter(WriteHead(MAP, |ps|), ps, [], WriteHead(MAP, |qs|), qs, tail, msg);
  }

  lemma EncodedAgrees(msg: Message)
    requires Sized(msg) && Acceptable(msg)
    ensures WireFields(TagFor(msg)).Some? && Agree(WireFields(TagFor(msg)).value, EncodePairs(TagFor(msg), EntriesOf(msg)))
  {
    assert Capped(msg);
    hide Agree, EntriesOf, TagFor, WireFields, EncodePairs;
    EntriesSuit(msg);
    EncodedPairsAgree(WireFields(TagFor(msg)).value, TagFor(msg), EntriesOf(msg));
  }

  lemma EncodedLength(msg: Message)
    requires Sized(msg)
    ensures var ps := EncodePairs(TagFor(msg), EntriesOf(msg));
      |ps| <= U64_MAX && Encoded(msg) == WriteHead(MAP, |ps|) + Joined(ps)
  {
    hide WriteHead, Joined, EntriesOf;
  }

  lemma WrittenMapHead(n: u64)
    ensures MapHead(WriteHead(MAP, n), n)
  {
    HeadReadsBack(MAP, n, []);
    assert WriteHead(MAP, n) + [] == WriteHead(MAP, n);
  }
}
