/**
  The protocol a node drives an external enforcer with: six messages, encoded as the wire's are and
  under tags of their own, so that a frame sent to the wrong socket fails to decode.
 */
module Enforcer {
  import opened Numbers
  import opened Wrappers
  import opened Wire
  import opened Fields
  import opened MapCodec
  import Codec
  import Coders

  const MAX_BINDINGS: nat := 8

  const MAX_SUBJECT_LEN: nat := 64

  datatype Identity = ByPubkey | ByAddress {
    /** The word for it: "pubkey", or "address". */
    function Name(): Text {
      match this
      case ByPubkey =>
        var name: Bytes := [0x70, 0x75, 0x62, 0x6B, 0x65, 0x79];
        AsciiIsValid(name);
        name
      case ByAddress =>
        var name: Bytes := [0x61, 0x64, 0x64, 0x72, 0x65, 0x73, 0x73];
        AsciiIsValid(name);
        name
    }
  }

  lemma {:induction false} AsciiIsValid(b: Bytes)
    requires forall i :: 0 <= i < |b| ==> b[i] < 0x80
    ensures ValidUtf8(b)
  {
    if b != [] {
      AsciiIsValid(b[1..]);
    }
  }

  const NAMES: set<Text> := {ByPubkey.Name(), ByAddress.Name()}

  /** What an enforcer recognizes in traffic. */
  type Subject = b: Bytes | 1 <= |b| <= MAX_SUBJECT_LEN witness [0]

  datatype Binding = Binding(subject: Subject, delegated: bool)

  datatype EnforcerMessage =
    | Hello(version: byte, identity: Identity, takesDelegated: bool, unit: Text)
    | Bind(peer: PubKey, bindings: seq<Binding>)
    | Set(peer: PubKey, rate: Option<u64>)
    | Remove(peer: PubKey)
    | Counters(peer: PubKey, toPayer: u64, fromPayer: u64)
    | Conflict(peer: PubKey, subject: Subject)

  // ------------------------------------------------------------------------
  // The fields of each message type
  // ------------------------------------------------------------------------

  const PAYER: Shape := Fixed(33)
  const WORD: Shape := Unsigned(U64_MAX)
  const BINDING: Shape := Tuple([Between(1, MAX_SUBJECT_LEN), Flag], true)

  const HELLO_FIELDS: seq<Shape> := [Unsigned(0xFF), Word(NAMES), Flag, Str]
  const BIND_FIELDS: seq<Shape> := [PAYER, ListOf(BINDING, Some(MAX_BINDINGS))]
  const SET_FIELDS: seq<Shape> := [PAYER, Nullable(WORD, false)]
  const REMOVE_FIELDS: seq<Shape> := [PAYER]
  const COUNTERS_FIELDS: seq<Shape> := [PAYER, WORD, WORD]
  const CONFLICT_FIELDS: seq<Shape> := [PAYER, Between(1, MAX_SUBJECT_LEN)]

  function EnforcerFields(tag: byte): Option<seq<Shape>> {
    match tag
    case 0x20 => Some(HELLO_FIELDS)
    case 0x21 => Some(BIND_FIELDS)
    case 0x22 => Some(SET_FIELDS)
    case 0x23 => Some(REMOVE_FIELDS)
    case 0x24 => Some(COUNTERS_FIELDS)
    case 0x25 => Some(CONFLICT_FIELDS)
    case _ => None
  }

  function TagFor(msg: EnforcerMessage): byte {
    match msg
    case Hello(_, _, _, _) => 0x20
    case Bind(_, _) => 0x21
    case Set(_, _) => 0x22
    case Remove(_) => 0x23
    case Counters(_, _, _) => 0x24
    case Conflict(_, _) => 0x25
  }

  // ------------------------------------------------------------------------
  // Encoding
  // ------------------------------------------------------------------------

  function BindingValues(bs: seq<Binding>): seq<Value> {
    seq(|bs|, i requires 0 <= i < |bs| => VSeq([VBytes(bs[i].subject), VFlag(bs[i].delegated)]))
  }

  function EntriesOf(msg: EnforcerMessage): Entries {
    match msg
    case Hello(version, identity, delegated, unit) =>
      [(1, VNum(version)), (2, VText(identity.Name())), (3, VFlag(delegated)), (4, VText(unit))]
    case Bind(peer, bindings) => [(1, VBytes(peer)), (2, VSeq(BindingValues(bindings)))]
    case Set(peer, rate) => [(1, VBytes(peer)), (2, if rate.Some? then VNum(rate.value) else VNull)]
    case Remove(peer) => [(1, VBytes(peer))]
    case Counters(peer, toPayer, fromPayer) => [(1, VBytes(peer)), (2, VNum(toPayer)), (3, VNum(fromPayer))]
    case Conflict(peer, subject) => [(1, VBytes(peer)), (2, VBytes(subject))]
  }

  predicate Sized(msg: EnforcerMessage) {
    AllWritable(EntriesOf(msg))
  }

  /** A receiver would have to close the connection over a Bind with too many subjects, so none is written. */
  function Encode(msg: EnforcerMessage): Result<Bytes, Error>
    requires Sized(msg)
  {
    if msg.Bind? && |msg.bindings| > MAX_BINDINGS then Err(TooMany(|msg.bindings|))
    else Ok(EncodeMap(TagFor(msg), EntriesOf(msg)))
  }

  // ------------------------------------------------------------------------
  // Decoding
  // ------------------------------------------------------------------------

  function BindingOf(v: Value): Binding
    requires Fits(BINDING, v)
  {
    assert Fits(Between(1, MAX_SUBJECT_LEN), v.vs[0]) && Fits(Flag, v.vs[1]);
    Binding(v.vs[0].b, v.vs[1].f)
  }

  function Bindings(vs: seq<Value>): seq<Binding>
    requires forall i :: 0 <= i < |vs| ==> Fits(BINDING, vs[i])
  {
    seq(|vs|, i requires 0 <= i < |vs| => BindingOf(vs[i]))
  }

  function Missing(tag: byte, key: byte): Result<EnforcerMessage, Error> {
    Err(MissingField(tag, key))
  }

  function FinishHello(d: Draft): Result<EnforcerMessage, Error>
    requires Typed(HELLO_FIELDS, d)
  {
    if 1 !in d then Missing(0x20, 1)
    else if 2 !in d then Missing(0x20, 2)
    else if 3 !in d then Missing(0x20, 3)
    else if 4 !in d then Missing(0x20, 4)
    else Ok(Hello(d[1].n, if d[2].t == ByPubkey.Name() then ByPubkey else ByAddress, d[3].f, d[4].t))
  }

  function FinishSet(d: Draft): Result<EnforcerMessage, Error>
    requires Typed(SET_FIELDS, d)
  {
    if 1 !in d then Missing(0x22, 1)
    else if 2 !in d then Missing(0x22, 2)
    else Ok(Set(d[1].b, if d[2].VNum? then Some(d[2].n) else None))
  }

  function FinishCounters(d: Draft): Result<EnforcerMessage, Error>
    requires Typed(COUNTERS_FIELDS, d)
  {
    if 1 !in d then Missing(0x24, 1)
    else if 2 !in d then Missing(0x24, 2)
    else if 3 !in d then Missing(0x24, 3)
    else Ok(Counters(d[1].b, d[2].n, d[3].n))
  }

  function Finish(tag: byte, d: Draft): Result<EnforcerMessage, Error>
    requires EnforcerFields(tag).Some? && Typed(EnforcerFields(tag).value, d)
  {
    match tag
    case 0x20 => FinishHello(d)
    case 0x21 =>
      if 1 !in d then Missing(0x21, 1) else if 2 !in d then Missing(0x21, 2) else Ok(Bind(d[1].b, Bindings(d[2].vs)))
    case 0x22 => FinishSet(d)
    case 0x23 => if 1 !in d then Missing(0x23, 1) else Ok(Remove(d[1].b))
    case 0x24 => FinishCounters(d)
    case 0x25 =>
      if 1 !in d then Missing(0x25, 1) else if 2 !in d then Missing(0x25, 2) else Ok(Conflict(d[1].b, d[2].b))
  }

  function Decode(input: Bytes): Result<EnforcerMessage, Error> {
    match DecodeDraft(EnforcerFields, input)
    case Err(e) => Err(e)
    case Ok((tag, d)) => DraftIsTyped(EnforcerFields, input); Finish(tag, d)
  }

  method DecodeMessage(input: Bytes) returns (r: Result<EnforcerMessage, Error>)
    ensures r == Decode(input)
  {
    var decoded := Coders.DecodeFields(EnforcerFields, input);
    if decoded.Err? {
      return Err(decoded.error);
    }
    DraftIsTyped(EnforcerFields, input);
    return Finish(decoded.value.0, decoded.value.1);
  }

  /** Encode a message, appended to `before`; what is refused appends nothing. */
  method EncodeMessage(msg: EnforcerMessage, before: Bytes) returns (r: Result<(), Error>, out: Bytes)
    requires Sized(msg)
    ensures match Encode(msg)
      case Ok(b) => r == Ok(()) && out == before + b
      case Err(e) => r == Err(e) && out == before
  {
    hide EntriesOf, TagFor, EncodeMap;
    if msg.Bind? && |msg.bindings| > MAX_BINDINGS {
      return Err(TooMany(|msg.bindings|)), before;
    }
    var e := new Coders.Encoder(before);
    e.PutMap(TagFor(msg), EntriesOf(msg));
    return Ok(()), e.out;
  }

  // ------------------------------------------------------------------------
  // Round trip
  // ------------------------------------------------------------------------

  predicate Capped(msg: EnforcerMessage) {
    msg.Bind? ==> |msg.bindings| <= MAX_BINDINGS
  }

  lemma BindingsFit(bs: seq<Binding>)
    ensures |BindingValues(bs)| == |bs| && forall i :: 0 <= i < |bs| ==> Fits(BINDING, BindingValues(bs)[i])
    ensures Bindings(BindingValues(bs)) == bs
  {
    forall i | 0 <= i < |bs| ensures Fits(BINDING, BindingValues(bs)[i]) {
      assert Fits(Between(1, MAX_SUBJECT_LEN), VBytes(bs[i].subject)) && Fits(Flag, VFlag(bs[i].delegated));
    }
  }

  lemma EntriesSuit(msg: EnforcerMessage)
    requires Sized(msg) && Capped(msg)
    ensures EnforcerFields(TagFor(msg)).Some? && Suits(EnforcerFields(TagFor(msg)).value, EntriesOf(msg))
  {
    hide EntriesOf, ShapeOf, Fits;
    forall i | 0 <= i < |EntriesOf(msg)|
      ensures var shapes, e := EnforcerFields(TagFor(msg)).value, EntriesOf(msg)[i];
        ShapeOf(shapes, e.0).Some? && Fits(ShapeOf(shapes, e.0).value, e.1)
    {
      EntryFits(msg, i);
    }
    KeysDistinct(msg);
    hide TagFor, EnforcerFields;
    EachSuits(EnforcerFields(TagFor(msg)).value, EntriesOf(msg));
  }

  lemma EntryFits(msg: EnforcerMessage, i: nat)
    requires Capped(msg) && i < |EntriesOf(msg)|
    ensures EnforcerFields(TagFor(msg)).Some?
    ensures var shapes, e := EnforcerFields(TagFor(msg)).value, EntriesOf(msg)[i];
      ShapeOf(shapes, e.0).Some? && Fits(ShapeOf(shapes, e.0).value, e.1)
  {
    hide ValidUtf8;
    if msg.Bind? {
      BindingsFit(msg.bindings);
      hide BindingValues;
    }
  }

  lemma KeysDistinct(msg: EnforcerMessage)
    ensures forall i, j :: 0 <= i < j < |EntriesOf(msg)| ==> EntriesOf(msg)[i].0 != EntriesOf(msg)[j].0
  {
    hide BindingValues, Identity.Name;
  }

  /** The draft a message is decoded from. */
  ghost predicate Comes(msg: EnforcerMessage, d: Draft) {
    && EnforcerFields(TagFor(msg)).Some? && Typed(EnforcerFields(TagFor(msg)).value, d)
    && Mirrors(EnforcerFields(TagFor(msg)).value, EntriesOf(msg), d)
  }

  lemma Gives(msg: EnforcerMessage, d: Draft, i: nat)
    requires Comes(msg, d) && i < |EntriesOf(msg)|
    ensures var (k, v) := EntriesOf(msg)[i]; var shape := ShapeOf(EnforcerFields(TagFor(msg)).value, k);
      shape.Some? && (!(shape.value.Nullable? && shape.value.sticky) ==> k in d && d[k] == v)
  {
    assert ReadAt(EnforcerFields(TagFor(msg)).value, EntriesOf(msg), d, i);
    hide EntriesOf, EnforcerFields, ShapeOf;
  }

  lemma FieldsFinish(msg: EnforcerMessage, d: Draft)
    requires Comes(msg, d)
    ensures Finish(TagFor(msg), d) == Ok(msg)
  {
    hide Mirrors, ValidUtf8;
    Gives(msg, d, 0);
    if |EntriesOf(msg)| > 1 {
      Gives(msg, d, 1);
    }
    if |EntriesOf(msg)| > 2 {
      Gives(msg, d, 2);
    }
    if |EntriesOf(msg)| > 3 {
      Gives(msg, d, 3);
    }
    if msg.Bind? {
      BindingsFit(msg.bindings);
      hide BindingValues, Bindings;
    }
  }

  lemma DecodesAs(input: Bytes, tag: byte, d: Draft)
    requires DecodeDraft(EnforcerFields, input) == Ok((tag, d))
    ensures EnforcerFields(tag).Some? && Typed(EnforcerFields(tag).value, d) && Decode(input) == Finish(tag, d)
  {
    DraftIsTyped(EnforcerFields, input);
  }

  lemma EncodedDraft(msg: EnforcerMessage, tail: Bytes) returns (d: Draft)
    requires Sized(msg) && Capped(msg)
    ensures Comes(msg, d) && DecodeDraft(EnforcerFields, EncodeMap(TagFor(msg), EntriesOf(msg)) + tail) == Ok((TagFor(msg), d))
  {
    hide DecodeDraft, Typed, Mirrors, EncodeMap, EntriesOf, EnforcerFields, TagFor, ShapeOf, Fits;
    EntriesSuit(msg);
    var shapes := EnforcerFields(TagFor(msg)).value;
    d := DraftOf(shapes, EntriesOf(msg));
    hide DraftOf, Suits;
    DraftMirrors(shapes, EntriesOf(msg));
    EncodedDecodes(EnforcerFields, TagFor(msg), EntriesOf(msg), tail);
  }

  /** Every message that is encoded decodes to the same; and one is not encoded only for its bindings. */
  lemma RoundTrips(msg: EnforcerMessage, tail: Bytes)
    requires Sized(msg)
    ensures Encode(msg).Ok? <==> Capped(msg)
    ensures Encode(msg).Ok? ==> Decode(Encode(msg).value + tail) == Ok(msg)
  {
    hide Decode, DecodeDraft, Comes, Finish, EncodeMap, EntriesOf, EnforcerFields, TagFor;
    if Capped(msg) {
      var d := EncodedDraft(msg, tail);
      FieldsFinish(msg, d);
      DecodesAs(EncodeMap(TagFor(msg), EntriesOf(msg)) + tail, TagFor(msg), d);
    }
  }

  /** The order of its pairs does not matter to an enforcer message either. */
  lemma MessageOrderDoesNotMatter(h: Bytes, ps: seq<Pair>, tail: Bytes, h': Bytes, qs: seq<Pair>, tail': Bytes, msg: EnforcerMessage)
    requires MapHead(h, |ps|) && MapHead(h', |qs|) && Decode(h + Joined(ps) + tail) == Ok(msg)
    requires EnforcerFields(TagFor(msg)).Some? && Agree(EnforcerFields(TagFor(msg)).value, ps) && AllWellFormed(qs)
    requires Extends(EnforcerFields(TagFor(msg)).value, ps, qs)
    ensures Decode(h' + Joined(qs) + tail') == Ok(msg)
  {
    hide MapHead, Agree, AllWellFormed, Extends, Typed, EnforcerFields, TagFor, Finish, Joined, DecodeDraft;
    var input := h + Joined(ps) + tail;
    var (tag, d) := DecodeDraft(EnforcerFields, input).value;
    DecodesAs(input, tag, d);
    FinishedTag(tag, d);
    OrderDoesNotMatter(EnforcerFields, h, ps, tail, h', qs, tail', tag, d);
    DecodesAs(h' + Joined(qs) + tail', tag, d);
  }

  lemma FinishedTag(tag: byte, d: Draft)
    requires EnforcerFields(tag).Some? && Typed(EnforcerFields(tag).value, d) && Finish(tag, d).Ok?
    ensures TagFor(Finish(tag, d).value) == tag
  {
    hide BindingOf, Identity.Name;
  }

  // ------------------------------------------------------------------------
  // The wrong socket
  // ------------------------------------------------------------------------

  /** A message sent to the wire's socket is refused by its tag, never taken for something else. */
  lemma WireRefuses(msg: EnforcerMessage, tail: Bytes)
    requires Sized(msg) && Capped(msg)
    ensures Codec.Decode(EncodeMap(TagFor(msg), EntriesOf(msg)) + tail) == Err(UnknownType(TagFor(msg)))
  {
    hide EntriesOf, DecodeDraft, EncodeMap, Suits;
    EntriesSuit(msg);
    assert Codec.WireFields(TagFor(msg)).None?;
    hide EnforcerFields, TagFor, Codec.WireFields;
    EncodedIsUnknown(Codec.WireFields, EnforcerFields(TagFor(msg)).value, TagFor(msg), EntriesOf(msg), tail);
  }

  /** And a wire message sent to an enforcer's. */
  lemma EnforcerRefuses(wire: Message, tail: Bytes)
    requires Codec.Sized(wire) && Codec.Capped(wire)
    ensures Decode(Codec.Encoded(wire) + tail) == Err(UnknownType(Codec.TagFor(wire)))
  {
    hide Codec.EntriesOf, DecodeDraft, EncodeMap, Suits;
    Codec.EntriesSuit(wire);
    assert EnforcerFields(Codec.TagFor(wire)).None?;
    hide EnforcerFields, Codec.TagFor, Codec.WireFields;
    EncodedIsUnknown(EnforcerFields, Codec.WireFields(Codec.TagFor(wire)).value, Codec.TagFor(wire), Codec.EntriesOf(wire), tail);
  }
}
