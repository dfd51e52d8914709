/**
  Messages as CBOR maps: a type tag under key 0 beside the fields. Decoding takes two passes, one to
  find the tag and one to read the fields it has, so the order of the pairs does not matter, and
  skips the keys it does not know.
 */
module MapCodec {
  import opened Numbers
  import opened Wrappers
  import opened Wire
  import opened Cbor
  import opened Fields

  /** The fields read so far, by key. */
  type Draft = map<byte, Value>

  // ------------------------------------------------------------------------
  // Decoding
  // ------------------------------------------------------------------------

  function MapLength(s: Bytes): Read<nat> {
    match ReadLength(s, MAP)
    case None => Err(Malformed)
    case Some((None, _)) => Err(IndefiniteLength)
    case Some((Some(n), rest)) => Ok((n, rest))
  }

  /** The first pass: the tag under key 0, past the pairs before it. */
  function ScanPairs(n: nat, s: Bytes): Result<byte, Error> {
    if n == 0 then Err(MissingType)
    else
      match ReadUnsigned(s, 0xFF)
      case None => Err(Malformed)
      case Some((key, rest)) =>
        if key == 0 then
          match ReadUnsigned(rest, 0xFF)
          case None => Err(Malformed)
          case Some((tag, _)) => Ok(tag)
        else
          match SkipItems(rest, 1)
          case None => Err(Malformed)
          case Some(after) => ScanPairs(n - 1, after)
  }

  /** The shape of a field, if its key is one the message type has: key 1 is the first. */
  function ShapeOf(shapes: seq<Shape>, key: byte): Option<Shape> {
    if 1 <= key <= |shapes| then Some(shapes[key - 1]) else None
  }

  /** One value: read if its key is known, and otherwise skipped. */
  function ReadValue(shapes: seq<Shape>, key: byte, s: Bytes): Read<Option<Value>> {
    match ShapeOf(shapes, key)
    case None =>
      (match SkipItems(s, 1)
       case None => Err(Malformed)
       case Some(rest) => Ok((None, rest)))
    case Some(shape) =>
      match ReadShape(shape, key, s)
      case Err(e) => Err(e)
      case Ok((v, rest)) => Ok((if shape.Nullable? && shape.sticky && v.VNull? then None else Some(v), rest))
  }

  function Assign(draft: Draft, key: byte, v: Option<Value>): Draft {
    if v.Some? then draft[key := v.value] else draft
  }

  /** The second pass: every pair in turn. */
  function ReadPairs(shapes: seq<Shape>, n: nat, s: Bytes, draft: Draft): Result<Draft, Error>
    decreases n
  {
    if n == 0 then Ok(draft)
    else
      match ReadUnsigned(s, 0xFF)
      case None => Err(Malformed)
      case Some((key, rest)) =>
        match ReadValue(shapes, key, rest)
        case Err(e) => Err(e)
        case Ok((v, after)) => ReadPairs(shapes, n - 1, after, Assign(draft, key, v))
  }

  /** Both passes: the tag, and the fields of the message type it names among `types`. */
  function DecodeDraft(types: byte -> Option<seq<Shape>>, input: Bytes): Result<(byte, Draft), Error> {
    match MapLength(input)
    case Err(e) => Err(e)
    case Ok((n, pairs)) =>
      match ScanPairs(n, pairs)
      case Err(e) => Err(e)
      case Ok(tag) =>
        match types(tag)
        case None => Err(UnknownType(tag))
        case Some(shapes) =>
          match ReadPairs(shapes, n, pairs, map[])
          case Err(e) => Err(e)
          case Ok(draft) => Ok((tag, draft))
  }

  // ------------------------------------------------------------------------
  // Encoding
  // ------------------------------------------------------------------------

  /** One pair of a map, as the bytes of its key and of its value. */
  datatype Pair = Pair(key: Bytes, value: Bytes)

  function Joined(ps: seq<Pair>): Bytes {
    if ps == [] then [] else ps[0].key + ps[0].value + Joined(ps[1..])
  }

  function Written(key: byte, v: Value): Pair
    requires Writable(v)
  {
    Pair(WriteHead(UNSIGNED, key), Write(v))
  }

  /** A message's own fields, each with its key. */
  type Entries = seq<(byte, Value)>

  predicate AllWritable(entries: Entries) {
    |entries| < U64_MAX && forall e :: e in entries ==> Writable(e.1)
  }

  function WrittenAll(entries: Entries): (ps: seq<Pair>)
    requires forall e :: e in entries ==> Writable(e.1)
    ensures |ps| == |entries|
    ensures forall i :: 0 <= i < |ps| ==> ps[i] == Written(entries[i].0, entries[i].1)
  {
    if entries == [] then [] else [Written(entries[0].0, entries[0].1)] + WrittenAll(entries[1..])
  }

  function EncodePairs(tag: byte, entries: Entries): seq<Pair>
    requires AllWritable(entries)
  {
    [Written(0, VNum(tag))] + WrittenAll(entries)
  }

  function EncodeMap(tag: byte, entries: Entries): Bytes
    requires AllWritable(entries)
  {
    WriteHead(MAP, |entries| + 1) + Joined(EncodePairs(tag, entries))
  }

  // ------------------------------------------------------------------------
  // Pairs, read one at a time
  // ------------------------------------------------------------------------

  /** A one-byte key, however it is written, and one whole item. */
  predicate WellFormed(p: Pair) {
    && ReadUnsigned(p.key, 0xFF).Some? && ReadUnsigned(p.key, 0xFF).value.1 == []
    && SkipItems(p.value, 1) == Some([])
  }

  function KeyOf(p: Pair): byte
    requires WellFormed(p)
  {
    ReadUnsigned(p.key, 0xFF).value.0
  }

  ghost predicate AllWellFormed(ps: seq<Pair>) {
    forall p :: p in ps ==> WellFormed(p)
  }

  lemma UnsignedIsLocal(s: Bytes, max: u64, q: Bytes)
    requires ReadUnsigned(s, max).Some?
    ensures var (n, r) := ReadUnsigned(s, max).value;
      n <= max && Suffix(s, r) && |r| < |s| && ReadUnsigned(Taken(s, r) + q, max) == Some((n, q))
  {
    HeadConsumes(s);
    HeadIsLocal(s, q);
    hide ReadHead;
  }

  lemma KeyReads(p: Pair, q: Bytes)
    requires WellFormed(p)
    ensures ReadUnsigned(p.key + q, 0xFF) == Some((KeyOf(p), q))
  {
    UnsignedIsLocal(p.key, 0xFF, q);
    hide ReadUnsigned, SkipItems;
    assert Taken(p.key, []) == p.key;
  }

  lemma ValueSkips(p: Pair, q: Bytes)
    requires WellFormed(p)
    ensures SkipItems(p.value + q, 1) == Some(q)
  {
    SkipIsLocal(p.value, 1, q);
    hide ReadUnsigned, SkipItems;
    assert Taken(p.value, []) == p.value;
  }

  /** What a pair is read as, by itself. */
  function PairValue(shapes: seq<Shape>, p: Pair): Result<Option<Value>, Error>
    requires WellFormed(p)
  {
    match ReadValue(shapes, KeyOf(p), p.value)
    case Err(e) => Err(e)
    case Ok((v, _)) => Ok(v)
  }

  /** A pair reads the same before anything as it does alone, and leaves what comes after it. */
  lemma PairReads(shapes: seq<Shape>, p: Pair, q: Bytes)
    requires WellFormed(p)
    ensures ReadValue(shapes, KeyOf(p), p.value + q).Ok? <==> PairValue(shapes, p).Ok?
    ensures PairValue(shapes, p).Ok? ==> ReadValue(shapes, KeyOf(p), p.value + q) == Ok((PairValue(shapes, p).value, q))
  {
    var key := KeyOf(p);
    var s := p.value + q;
    ValueSkips(p, q);
    if ShapeOf(shapes, key).Some? {
      var shape := ShapeOf(shapes, key).value;
      if ReadShape(shape, key, s).Ok? {
        ShapeIsOneItem(shape, key, s, []);
        hide ReadShape, SkipItems, ReadUnsigned;
        assert Taken(s, q) == p.value && p.value + [] == p.value;
      }
      if ReadShape(shape, key, p.value).Ok? {
        ShapeIsOneItem(shape, key, p.value, q);
        hide ReadShape, SkipItems, ReadUnsigned;
        assert Taken(p.value, []) == p.value;
      }
    }
  }

  /** Pairs in turn, each read by itself. */
  function Collect(shapes: seq<Shape>, ps: seq<Pair>, draft: Draft): Result<Draft, Error>
    requires forall p :: p in ps ==> WellFormed(p)
    decreases |ps|
  {
    if ps == [] then Ok(draft)
    else
      match PairValue(shapes, ps[0])
      case Err(e) => Err(e)
      case Ok(v) => Collect(shapes, ps[1..], Assign(draft, KeyOf(ps[0]), v))
  }

  lemma {:induction false} ReadPairsCollects(shapes: seq<Shape>, ps: seq<Pair>, tail: Bytes, draft: Draft)
    requires AllWellFormed(ps)
    ensures ReadPairs(shapes, |ps|, Joined(ps) + tail, draft).Ok? <==> Collect(shapes, ps, draft).Ok?
    ensures Collect(shapes, ps, draft).Ok? ==> ReadPairs(shapes, |ps|, Joined(ps) + tail, draft) == Collect(shapes, ps, draft)
    decreases |ps|
  {
    hide ReadValue, ReadUnsigned, SkipItems;
    if ps != [] {
      var p := ps[0];
      var rest := Joined(ps[1..]) + tail;
      assert WellFormed(p);
      assert Joined(ps) + tail == p.key + (p.value + rest);
      KeyReads(p, p.value + rest);
      PairReads(shapes, p, rest);
      hide PairValue, WellFormed;
      if PairValue(shapes, p).Ok? {
        ReadPairsCollects(shapes, ps[1..], tail, Assign(draft, KeyOf(p), PairValue(shapes, p).value));
      }
    }
  }

  // ------------------------------------------------------------------------
  // Order does not matter
  // ------------------------------------------------------------------------

  /** Neither the tag's key nor one the message type has: skipped wherever it comes, and however often. */
  predicate Unknown(shapes: seq<Shape>, key: byte) {
    key != 0 && ShapeOf(shapes, key).None?
  }

  /** The tag a pair under key 0 carries. */
  function TagOf(p: Pair): Option<byte> {
    var read := ReadUnsigned(p.value, 0xFF);
    if read.Some? then Some(read.value.0) else None
  }

  /** Two pairs under one key that may come in either order: the same tag, or no two values that are kept. */
  ghost predicate Agreed(shapes: seq<Shape>, p: Pair, q: Pair)
    requires WellFormed(p) && WellFormed(q)
  {
    KeyOf(p) == KeyOf(q) ==>
      && (KeyOf(p) == 0 ==> TagOf(p) == TagOf(q))
      && (PairValue(shapes, p).Ok? && PairValue(shapes, q).Ok? && PairValue(shapes, p).value.Some? && PairValue(shapes, q).value.Some? ==>
            PairValue(shapes, p) == PairValue(shapes, q))
  }

  /** However often a key comes, its pairs agree. */
  ghost predicate Agree(shapes: seq<Shape>, ps: seq<Pair>) {
    && AllWellFormed(ps)
    && forall p, q :: p in ps && q in ps ==> Agreed(shapes, p, q)
  }

  ghost predicate Holding(shapes: seq<Shape>, p: Pair, d: Draft)
    requires WellFormed(p)
  {
    && PairValue(shapes, p).Ok?
    && (PairValue(shapes, p).value.Some? ==> KeyOf(p) in d && d[KeyOf(p)] == PairValue(shapes, p).value.value)
  }

  ghost predicate Gives(shapes: seq<Shape>, p: Pair, k: byte, v: Value)
    requires WellFormed(p)
  {
    KeyOf(p) == k && PairValue(shapes, p) == Ok(Some(v))
  }

  /** The draft that holds what each of these pairs is read as, and nothing else. */
  ghost predicate Holds(shapes: seq<Shape>, ps: seq<Pair>, d: Draft)
    requires AllWellFormed(ps)
  {
    && (forall p :: p in ps ==> Holding(shapes, p, d))
    && (forall k :: k in d ==> exists p :: p in ps && Gives(shapes, p, k, d[k]))
  }

  /** What pairs that agree come to, on top of a draft of the ones before them. */
  lemma {:induction false} CollectHolds(shapes: seq<Shape>, ps: seq<Pair>, before: seq<Pair>, draft: Draft)
    requires Agree(shapes, before + ps) && AllWellFormed(before) && AllWellFormed(ps) && Holds(shapes, before, draft)
    ensures Collect(shapes, ps, draft).Ok? ==> Holds(shapes, before + ps, Collect(shapes, ps, draft).value)
    decreases |ps|
  {
    hide PairValue, WellFormed, KeyOf, Agreed;
    if ps == [] {
      assert before + ps == before;
    } else {
      var p := ps[0];
      assert before + ps == before + [p] + ps[1..];
      if PairValue(shapes, p).Ok? {
        StartAgrees(shapes, before + [p], ps[1..]);
        OneMoreHolds(shapes, before, draft, p);
        CollectHolds(shapes, ps[1..], before + [p], Assign(draft, KeyOf(p), PairValue(shapes, p).value));
      }
    }
  }

  lemma StartAgrees(shapes: seq<Shape>, ps: seq<Pair>, qs: seq<Pair>)
    requires Agree(shapes, ps + qs)
    ensures Agree(shapes, ps)
  {
    hide Agreed, WellFormed;
    assert forall p :: p in ps ==> p in ps + qs;
  }

  lemma OneMoreHolds(shapes: seq<Shape>, before: seq<Pair>, draft: Draft, p: Pair)
    requires AllWellFormed(before) && WellFormed(p) && Holds(shapes, before, draft) && PairValue(shapes, p).Ok?
    requires Agree(shapes, before + [p])
    ensures AllWellFormed(before + [p]) && Holds(shapes, before + [p], Assign(draft, KeyOf(p), PairValue(shapes, p).value))
  {
    hide PairValue, WellFormed, KeyOf, TagOf;
    var d := Assign(draft, KeyOf(p), PairValue(shapes, p).value);
    assert forall x :: x in before + [p] <==> x in before || x == p;
    forall x | x in before + [p] ensures Holding(shapes, x, d) {
      assert Agreed(shapes, x, p);
    }
    forall k | k in d ensures exists x :: x in before + [p] && Gives(shapes, x, k, d[k]) {
      if k == KeyOf(p) && PairValue(shapes, p).value.Some? {
        assert p in before + [p] && Gives(shapes, p, k, d[k]);
      } else {
        var x :| x in before && Gives(shapes, x, k, draft[k]);
        assert x in before + [p];
      }
    }
  }

  lemma {:induction false} CollectOkIff(shapes: seq<Shape>, ps: seq<Pair>, draft: Draft)
    requires AllWellFormed(ps)
    ensures Collect(shapes, ps, draft).Ok? <==> forall p :: p in ps ==> PairValue(shapes, p).Ok?
    decreases |ps|
  {
    hide PairValue, WellFormed, KeyOf;
    if ps != [] {
      if PairValue(shapes, ps[0]).Ok? {
        CollectOkIff(shapes, ps[1..], Assign(draft, KeyOf(ps[0]), PairValue(shapes, ps[0]).value));
      }
      assert forall x :: x in ps <==> x == ps[0] || x in ps[1..];
    }
  }

  /** `qs` holds every pair of `ps`, in any order, and besides only pairs under keys the type does not have. */
  ghost predicate Extends(shapes: seq<Shape>, ps: seq<Pair>, qs: seq<Pair>)
    requires AllWellFormed(qs)
  {
    && (forall p :: p in ps ==> p in qs)
    && (forall q :: q in qs ==> q in ps || Unknown(shapes, KeyOf(q)))
  }

  lemma UnknownIsSkipped(shapes: seq<Shape>, p: Pair)
    requires WellFormed(p) && (Unknown(shapes, KeyOf(p)) || KeyOf(p) == 0)
    ensures PairValue(shapes, p) == Ok(None)
  {
  }

  /** Pairs under unknown keys put among them, pairs that agree do so still. */
  lemma ExtendedAgrees(shapes: seq<Shape>, ps: seq<Pair>, qs: seq<Pair>)
    requires Agree(shapes, ps) && AllWellFormed(qs) && Extends(shapes, ps, qs)
    ensures Agree(shapes, qs)
  {
    hide PairValue, WellFormed, KeyOf, TagOf;
    forall p, q | p in qs && q in qs ensures Agreed(shapes, p, q) {
      if p !in ps {
        UnknownIsSkipped(shapes, p);
      }
      if q !in ps {
        UnknownIsSkipped(shapes, q);
      }
    }
  }

  lemma CollectAll(shapes: seq<Shape>, ps: seq<Pair>)
    requires Agree(shapes, ps)
    ensures Collect(shapes, ps, map[]).Ok? ==> Holds(shapes, ps, Collect(shapes, ps, map[]).value)
  {
    assert [] + ps == ps;
    CollectHolds(shapes, ps, [], map[]);
  }

  lemma SameDraft(shapes: seq<Shape>, ps: seq<Pair>, qs: seq<Pair>)
    requires Agree(shapes, ps) && Agree(shapes, qs) && Extends(shapes, ps, qs) && Collect(shapes, ps, map[]).Ok?
    ensures Collect(shapes, qs, map[]) == Collect(shapes, ps, map[])
  {
    hide PairValue, WellFormed, KeyOf, Holds, Collect, Agreed;
    CollectOkIff(shapes, ps, map[]);
    CollectOkIff(shapes, qs, map[]);
    CollectAll(shapes, ps);
    CollectAll(shapes, qs);
    forall q | q in qs ensures PairValue(shapes, q).Ok? {
      if q !in ps {
        UnknownIsSkipped(shapes, q);
      }
    }
    SameHolding(shapes, ps, qs, Collect(shapes, ps, map[]).value, Collect(shapes, qs, map[]).value);
  }

  lemma SameHolding(shapes: seq<Shape>, ps: seq<Pair>, qs: seq<Pair>, d: Draft, d': Draft)
    requires AllWellFormed(ps) && AllWellFormed(qs) && Extends(shapes, ps, qs) && Holds(shapes, ps, d) && Holds(shapes, qs, d')
    ensures d' == d
  {
    hide WellFormed, PairValue, KeyOf;
    forall k | k in d ensures k in d' && d'[k] == d[k] {
      var p :| p in ps && Gives(shapes, p, k, d[k]);
      assert p in qs && Holding(shapes, p, d');
    }
    forall k | k in d' ensures k in d {
      var q :| q in qs && Gives(shapes, q, k, d'[k]);
      if q !in ps {
        UnknownIsSkipped(shapes, q);
      } else {
        assert Holding(shapes, q, d);
      }
    }
  }

  // ------------------------------------------------------------------------
  // The first pass
  // ------------------------------------------------------------------------

  lemma TagReads(p: Pair, q: Bytes)
    requires WellFormed(p)
    ensures ReadUnsigned(p.value + q, 0xFF).Some? <==> TagOf(p).Some?
    ensures TagOf(p).Some? ==> ReadUnsigned(p.value + q, 0xFF).value.0 == TagOf(p).value
  {
    PairReads([Unsigned(0xFF)], Pair(WriteHead(UNSIGNED, 1), p.value), q) by {
      HeadReadsBack(UNSIGNED, 1, []);
      assert WriteHead(UNSIGNED, 1) + [] == WriteHead(UNSIGNED, 1);
    }
    HeadReadsBack(UNSIGNED, 1, []);
    assert WriteHead(UNSIGNED, 1) + [] == WriteHead(UNSIGNED, 1);
    hide ReadUnsigned, SkipItems;
  }

  /** The scan goes on past a pair that is not the tag's. */
  lemma ScanGoesOn(ps: seq<Pair>, tail: Bytes)
    requires AllWellFormed(ps) && ps != [] && KeyOf(ps[0]) != 0
    ensures ScanPairs(|ps|, Joined(ps) + tail) == ScanPairs(|ps| - 1, Joined(ps[1..]) + tail)
  {
    hide ReadUnsigned, SkipItems;
    var p := ps[0];
    var rest := Joined(ps[1..]) + tail;
    assert WellFormed(p);
    assert Joined(ps) + tail == p.key + (p.value + rest);
    KeyReads(p, p.value + rest);
    ValueSkips(p, rest);
  }

  lemma ScanStops(ps: seq<Pair>, tail: Bytes)
    requires AllWellFormed(ps) && ps != [] && KeyOf(ps[0]) == 0
    ensures ScanPairs(|ps|, Joined(ps) + tail) == if TagOf(ps[0]).Some? then Ok(TagOf(ps[0]).value) else Err(Malformed)
  {
    hide ReadUnsigned, SkipItems, WellFormed, KeyOf, TagOf;
    var p := ps[0];
    var rest := Joined(ps[1..]) + tail;
    assert WellFormed(p);
    assert Joined(ps) + tail == p.key + (p.value + rest);
    KeyReads(p, p.value + rest);
    TagReads(p, rest);
  }

  lemma {:induction false} ScanFindsTag(ps: seq<Pair>, i: nat, tail: Bytes)
    requires AllWellFormed(ps) && i < |ps| && KeyOf(ps[i]) == 0 && forall j :: 0 <= j < i ==> KeyOf(ps[j]) != 0
    ensures ScanPairs(|ps|, Joined(ps) + tail) == if TagOf(ps[i]).Some? then Ok(TagOf(ps[i]).value) else Err(Malformed)
    decreases |ps|
  {
    hide ReadUnsigned, SkipItems, WellFormed, KeyOf, TagOf, ScanPairs, Joined;
    if i == 0 {
      ScanStops(ps, tail);
    } else {
      ScanGoesOn(ps, tail);
      ScanFindsTag(ps[1..], i - 1, tail);
    }
  }

  lemma {:induction false} ScanFindsNone(ps: seq<Pair>, tail: Bytes)
    requires AllWellFormed(ps) && forall p :: p in ps ==> KeyOf(p) != 0
    ensures ScanPairs(|ps|, Joined(ps) + tail) == Err(MissingType)
    decreases |ps|
  {
    hide ReadUnsigned, SkipItems, WellFormed, KeyOf;
    if ps != [] {
      assert ps[0] in ps;
      ScanGoesOn(ps, tail);
      ScanFindsNone(ps[1..], tail);
    }
  }

  // ------------------------------------------------------------------------
  // Both passes
  // ------------------------------------------------------------------------

  /** The head of a map of `n` pairs, however it is written. */
  predicate MapHead(h: Bytes, n: nat) {
    ReadLength(h, MAP) == Some((Some(n), []))
  }

  lemma MapHeadReads(h: Bytes, n: nat, q: Bytes)
    requires MapHead(h, n)
    ensures MapLength(h + q) == Ok((n, q))
  {
    HeadIsLocal(h, q);
    assert Taken(h, []) == h;
  }

  /** The first pair under key 0 is where the tag is. */
  ghost predicate TaggedAt(ps: seq<Pair>, i: nat) {
    && AllWellFormed(ps) && i < |ps| && KeyOf(ps[i]) == 0 && TagOf(ps[i]).Some?
    && forall j :: 0 <= j < i ==> KeyOf(ps[j]) != 0
  }

  /** The draft some pairs decode to, in any message that holds them. */
  lemma DecodesPairs(types: byte -> Option<seq<Shape>>, h: Bytes, ps: seq<Pair>, tail: Bytes, i: nat)
    requires MapHead(h, |ps|) && TaggedAt(ps, i) && types(TagOf(ps[i]).value).Some?
    ensures var shapes, decoded := types(TagOf(ps[i]).value).value, DecodeDraft(types, h + Joined(ps) + tail);
      && (decoded.Ok? <==> Collect(shapes, ps, map[]).Ok?)
      && (decoded.Ok? ==> decoded == Ok((TagOf(ps[i]).value, Collect(shapes, ps, map[]).value)))
  {
    var shapes := types(TagOf(ps[i]).value).value;
    assert h + Joined(ps) + tail == h + (Joined(ps) + tail);
    MapHeadReads(h, |ps|, Joined(ps) + tail);
    ScanFindsTag(ps, i, tail);
    ReadPairsCollects(shapes, ps, tail, map[]);
    hide MapLength, ScanPairs, ReadPairs, Collect, KeyOf, WellFormed, TagOf;
  }

  lemma {:induction false} FirstUnderZero(ps: seq<Pair>) returns (i: nat)
    requires AllWellFormed(ps) && exists p :: p in ps && KeyOf(p) == 0
    ensures i < |ps| && KeyOf(ps[i]) == 0 && forall j :: 0 <= j < i ==> KeyOf(ps[j]) != 0
    decreases |ps|
  {
    hide KeyOf, WellFormed;
    i := 0;
    if KeyOf(ps[0]) != 0 {
      i := FirstUnderZero(ps[1..]);
      i := i + 1;
    }
  }

  /**
    Decoding does not depend on the order of the pairs, nor on pairs under keys the message type does
    not have: one that decodes, with pairs that agree wherever a key comes twice, decodes to the same
    whatever order its pairs are put in and whatever such pairs are put among them.
   */
  lemma OrderDoesNotMatter(types: byte -> Option<seq<Shape>>, h: Bytes, ps: seq<Pair>, tail: Bytes,
                           h': Bytes, qs: seq<Pair>, tail': Bytes, tag: byte, d: Draft)
    requires MapHead(h, |ps|) && MapHead(h', |qs|) && DecodeDraft(types, h + Joined(ps) + tail) == Ok((tag, d))
    requires types(tag).Some? && Agree(types(tag).value, ps) && AllWellFormed(qs)
    requires Extends(types(tag).value, ps, qs)
    ensures DecodeDraft(types, h' + Joined(qs) + tail') == Ok((tag, d))
  {
    hide WellFormed, KeyOf, TagOf, MapHead, Joined, DecodeDraft, Collect;
    var shapes := types(tag).value;
    ExtendedAgrees(shapes, ps, qs);
    var i := TypePairExists(types, h, ps, tail, tag, d);
    DecodesPairs(types, h, ps, tail, i);
    assert ps[i] in ps && ps[i] in qs;
    var j := FirstUnderZero(qs);
    assert qs[j] in qs && Agreed(shapes, qs[j], ps[i]);
    DecodesPairs(types, h', qs, tail', j);
    SameDraft(shapes, ps, qs);
  }

  lemma TypePairExists(types: byte -> Option<seq<Shape>>, h: Bytes, ps: seq<Pair>, tail: Bytes, tag: byte, d: Draft) returns (i: nat)
    requires MapHead(h, |ps|) && AllWellFormed(ps) && DecodeDraft(types, h + Joined(ps) + tail) == Ok((tag, d))
    ensures TaggedAt(ps, i) && TagOf(ps[i]) == Some(tag)
  {
    assert h + Joined(ps) + tail == h + (Joined(ps) + tail);
    MapHeadReads(h, |ps|, Joined(ps) + tail);
    hide MapLength, ScanPairs, ReadPairs, KeyOf, WellFormed, TagOf;
    if forall p :: p in ps ==> KeyOf(p) != 0 {
      ScanFindsNone(ps, tail);
      assert false;
    }
    i := FirstUnderZero(ps);
    ScanFindsTag(ps, i, tail);
  }

  // ------------------------------------------------------------------------
  // And when it does
  // ------------------------------------------------------------------------

  ghost predicate Permutes(ps: seq<Pair>, qs: seq<Pair>) {
    multiset(qs) == multiset(ps)
  }

  lemma PermutedHolds(ps: seq<Pair>, qs: seq<Pair>)
    requires Permutes(ps, qs)
    ensures |qs| == |ps| && forall p :: p in qs <==> p in ps
  {
    assert |multiset(qs)| == |qs| && |multiset(ps)| == |ps|;
    assert forall p :: p in qs <==> p in multiset(qs);
    assert forall p :: p in ps <==> p in multiset(ps);
  }

  /** One pair taken out and put at either end. */
  lemma Moved(ps: seq<Pair>, i: nat)
    requires i < |ps|
    ensures Permutes(ps, ps[..i] + ps[i + 1..] + [ps[i]]) && Permutes(ps, [ps[i]] + ps[..i] + ps[i + 1..])
  {
    assert ps == ps[..i] + [ps[i]] + ps[i + 1..];
  }

  /** The last value kept under a key is the one decoded. */
  lemma LastWins(types: byte -> Option<seq<Shape>>, h: Bytes, ps: seq<Pair>, p: Pair, tail: Bytes, tag: byte, d: Draft, v: Value)
    requires MapHead(h, |ps| + 1) && AllWellFormed(ps) && WellFormed(p) && types(tag).Some?
    requires DecodeDraft(types, h + Joined(ps + [p]) + tail) == Ok((tag, d)) && PairValue(types(tag).value, p) == Ok(Some(v))
    ensures KeyOf(p) in d && d[KeyOf(p)] == v
  {
    hide WellFormed, KeyOf, TagOf, MapHead, Joined, DecodeDraft, PairValue;
    var shapes, all := types(tag).value, ps + [p];
    assert AllWellFormed(all) && forall x :: x in ps ==> x in all;
    var i := TypePairExists(types, h, all, tail, tag, d);
    DecodesPairs(types, h, all, tail, i);
    CollectOkIff(shapes, all, map[]);
    CollectOkIff(shapes, ps, map[]);
    CollectMore(shapes, ps, p, map[]);
  }

  /** The first pair under key 0 is the tag's. */
  lemma FirstTagWins(types: byte -> Option<seq<Shape>>, h: Bytes, p: Pair, ps: seq<Pair>, tail: Bytes, tag: byte, d: Draft)
    requires MapHead(h, |ps| + 1) && AllWellFormed(ps) && WellFormed(p) && KeyOf(p) == 0
    requires DecodeDraft(types, h + Joined([p] + ps) + tail) == Ok((tag, d))
    ensures TagOf(p) == Some(tag)
  {
    hide WellFormed, KeyOf, TagOf, MapHead, Joined, DecodeDraft;
    var i := TypePairExists(types, h, [p] + ps, tail, tag, d);
    assert ([p] + ps)[0] == p;
  }

  /** Two pairs that do not agree: in some order the map decodes to something else, or not at all. */
  lemma Disagreement(types: byte -> Option<seq<Shape>>, h: Bytes, ps: seq<Pair>, tail: Bytes, tag: byte, d: Draft, i: nat, j: nat) returns (qs: seq<Pair>)
    requires MapHead(h, |ps|) && AllWellFormed(ps) && types(tag).Some?
    requires i < |ps| && j < |ps| && !Agreed(types(tag).value, ps[i], ps[j])
    ensures Permutes(ps, qs) && DecodeDraft(types, h + Joined(qs) + tail) != Ok((tag, d))
  {
    hide WellFormed, KeyOf, TagOf, MapHead, Joined, DecodeDraft, PairValue;
    var shapes := types(tag).value;
    if KeyOf(ps[i]) == 0 && TagOf(ps[i]) != TagOf(ps[j]) {
      var x := if TagOf(ps[i]) == Some(tag) then j else i;
      Moved(ps, x);
      var rest := ps[..x] + ps[x + 1..];
      assert [ps[x]] + ps[..x] + ps[x + 1..] == [ps[x]] + rest;
      qs := [ps[x]] + rest;
      if DecodeDraft(types, h + Joined(qs) + tail) == Ok((tag, d)) {
        FirstTagWins(types, h, ps[x], rest, tail, tag, d);
      }
    } else {
      var k, v, w := KeyOf(ps[i]), PairValue(shapes, ps[i]).value.value, PairValue(shapes, ps[j]).value.value;
      var x := if k in d && d[k] == v then j else i;
      Moved(ps, x);
      var rest := ps[..x] + ps[x + 1..];
      qs := rest + [ps[x]];
      if DecodeDraft(types, h + Joined(qs) + tail) == Ok((tag, d)) {
        LastWins(types, h, rest, ps[x], tail, tag, d, if x == j then w else v);
      }
    }
  }

  /**
    Exactly when the order matters: a map that decodes does so alike in every order of its pairs if and
    only if wherever a key that is read comes twice its pairs agree.
   */
  lemma OrderMattersIff(types: byte -> Option<seq<Shape>>, h: Bytes, ps: seq<Pair>, tail: Bytes, tag: byte, d: Draft)
    requires MapHead(h, |ps|) && AllWellFormed(ps) && types(tag).Some? && DecodeDraft(types, h + Joined(ps) + tail) == Ok((tag, d))
    ensures Agree(types(tag).value, ps) <==>
      forall qs :: Permutes(ps, qs) ==> DecodeDraft(types, h + Joined(qs) + tail) == Ok((tag, d))
  {
    hide WellFormed, KeyOf, MapHead, Joined, DecodeDraft, Agreed, Permutes;
    var shapes := types(tag).value;
    if Agree(shapes, ps) {
      forall qs | Permutes(ps, qs) ensures DecodeDraft(types, h + Joined(qs) + tail) == Ok((tag, d)) {
        PermutedHolds(ps, qs);
        OrderDoesNotMatter(types, h, ps, tail, h, qs, tail, tag, d);
      }
    } else {
      var p, q :| p in ps && q in ps && !Agreed(shapes, p, q);
      var i :| 0 <= i < |ps| && ps[i] == p;
      var j :| 0 <= j < |ps| && ps[j] == q;
      var qs := Disagreement(types, h, ps, tail, tag, d, i, j);
    }
  }

  // ------------------------------------------------------------------------
  // Everything that decodes is a map of well-formed pairs
  // ------------------------------------------------------------------------

  lemma ValueIsOneItem(shapes: seq<Shape>, key: byte, s: Bytes)
    requires ReadValue(shapes, key, s).Ok?
    ensures SkipItems(s, 1) == Some(ReadValue(shapes, key, s).value.1)
  {
    if ShapeOf(shapes, key).Some? {
      ShapeIsOneItem(ShapeOf(shapes, key).value, key, s, []);
      hide ReadShape, SkipItems;
    }
  }

  lemma {:induction false} PairsSplit(shapes: seq<Shape>, n: nat, s: Bytes, draft: Draft) returns (ps: seq<Pair>, tail: Bytes)
    requires ReadPairs(shapes, n, s, draft).Ok?
    ensures |ps| == n && AllWellFormed(ps) && s == Joined(ps) + tail
    decreases n
  {
    hide ReadValue, ReadUnsigned, SkipItems;
    if n == 0 {
      ps, tail := [], s;
    } else {
      UnsignedIsLocal(s, 0xFF, []);
      var (key, rest) := ReadUnsigned(s, 0xFF).value;
      var (v, after) := ReadValue(shapes, key, rest).value;
      ValueIsOneItem(shapes, key, rest);
      SkipIsLocal(rest, 1, []);
      var p := Pair(Taken(s, rest), Taken(rest, after));
      assert p.key + [] == p.key && p.value + [] == p.value;
      var more;
      more, tail := PairsSplit(shapes, n - 1, after, Assign(draft, key, v));
      ps := [p] + more;
      assert s == p.key + (p.value + after);
    }
  }

  lemma HeadSplits(input: Bytes) returns (h: Bytes)
    requires MapLength(input).Ok?
    ensures MapHead(h, MapLength(input).value.0) && input == h + MapLength(input).value.1
  {
    var rest := MapLength(input).value.1;
    HeadIsLocal(input, []);
    h := Taken(input, rest);
    assert h + [] == h;
  }

  /** Every input that decodes is such a map, so the law above decides for each. */
  lemma DecodableSplits(types: byte -> Option<seq<Shape>>, input: Bytes) returns (h: Bytes, ps: seq<Pair>, tail: Bytes)
    requires DecodeDraft(types, input).Ok?
    ensures MapHead(h, |ps|) && AllWellFormed(ps) && input == h + Joined(ps) + tail
  {
    var (n, pairs) := MapLength(input).value;
    var tag := ScanPairs(n, pairs).value;
    h := HeadSplits(input);
    hide MapLength, ScanPairs, ReadPairs, MapHead;
    ps, tail := PairsSplit(types(tag).value, n, pairs, map[]);
    assert h + (Joined(ps) + tail) == h + Joined(ps) + tail;
  }

  // ------------------------------------------------------------------------
  // What is decoded is what was encoded
  // ------------------------------------------------------------------------

  /** Fields a message type has, each once and each of its shape. */
  ghost predicate Suits(shapes: seq<Shape>, entries: Entries) {
    && AllWritable(entries)
    && (forall i, j :: 0 <= i < j < |entries| ==> entries[i].0 != entries[j].0)
    && (forall e :: e in entries ==> ShapeOf(shapes, e.0).Some? && Fits(ShapeOf(shapes, e.0).value, e.1))
  }

  lemma EachSuits(shapes: seq<Shape>, entries: Entries)
    requires AllWritable(entries) && forall i, j :: 0 <= i < j < |entries| ==> entries[i].0 != entries[j].0
    requires forall i :: 0 <= i < |entries| ==> ShapeOf(shapes, entries[i].0).Some? && Fits(ShapeOf(shapes, entries[i].0).value, entries[i].1)
    ensures Suits(shapes, entries)
  {
    hide ShapeOf, Fits, Writable;
  }

  /** What is kept of a field: null keeps nothing of a sticky one. */
  function Kept(shape: Shape, v: Value): Option<Value> {
    if shape.Nullable? && shape.sticky && v.VNull? then None else Some(v)
  }

  lemma WrittenReads(shapes: seq<Shape>, key: byte, v: Value)
    requires ShapeOf(shapes, key).Some? && Fits(ShapeOf(shapes, key).value, v) && Writable(v)
    ensures WellFormed(Written(key, v)) && KeyOf(Written(key, v)) == key
    ensures PairValue(shapes, Written(key, v)) == Ok(Kept(ShapeOf(shapes, key).value, v))
  {
    var p := Written(key, v);
    var shape := ShapeOf(shapes, key).value;
    HeadReadsBack(UNSIGNED, key, []);
    ShapeReadsBack(shape, key, v, []);
    assert p.key + [] == p.key && p.value + [] == p.value;
    ShapeIsOneItem(shape, key, p.value, []);
    hide ReadShape, SkipItems, WriteHead, ReadHead, Write;
  }

  lemma TypeReads(tag: byte)
    ensures var p := Written(0, VNum(tag)); WellFormed(p) && KeyOf(p) == 0 && TagOf(p) == Some(tag)
  {
    var p := Written(0, VNum(tag));
    HeadReadsBack(UNSIGNED, 0, []);
    ShapeReadsBack(Unsigned(0xFF), 0, VNum(tag), []);
    assert p.key + [] == p.key && p.value + [] == p.value;
    ShapeIsOneItem(Unsigned(0xFF), 0, p.value, []);
    hide SkipItems, WriteHead, ReadHead, Write;
  }

  /** The draft a message's fields are decoded to. */
  function DraftOf(shapes: seq<Shape>, entries: Entries): Draft
    requires forall e :: e in entries ==> ShapeOf(shapes, e.0).Some?
    decreases |entries|
  {
    if entries == [] then map[]
    else
      var last := entries[|entries| - 1];
      Assign(DraftOf(shapes, entries[..|entries| - 1]), last.0, Kept(ShapeOf(shapes, last.0).value, last.1))
  }

  lemma {:induction false} CollectMore(shapes: seq<Shape>, ps: seq<Pair>, p: Pair, draft: Draft)
    requires AllWellFormed(ps) && WellFormed(p) && Collect(shapes, ps, draft).Ok? && PairValue(shapes, p).Ok?
    ensures AllWellFormed(ps + [p])
    ensures Collect(shapes, ps + [p], draft) == Ok(Assign(Collect(shapes, ps, draft).value, KeyOf(p), PairValue(shapes, p).value))
    decreases |ps|
  {
    hide WellFormed, KeyOf, PairValue;
    assert forall x :: x in ps + [p] ==> x in ps || x == p;
    if ps == [] {
      assert ps + [p] == [p];
      assert Collect(shapes, [p], draft) == Collect(shapes, [], Assign(draft, KeyOf(p), PairValue(shapes, p).value)) by {
        assert [p][1..] == [];
      }
    } else {
      assert (ps + [p])[1..] == ps[1..] + [p] && (ps + [p])[0] == ps[0];
      CollectMore(shapes, ps[1..], p, Assign(draft, KeyOf(ps[0]), PairValue(shapes, ps[0]).value));
    }
  }

  lemma {:induction false} WrittenCollects(shapes: seq<Shape>, tag: byte, entries: Entries)
    requires Suits(shapes, entries)
    ensures AllWellFormed(EncodePairs(tag, entries))
    ensures Collect(shapes, EncodePairs(tag, entries), map[]) == Ok(DraftOf(shapes, entries))
    decreases |entries|
  {
    hide PairValue, WellFormed, KeyOf, Written, TagOf, Fits;
    TypeReads(tag);
    if entries == [] {
      var p := Written(0, VNum(tag));
      assert EncodePairs(tag, entries) == [p];
      UnknownIsSkipped(shapes, p);
      assert [p][1..] == [];
      assert Collect(shapes, [p], map[]) == Collect(shapes, [], map[]);
    } else {
      var front, last := entries[..|entries| - 1], entries[|entries| - 1];
      FrontSuits(shapes, entries);
      EncodePairsMore(tag, entries);
      hide Collect, EncodePairs, Suits;
      WrittenReads(shapes, last.0, last.1);
      WrittenCollects(shapes, tag, front);
      CollectMore(shapes, EncodePairs(tag, front), Written(last.0, last.1), map[]);
    }
  }

  lemma FrontSuits(shapes: seq<Shape>, entries: Entries)
    requires Suits(shapes, entries) && entries != []
    ensures var front, last := entries[..|entries| - 1], entries[|entries| - 1];
      Suits(shapes, front) && Writable(last.1) && ShapeOf(shapes, last.0).Some? && Fits(ShapeOf(shapes, last.0).value, last.1)
  {
    hide Writable, Fits;
    assert entries[|entries| - 1] in entries;
  }

  lemma EncodePairsMore(tag: byte, entries: Entries)
    requires AllWritable(entries) && entries != []
    ensures var front, last := entries[..|entries| - 1], entries[|entries| - 1];
      AllWritable(front) && Writable(last.1) && EncodePairs(tag, entries) == EncodePairs(tag, front) + [Written(last.0, last.1)]
  {
    var front, last := entries[..|entries| - 1], entries[|entries| - 1];
    hide Writable, Written;
    assert last in entries && entries == front + [last];
    WrittenAllMore(front, last);
    hide WrittenAll;
  }

  lemma {:induction false} WrittenAllMore(entries: Entries, e: (byte, Value))
    requires forall x :: x in entries + [e] ==> Writable(x.1)
    ensures Writable(e.1) && (forall x :: x in entries ==> Writable(x.1))
    ensures WrittenAll(entries + [e]) == WrittenAll(entries) + [Written(e.0, e.1)]
  {
    assert e in entries + [e];
    assert forall x :: x in entries ==> x in entries + [e];
    var all := WrittenAll(entries + [e]);
    assert forall i :: 0 <= i < |all| ==> all[i] == (WrittenAll(entries) + [Written(e.0, e.1)])[i];
  }

  lemma EncodedPairsAgree(shapes: seq<Shape>, tag: byte, entries: Entries)
    requires Suits(shapes, entries)
    ensures Agree(shapes, EncodePairs(tag, entries)) && TaggedAt(EncodePairs(tag, entries), 0)
    ensures TagOf(EncodePairs(tag, entries)[0]) == Some(tag)
  {
    TypeReads(tag);
    var ps := EncodePairs(tag, entries);
    forall i | 0 <= i < |ps|
      ensures WellFormed(ps[i]) && KeyOf(ps[i]) == if i == 0 then 0 else entries[i - 1].0
    {
      if i > 0 {
        assert entries[i - 1] in entries;
        WrittenReads(shapes, entries[i - 1].0, entries[i - 1].1);
      }
    }
    hide WellFormed, KeyOf, Written, TagOf, Fits, PairValue;
    forall i, j | 0 <= i < j < |ps| ensures KeyOf(ps[i]) != KeyOf(ps[j]) {
      assert entries[j - 1] in entries && ShapeOf(shapes, entries[j - 1].0).Some?;
    }
    forall p, q | p in ps && q in ps ensures Agreed(shapes, p, q) {
      var i :| 0 <= i < |ps| && ps[i] == p;
      var j :| 0 <= j < |ps| && ps[j] == q;
      assert i == j || KeyOf(p) != KeyOf(q);
    }
  }

  /** A message that is encoded decodes to its tag and its fields, whatever follows it. */
  lemma EncodedDecodes(types: byte -> Option<seq<Shape>>, tag: byte, entries: Entries, tail: Bytes)
    requires types(tag).Some? && Suits(types(tag).value, entries)
    ensures DecodeDraft(types, EncodeMap(tag, entries) + tail) == Ok((tag, DraftOf(types(tag).value, entries)))
  {
    var shapes, ps := types(tag).value, EncodePairs(tag, entries);
    var h := WriteHead(MAP, |entries| + 1);
    HeadReadsBack(MAP, |entries| + 1, []);
    assert h + [] == h;
    EncodedPairsAgree(shapes, tag, entries);
    WrittenCollects(shapes, tag, entries);
    hide ReadHead, WriteHead, WellFormed, KeyOf, TagOf, Collect, DraftOf;
    DecodesPairs(types, h, ps, tail, 0);
  }

  // ------------------------------------------------------------------------
  // What is decoded is of its shape
  // ------------------------------------------------------------------------

  /** Every field decoded is one the message type has, and of its shape. */
  ghost predicate Typed(shapes: seq<Shape>, d: Draft) {
    forall k :: k in d ==> ShapeOf(shapes, k).Some? && Fits(ShapeOf(shapes, k).value, d[k])
  }

  lemma {:induction false} ReadPairsTyped(shapes: seq<Shape>, n: nat, s: Bytes, draft: Draft)
    requires Typed(shapes, draft) && ReadPairs(shapes, n, s, draft).Ok?
    ensures Typed(shapes, ReadPairs(shapes, n, s, draft).value)
    decreases n
  {
    if n > 0 {
      var (key, rest) := ReadUnsigned(s, 0xFF).value;
      var (v, after) := ReadValue(shapes, key, rest).value;
      if ShapeOf(shapes, key).Some? {
        ReadFits(ShapeOf(shapes, key).value, key, rest);
      }
      hide ReadShape, Fits, ReadUnsigned;
      ReadPairsTyped(shapes, n - 1, after, Assign(draft, key, v));
    }
  }

  lemma DraftIsTyped(types: byte -> Option<seq<Shape>>, input: Bytes)
    requires DecodeDraft(types, input).Ok?
    ensures var (tag, d) := DecodeDraft(types, input).value; types(tag).Some? && Typed(types(tag).value, d)
  {
    var (n, pairs) := MapLength(input).value;
    ReadPairsTyped(types(ScanPairs(n, pairs).value).value, n, pairs, map[]);
  }

  /** What the draft of a message's fields holds under the key of one of them. */
  lemma {:induction false} DraftReads(shapes: seq<Shape>, entries: Entries, i: nat)
    requires forall e :: e in entries ==> ShapeOf(shapes, e.0).Some?
    requires forall j, k :: 0 <= j < k < |entries| ==> entries[j].0 != entries[k].0
    requires i < |entries|
    ensures entries[i] in entries
    ensures var d, kept := DraftOf(shapes, entries), Kept(ShapeOf(shapes, entries[i].0).value, entries[i].1);
      if kept.Some? then entries[i].0 in d && d[entries[i].0] == kept.value else entries[i].0 !in d
    decreases |entries|
  {
    var front := entries[..|entries| - 1];
    assert forall e :: e in front ==> e in entries;
    if i < |front| {
      assert front[i] == entries[i];
      DraftReads(shapes, front, i);
    } else {
      DraftIsOfEntries(shapes, front);
    }
  }

  lemma {:induction false} DraftIsOfEntries(shapes: seq<Shape>, entries: Entries)
    requires forall e :: e in entries ==> ShapeOf(shapes, e.0).Some?
    ensures forall k :: k in DraftOf(shapes, entries) ==> exists i :: 0 <= i < |entries| && entries[i].0 == k && entries[i].1 == DraftOf(shapes, entries)[k]
    decreases |entries|
  {
    if entries != [] {
      var front, last := entries[..|entries| - 1], entries[|entries| - 1];
      assert forall e :: e in front ==> e in entries;
      assert last in entries;
      DraftIsOfEntries(shapes, front);
      forall k | k in DraftOf(shapes, entries)
        ensures exists i :: 0 <= i < |entries| && entries[i].0 == k && entries[i].1 == DraftOf(shapes, entries)[k]
      {
        if k == last.0 && Kept(ShapeOf(shapes, k).value, last.1).Some? {
          assert entries[|entries| - 1].0 == k;
        } else {
          var i :| 0 <= i < |front| && front[i].0 == k && front[i].1 == DraftOf(shapes, front)[k];
          assert entries[i] == front[i];
        }
      }
    }
  }

  /** A draft that holds, under the key of one entry, what is kept of it. */
  ghost predicate ReadAt(shapes: seq<Shape>, entries: Entries, d: Draft, i: nat)
    requires i < |entries| && ShapeOf(shapes, entries[i].0).Some?
  {
    match Kept(ShapeOf(shapes, entries[i].0).value, entries[i].1)
    case Some(v) => entries[i].0 in d && d[entries[i].0] == v
    case None => entries[i].0 !in d
  }

  /** A draft of exactly these fields. */
  ghost predicate Mirrors(shapes: seq<Shape>, entries: Entries, d: Draft) {
    && (forall i :: 0 <= i < |entries| ==> ShapeOf(shapes, entries[i].0).Some? && ReadAt(shapes, entries, d, i))
    && (forall k :: k in d ==> exists i :: 0 <= i < |entries| && entries[i].0 == k && entries[i].1 == d[k])
  }

  lemma DraftMirrors(shapes: seq<Shape>, entries: Entries)
    requires Suits(shapes, entries)
    ensures Mirrors(shapes, entries, DraftOf(shapes, entries)) && Typed(shapes, DraftOf(shapes, entries))
  {
    hide Fits, ShapeOf, Kept, DraftOf, Writable;
    forall i | 0 <= i < |entries|
      ensures ShapeOf(shapes, entries[i].0).Some? && ReadAt(shapes, entries, DraftOf(shapes, entries), i)
    {
      DraftReads(shapes, entries, i);
    }
    DraftIsOfEntries(shapes, entries);
  }

  /** A message of a type not among `types` is refused by its tag, whatever its fields. */
  lemma EncodedIsUnknown(types: byte -> Option<seq<Shape>>, shapes: seq<Shape>, tag: byte, entries: Entries, tail: Bytes)
    requires types(tag).None? && Suits(shapes, entries)
    ensures DecodeDraft(types, EncodeMap(tag, entries) + tail) == Err(UnknownType(tag))
  {
    hide ReadHead, WriteHead, WellFormed, KeyOf, TagOf, MapLength, ScanPairs, ReadPairs;
    var ps, h := EncodePairs(tag, entries), WriteHead(MAP, |entries| + 1);
    HeadReadsBack(MAP, |entries| + 1, []);
    assert h + [] == h;
    EncodedPairsAgree(shapes, tag, entries);
    assert h + Joined(ps) + tail == h + (Joined(ps) + tail);
    MapHeadReads(h, |ps|, Joined(ps) + tail);
    ScanFindsTag(ps, 0, tail);
  }
}
