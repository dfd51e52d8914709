/** The codecs as they run: an encoder appending to a buffer, and a decoder moving a cursor over its input. */
module Coders {
  import opened Numbers
  import opened Wrappers
  import opened Wire
  import opened Cbor
  import opened Fields
  import opened MapCodec
  import opened Codec

  lemma CursorMoves(input: Bytes, pos: nat, rest: Bytes)
    requires pos <= |input| && Suffix(input[pos..], rest)
    ensures |rest| <= |input| - pos && input[|input| - |rest|..] == rest
  {
  }

  /** What is read once some values have been, with those before it. */
  ghost function Prefixed(vs: seq<Value>, read: Read<seq<Value>>): Read<seq<Value>> {
    match read
    case Ok((ws, rest)) => Ok((vs + ws, rest))
    case Err(e) => Err(e)
  }

  lemma PrefixedMore(vs: seq<Value>, v: Value, read: Read<seq<Value>>)
    ensures Prefixed(vs, Prefixed([v], read)) == Prefixed(vs + [v], read)
    ensures Prefixed([], read) == read
  {
    if read.Ok? {
      assert vs + ([v] + read.value.0) == vs + [v] + read.value.0;
      assert [] + read.value.0 == read.value.0;
    }
  }

  class Decoder {
    const input: Bytes
    var pos: nat

    ghost predicate Valid()
      reads this
    {
      pos <= |input|
    }

    function Rest(): Bytes
      requires Valid()
      reads this
    {
      input[pos..]
    }

    constructor (input: Bytes)
      ensures Valid() && this.input == input && Rest() == input
    {
      this.input, pos := input, 0;
    }

    method MoveTo(rest: Bytes)
      requires Valid() && Suffix(Rest(), rest)
      modifies this`pos
      ensures Valid() && Rest() == rest && pos == |input| - |rest|
    {
      CursorMoves(input, pos, rest);
      pos := |input| - |rest|;
    }

    /** A number of at most `max`. */
    method Number(max: u64) returns (n: Option<u64>)
      requires Valid()
      modifies this`pos
      ensures Valid()
      ensures match ReadUnsigned(old(Rest()), max)
        case Some((m, rest)) => n == Some(m) && m <= max && Rest() == rest
        case None => n.None?
    {
      var read := ReadUnsigned(Rest(), max);
      if read.None? {
        return None;
      }
      UnsignedIsLocal(Rest(), max, []);
      MoveTo(read.value.1);
      return Some(read.value.0);
    }

    /** How many items an array holds, or pairs a map. */
    method Length(major: nat) returns (n: Result<nat, Error>)
      requires Valid()
      modifies this`pos
      ensures Valid()
      ensures match ReadLength(old(Rest()), major)
        case Some((Some(m), rest)) => n == Ok(m) && Rest() == rest
        case Some((None, _)) => n == Err(IndefiniteLength)
        case None => n == Err(Malformed)
    {
      HeadConsumes(Rest());
      var read := ReadLength(Rest(), major);
      if read.None? {
        return Err(Malformed);
      }
      MoveTo(read.value.1);
      return if read.value.0.None? then Err(IndefiniteLength) else Ok(read.value.0.value);
    }

    /** Pass over one item, and everything inside it. */
    method Skip() returns (ok: bool)
      requires Valid()
      modifies this`pos
      ensures Valid()
      ensures match SkipItems(old(Rest()), 1)
        case Some(rest) => ok && Rest() == rest
        case None => !ok
    {
      hide ReadHead, ValidUtf8, Inner;
      var left: nat := 1;
      while left > 0
        invariant Valid() && SkipItems(Rest(), left) == SkipItems(old(Rest()), 1)
        decreases |input| - pos
      {
        var head := ReadHead(Rest());
        HeadConsumes(Rest());
        if head.None? || head.value.arg.None? {
          return false;
        }
        var Head(major, arg, rest) := head.value;
        MoveTo(rest);
        if major == BYTES || major == TEXT {
          if arg.value > |rest| || (major == TEXT && !ValidUtf8(rest[..arg.value])) {
            return false;
          }
          MoveBy(arg.value);
          left := left - 1;
        } else {
          left := left - 1 + Inner(major, arg.value);
        }
      }
      return true;
    }

    method MoveBy(n: nat)
      requires Valid() && n <= |Rest()|
      modifies this`pos
      ensures Valid() && pos == old(pos) + n && Rest() == old(Rest())[n..]
    {
      pos := pos + n;
    }

    /** A value of the given shape. */
    method Field(shape: Shape, key: byte) returns (v: Result<Value, Error>)
      requires Valid()
      modifies this`pos
      ensures Valid()
      ensures match ReadShape(shape, key, old(Rest()))
        case Ok((x, rest)) => v == Ok(x) && Rest() == rest
        case Err(e) => v == Err(e)
      decreases shape, 1
    {
      if Leaf(shape) {
        v := Plain(shape, key);
        return;
      }
      match shape
      case Nullable(inner, _) =>
        if pos < |input| && input[pos] == NULL {
          pos := pos + 1;
          return Ok(VNull);
        }
        v := Field(inner, key);
      case Tuple(parts, lax) =>
        var n := Length(ARRAY);
        if n.Err? {
          return Err(n.error);
        }
        if n.value != |parts| {
          return Err(if lax then Malformed else BadLength(key, |parts|, n.value));
        }
        v := Parts(shape, key);
      case ListOf(element, cap) =>
        var n := Length(ARRAY);
        if n.Err? {
          return Err(n.error);
        }
        if cap.Some? && n.value > cap.value {
          return Err(TooMany(n.value));
        }
        v := Elements(shape, n.value, key);
    }

    /** The parts of a tuple, one after another. */
    method Parts(shape: Shape, key: byte) returns (v: Result<Value, Error>)
      requires Valid() && shape.Tuple?
      modifies this`pos
      ensures Valid()
      ensures match ReadParts(shape, 0, key, old(Rest()))
        case Ok((vs, rest)) => v == Ok(VSeq(vs)) && Rest() == rest
        case Err(e) => v == Err(e)
      decreases shape, 0
    {
      hide ReadShape;
      var vs: seq<Value> := [];
      var i := 0;
      PrefixedMore([], VNull, ReadParts(shape, 0, key, Rest()));
      while i < |shape.parts|
        invariant Valid() && i <= |shape.parts|
        invariant Prefixed(vs, ReadParts(shape, i, key, Rest())) == ReadParts(shape, 0, key, old(Rest()))
      {
        var part := Field(shape.parts[i], key);
        if part.Err? {
          return Err(part.error);
        }
        PrefixedMore(vs, part.value, ReadParts(shape, i + 1, key, Rest()));
        vs := vs + [part.value];
        i := i + 1;
      }
      assert vs + [] == vs;
      return Ok(VSeq(vs));
    }

    /** The next `n` elements of a list. */
    method Elements(shape: Shape, n: nat, key: byte) returns (v: Result<Value, Error>)
      requires Valid() && shape.ListOf?
      modifies this`pos
      ensures Valid()
      ensures match ReadElements(shape, n, key, old(Rest()))
        case Ok((vs, rest)) => v == Ok(VSeq(vs)) && Rest() == rest
        case Err(e) => v == Err(e)
      decreases shape, 0
    {
      hide ReadShape;
      var vs: seq<Value> := [];
      var i := 0;
      PrefixedMore([], VNull, ReadElements(shape, n, key, Rest()));
      while i < n
        invariant Valid() && i <= n
        invariant Prefixed(vs, ReadElements(shape, n - i, key, Rest())) == ReadElements(shape, n, key, old(Rest()))
      {
        var next := Field(shape.element, key);
        if next.Err? {
          return Err(next.error);
        }
        PrefixedMore(vs, next.value, ReadElements(shape, n - i - 1, key, Rest()));
        vs := vs + [next.value];
        i := i + 1;
      }
      assert vs + [] == vs;
      return Ok(VSeq(vs));
    }

    /** A value that holds no other. */
    method Plain(shape: Shape, key: byte) returns (v: Result<Value, Error>)
      requires Valid() && Leaf(shape)
      modifies this`pos
      ensures Valid()
      ensures match ReadShape(shape, key, old(Rest()))
        case Ok((x, rest)) => v == Ok(x) && Rest() == rest
        case Err(e) => v == Err(e)
    {
      var read := ReadShape(shape, key, Rest());
      if read.Err? {
        return Err(read.error);
      }
      LeafIsOneItem(shape, key, Rest(), []);
      MoveTo(read.value.1);
      return Ok(read.value.0);
    }
  }

  // ------------------------------------------------------------------------
  // Decoding a map
  // ------------------------------------------------------------------------

  /** First pass: walk the map past every pair before key 0, and read the tag. */
  method ScanType(input: Bytes) returns (tag: Result<byte, Error>)
    ensures tag == match MapLength(input)
      case Err(e) => Err(e)
      case Ok((n, pairs)) => ScanPairs(n, pairs)
  {
    hide ScanPairs;
    var d := new Decoder(input);
    var n := d.Length(MAP);
    if n.Err? {
      return Err(n.error);
    }
    tag := ScanFor(d, n.value);
  }

  method ScanFor(d: Decoder, n: nat) returns (tag: Result<byte, Error>)
    requires d.Valid()
    modifies d`pos
    ensures d.Valid() && tag == ScanPairs(n, old(d.Rest()))
  {
    hide ReadUnsigned, SkipItems;
    var i := 0;
    while i < n
      invariant d.Valid() && i <= n && ScanPairs(n - i, d.Rest()) == ScanPairs(n, old(d.Rest()))
    {
      var key := d.Number(0xFF);
      if key.None? {
        return Err(Malformed);
      }
      if key.value == 0 {
        var read := d.Number(0xFF);
        return if read.None? then Err(Malformed) else Ok(read.value);
      }
      var ok := d.Skip();
      if !ok {
        return Err(Malformed);
      }
      i := i + 1;
    }
    return Err(MissingType);
  }

  /** Both passes over a map: its tag, and its fields. */
  method DecodeFields(types: byte -> Option<seq<Shape>>, input: Bytes) returns (r: Result<(byte, Draft), Error>)
    ensures r == DecodeDraft(types, input)
  {
    var tag := ScanType(input);
    var d := new Decoder(input);
    var n := d.Length(MAP);
    if n.Err? {
      return Err(n.error);
    }
    if tag.Err? {
      return Err(tag.error);
    }
    var known := types(tag.value);
    if known.None? {
      return Err(UnknownType(tag.value));
    }
    var read := ReadFields(d, known.value, n.value);
    return match read case Ok(draft) => Ok((tag.value, draft)) case Err(e) => Err(e);
  }

  /** Second pass: every pair in turn, its value read if its key is known, and otherwise skipped. */
  method ReadFields(d: Decoder, shapes: seq<Shape>, n: nat) returns (r: Result<Draft, Error>)
    requires d.Valid()
    modifies d`pos
    ensures d.Valid() && r == ReadPairs(shapes, n, old(d.Rest()), map[])
  {
    hide ReadUnsigned, ReadShape, SkipItems;
    var draft: Draft := map[];
    var i := 0;
    while i < n
      invariant d.Valid() && i <= n
      invariant ReadPairs(shapes, n - i, d.Rest(), draft) == ReadPairs(shapes, n, old(d.Rest()), map[])
    {
      var key := d.Number(0xFF);
      if key.None? {
        return Err(Malformed);
      }
      var shape := ShapeOf(shapes, key.value);
      if shape.None? {
        var ok := d.Skip();
        if !ok {
          return Err(Malformed);
        }
      } else {
        var v := d.Field(shape.value, key.value);
        if v.Err? {
          return Err(v.error);
        }
        if !(shape.value.Nullable? && shape.value.sticky && v.value.VNull?) {
          draft := draft[key.value := v.value];
        }
      }
      i := i + 1;
    }
    return Ok(draft);
  }

  method DecodeMessage(input: Bytes) returns (r: Result<Message, Error>)
    ensures r == Decode(input)
  {
    var decoded := DecodeFields(WireFields, input);
    if decoded.Err? {
      return Err(decoded.error);
    }
    DraftIsTyped(WireFields, input);
    return Finish(decoded.value.0, decoded.value.1);
  }

  // ------------------------------------------------------------------------
  // Encoding
  // ------------------------------------------------------------------------

  class Encoder {
    var out: Bytes

    constructor (out: Bytes)
      ensures this.out == out
    {
      this.out := out;
    }

    method Put(v: Value)
      requires Writable(v)
      modifies this
      ensures out == old(out) + Write(v)
      decreases v
    {
      hide WriteHead;
      match v
      case VNum(n) => out := out + WriteHead(UNSIGNED, n);
      case VBytes(b) => out := out + WriteHead(BYTES, |b|) + b;
      case VText(t) => out := out + WriteHead(TEXT, |t|) + t;
      case VFlag(f) => out := out + [if f then TRUE else FALSE];
      case VNull => out := out + [NULL];
      case VSeq(vs) =>
        out := out + WriteHead(ARRAY, |vs|);
        var i := 0;
        while i < |vs|
          invariant 0 <= i <= |vs| && out + WriteAll(vs[i..]) == old(out) + WriteHead(ARRAY, |vs|) + WriteAll(vs)
        {
          WriteAllStep(vs, i, out);
          Put(vs[i]);
          i := i + 1;
        }
        assert vs[i..] == [] && out + [] == out;
    }

    /** A message's map: how many pairs, the tag, and each field under its key. */
    method PutMap(tag: byte, entries: Entries)
      requires AllWritable(entries)
      modifies this
      ensures out == old(out) + EncodeMap(tag, entries)
    {
      hide WriteHead, Write, Writable;
      ghost var pairs := EncodePairs(tag, entries);
      var head := WriteHead(MAP, |entries| + 1);
      ghost var start := out + head;
      out := out + head;
      assert pairs[0..] == pairs;
      assert Writable(VNum(tag)) by { NumbersWritable(tag); }
      JoinedStep(pairs, 0, Written(0, VNum(tag)), out);
      out := out + WriteHead(UNSIGNED, 0);
      Put(VNum(tag));
      var i := 0;
      while i < |entries|
        invariant 0 <= i <= |entries| && out + Joined(pairs[i + 1..]) == start + Joined(pairs)
      {
        var (key, v) := entries[i];
        assert entries[i] in entries;
        JoinedStep(pairs, i + 1, Written(key, v), out);
        out := out + WriteHead(UNSIGNED, key);
        Put(v);
        i := i + 1;
      }
      assert pairs[i + 1..] == [] && out + [] == out;
    }
  }

  lemma NumbersWritable(n: u64)
    ensures Writable(VNum(n))
  {
  }

  lemma WriteAllStep(vs: seq<Value>, i: nat, out: Bytes)
    requires i < |vs| && forall k :: 0 <= k < |vs| ==> Writable(vs[k])
    ensures out + WriteAll(vs[i..]) == out + Write(vs[i]) + WriteAll(vs[i + 1..])
  {
    hide Writable, Write;
    assert vs[i..][0] == vs[i] && vs[i..][1..] == vs[i + 1..];
    assert out + (Write(vs[i]) + WriteAll(vs[i + 1..])) == out + Write(vs[i]) + WriteAll(vs[i + 1..]);
  }

  lemma JoinedStep(pairs: seq<Pair>, i: nat, p: Pair, out: Bytes)
    requires i < |pairs| && pairs[i] == p
    ensures out + Joined(pairs[i..]) == out + p.key + p.value + Joined(pairs[i + 1..])
  {
    var more := pairs[i..];
    assert more[0] == p && more[1..] == pairs[i + 1..];
    assert out + (p.key + p.value + Joined(pairs[i + 1..])) == out + p.key + p.value + Joined(pairs[i + 1..]);
  }

  /** Encode a message as CBOR, appended to `before`. */
  method EncodeMessage(msg: Message, before: Bytes) returns (out: Bytes)
    requires Sized(msg)
    ensures out == before + Encoded(msg)
  {
    var e := new Encoder(before);
    e.PutMap(TagFor(msg), EntriesOf(msg));
    out := e.out;
  }
}
