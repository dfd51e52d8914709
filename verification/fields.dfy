/**
  The typed values the codecs read and write: each field's shape, how a value of that shape is read
  from the front of a byte string and with which error it is refused, and how it is written.
 */
module Fields {
  import opened Numbers
  import opened Wrappers
  import opened Wire
  import opened Cbor

  /** Why bytes were not decoded, or a message not encoded; `TooMany` is of updates, or of bindings. */
  datatype Error =
    | Malformed
    | UnknownType(tag: byte)
    | MissingType
    | MissingField(msg: byte, key: byte)
    | BadLength(at: byte, expected: nat, got: nat)
    | IndefiniteLength
    | EmptyMintList
    | NoChannelUpdates
    | TooMany(count: nat)
    | UnknownIdentity(name: Text)
    | SubjectLength(length: nat)
    | FrameTooLong(length: nat)

  datatype Value = VNum(n: u64) | VBytes(b: Bytes) | VText(t: Text) | VFlag(f: bool) | VNull | VSeq(vs: seq<Value>)

  /**
    What a field may hold. A tuple of the wrong size is a `BadLength`, or merely malformed where `lax`;
    null sets a `Nullable` field to nothing, or leaves it as it was where `sticky`.
   */
  datatype Shape =
    | Unsigned(max: u64)
    | Fixed(size: nat)
    | Blob
    | Str
    | Flag
    | Word(known: set<Text>)
    | Between(least: nat, most: nat)
    | Nullable(inner: Shape, sticky: bool)
    | Tuple(parts: seq<Shape>, lax: bool)
    | ListOf(element: Shape, cap: Option<nat>)

  type Read<T> = Result<(T, Bytes), Error>

  // ------------------------------------------------------------------------
  // Reading
  // ------------------------------------------------------------------------

  function ReadShape(shape: Shape, key: byte, s: Bytes): Read<Value>
    decreases shape, 2, 0
  {
    match shape
    case Unsigned(max) =>
      var read := ReadUnsigned(s, max);
      if read.None? then Err(Malformed) else Ok((VNum(read.value.0), read.value.1))
    case Fixed(size) =>
      var read := ReadString(s, BYTES);
      if read.None? then Err(Malformed)
      else if |read.value.0| != size then Err(BadLength(key, size, |read.value.0|))
      else Ok((VBytes(read.value.0), read.value.1))
    case Blob =>
      var read := ReadString(s, BYTES);
      if read.None? then Err(Malformed) else Ok((VBytes(read.value.0), read.value.1))
    case Str =>
      var read := ReadText(s);
      if read.None? then Err(Malformed) else Ok((VText(read.value.0), read.value.1))
    case Flag =>
      var read := ReadBool(s);
      if read.None? then Err(Malformed) else Ok((VFlag(read.value.0), read.value.1))
    case Word(known) =>
      var read := ReadText(s);
      if read.None? then Err(Malformed)
      else if read.value.0 !in known then Err(UnknownIdentity(read.value.0))
      else Ok((VText(read.value.0), read.value.1))
    case Between(least, most) =>
      var read := ReadString(s, BYTES);
      if read.None? then Err(Malformed)
      else if !(least <= |read.value.0| <= most) then Err(SubjectLength(|read.value.0|))
      else Ok((VBytes(read.value.0), read.value.1))
    case Nullable(inner, _) =>
      if s != [] && s[0] == NULL then Ok((VNull, s[1..])) else ReadShape(inner, key, s)
    case Tuple(parts, lax) =>
      (match ReadLength(s, ARRAY)
       case None => Err(Malformed)
       case Some((None, _)) => Err(IndefiniteLength)
       case Some((Some(n), rest)) =>
         if n != |parts| then Err(if lax then Malformed else BadLength(key, |parts|, n))
         else
           match ReadParts(shape, 0, key, rest)
           case Err(e) => Err(e)
           case Ok((vs, after)) => Ok((VSeq(vs), after)))
    case ListOf(element, cap) =>
      (match ReadLength(s, ARRAY)
       case None => Err(Malformed)
       case Some((None, _)) => Err(IndefiniteLength)
       case Some((Some(n), rest)) =>
         if cap.Some? && n > cap.value then Err(TooMany(n))
         else
           match ReadElements(shape, n, key, rest)
           case Err(e) => Err(e)
           case Ok((vs, after)) => Ok((VSeq(vs), after)))
  }

  /** The parts of a tuple, from the `i`th on. */
  function ReadParts(shape: Shape, i: nat, key: byte, s: Bytes): Read<seq<Value>>
    requires shape.Tuple? && i <= |shape.parts|
    decreases shape, 1, |shape.parts| - i
  {
    if i == |shape.parts| then Ok(([], s))
    else
      match ReadShape(shape.parts[i], key, s)
      case Err(e) => Err(e)
      case Ok((v, rest)) =>
        match ReadParts(shape, i + 1, key, rest)
        case Err(e) => Err(e)
        case Ok((vs, after)) => Ok(([v] + vs, after))
  }

  /** The next `n` elements of a list. */
  function ReadElements(shape: Shape, n: nat, key: byte, s: Bytes): Read<seq<Value>>
    requires shape.ListOf?
    decreases shape, 1, n
  {
    if n == 0 then Ok(([], s))
    else
      match ReadShape(shape.element, key, s)
      case Err(e) => Err(e)
      case Ok((v, rest)) =>
        match ReadElements(shape, n - 1, key, rest)
        case Err(e) => Err(e)
        case Ok((vs, after)) => Ok(([v] + vs, after))
  }

  // ------------------------------------------------------------------------
  // Writing
  // ------------------------------------------------------------------------

  /** What is short enough for its length to be written at all: everything that fits in memory. */
  predicate Writable(v: Value) {
    match v
    case VBytes(b) => |b| <= U64_MAX
    case VText(t) => |t| <= U64_MAX
    case VSeq(vs) => |vs| <= U64_MAX && forall i :: 0 <= i < |vs| ==> Writable(vs[i])
    case _ => true
  }

  function Write(v: Value): Bytes
    requires Writable(v)
  {
    match v
    case VNum(n) => WriteHead(UNSIGNED, n)
    case VBytes(b) => WriteHead(BYTES, |b|) + b
    case VText(t) => WriteHead(TEXT, |t|) + t
    case VFlag(f) => [if f then TRUE else FALSE]
    case VNull => [NULL]
    case VSeq(vs) => WriteHead(ARRAY, |vs|) + WriteAll(vs)
  }

  function WriteAll(vs: seq<Value>): Bytes
    requires forall i :: 0 <= i < |vs| ==> Writable(vs[i])
  {
    if vs == [] then [] else Write(vs[0]) + WriteAll(vs[1..])
  }

  predicate Fits(shape: Shape, v: Value) {
    match shape
    case Unsigned(max) => v.VNum? && v.n <= max
    case Fixed(size) => v.VBytes? && |v.b| == size
    case Blob => v.VBytes?
    case Str => v.VText?
    case Flag => v.VFlag?
    case Word(known) => v.VText? && v.t in known
    case Between(least, most) => v.VBytes? && least <= |v.b| <= most
    case Nullable(inner, _) => v.VNull? || Fits(inner, v)
    case Tuple(parts, _) => v.VSeq? && |v.vs| == |parts| && forall i :: 0 <= i < |parts| ==> Fits(parts[i], v.vs[i])
    case ListOf(element, cap) =>
      v.VSeq? && (cap.Some? ==> |v.vs| <= cap.value) && forall i :: 0 <= i < |v.vs| ==> Fits(element, v.vs[i])
  }

  // ------------------------------------------------------------------------
  // A value read is one item, whatever follows it
  // ------------------------------------------------------------------------

  /** `read`, from `s`, took exactly what skipping `n` items does, and would read the same before `q`. */
  ghost predicate Took<T(!new)>(s: Bytes, n: nat, v: T, r: Bytes, q: Bytes, again: Read<T>) {
    Suffix(s, r) && SkipItems(s, n) == Some(r) && again == Ok((v, q))
  }

  ghost function Before(s: Bytes, r: Bytes, q: Bytes): Bytes {
    if Suffix(s, r) then Taken(s, r) + q else []
  }

  lemma StringIsOneItem(s: Bytes, major: nat)
    requires (major == BYTES && ReadString(s, BYTES).Some?) || (major == TEXT && ReadText(s).Some?)
    ensures SkipItems(s, 1) == Some(ReadString(s, major).value.1)
  {
    var h := ReadHead(s).value;
    HeadConsumes(s);
    var b := h.rest[..h.arg.value];
    assert h.rest == b + h.rest[h.arg.value..];
    SkipString(s, 1, major, b, h.rest[h.arg.value..]);
  }

  lemma HeadIsOneItem(s: Bytes)
    requires ReadHead(s).Some? && ReadHead(s).value.arg.Some? && ReadHead(s).value.major in {0, 7}
    ensures SkipItems(s, 1) == Some(ReadHead(s).value.rest)
  {
    SkipOther(s, 1, ReadHead(s).value.major, ReadHead(s).value.arg.value, ReadHead(s).value.rest);
  }

  lemma LengthThenItems(s: Bytes, n: nat)
    requires ReadLength(s, ARRAY).Some? && ReadLength(s, ARRAY).value.0 == Some(n)
    ensures SkipItems(s, 1) == SkipItems(ReadLength(s, ARRAY).value.1, n)
  {
    SkipOther(s, 1, ARRAY, n, ReadLength(s, ARRAY).value.1);
  }

  /** The shapes that hold no other. */
  predicate Leaf(shape: Shape) {
    !shape.Nullable? && !shape.Tuple? && !shape.ListOf?
  }

  lemma LeafIsOneItem(shape: Shape, key: byte, s: Bytes, q: Bytes)
    requires Leaf(shape) && ReadShape(shape, key, s).Ok?
    ensures var (v, r) := ReadShape(shape, key, s).value; Took(s, 1, v, r, q, ReadShape(shape, key, Before(s, r, q)))
  {
    hide SkipItems, ValidUtf8;
    match shape
    case Unsigned(max) =>
      HeadConsumes(s);
      HeadIsLocal(s, q);
      HeadIsOneItem(s);
      hide ReadHead;
    case Flag =>
      assert ReadHead(s) == Some(Head(7, Some(s[0] % 0x20), s[1..]));
      HeadIsOneItem(s);
      TailIsSuffix(s, 1);
      assert ([s[0]] + q)[1..] == q;
      assert s[..1] == [s[0]];
    case Str =>
      StringIsLocal(s, TEXT, q);
      StringIsOneItem(s, TEXT);
      hide ReadString;
    case Word(_) =>
      StringIsLocal(s, TEXT, q);
      StringIsOneItem(s, TEXT);
      hide ReadString;
    case _ =>
      StringIsLocal(s, BYTES, q);
      StringIsOneItem(s, BYTES);
      hide ReadString;
  }

  lemma {:induction false} ShapeIsOneItem(shape: Shape, key: byte, s: Bytes, q: Bytes)
    requires ReadShape(shape, key, s).Ok?
    ensures var (v, r) := ReadShape(shape, key, s).value; Took(s, 1, v, r, q, ReadShape(shape, key, Before(s, r, q)))
    decreases shape, 2, 0
  {
    var (v, r) := ReadShape(shape, key, s).value;
    if Leaf(shape) {
      LeafIsOneItem(shape, key, s, q);
    } else if shape.Nullable? {
      NullableIsOneItem(shape, key, s, q);
    } else {
      var (length, rest) := ReadLength(s, ARRAY).value;
      HeadConsumes(s);
      LengthThenItems(s, length.value);
      if shape.Tuple? {
        PartsAreItems(shape, 0, key, rest, q);
      } else {
        ElementsAreItems(shape, length.value, key, rest, q);
      }
      TakenThen(s, rest, r, q);
      HeadIsLocal(s, Taken(rest, r) + q);
      hide ReadHead, SkipItems;
    }
  }

  lemma {:induction false} NullableIsOneItem(shape: Shape, key: byte, s: Bytes, q: Bytes)
    requires shape.Nullable? && ReadShape(shape, key, s).Ok?
    ensures var (v, r) := ReadShape(shape, key, s).value; Took(s, 1, v, r, q, ReadShape(shape, key, Before(s, r, q)))
    decreases shape, 1, 0
  {
    var (v, r) := ReadShape(shape, key, s).value;
    if s != [] && s[0] == NULL {
      assert ReadHead(s) == Some(Head(7, Some(22), s[1..]));
      HeadIsOneItem(s);
      TailIsSuffix(s, 1);
      assert s[..1] == [s[0]] && ([s[0]] + q)[1..] == q;
      hide SkipItems, ReadHead;
    } else {
      ShapeIsOneItem(shape.inner, key, s, q);
      SkippedIsShorter(s);
      assert (Taken(s, r) + q)[0] == s[0];
    }
  }

  lemma SkippedIsShorter(s: Bytes)
    requires SkipItems(s, 1).Some?
    ensures |SkipItems(s, 1).value| < |s|
  {
    SkipIsLocal(s, 1, []);
  }

  lemma PartsUnfold(shape: Shape, i: nat, key: byte, s: Bytes, v: Value, rest: Bytes, vs: seq<Value>, r: Bytes)
    requires shape.Tuple? && i < |shape.parts| && ReadShape(shape.parts[i], key, s) == Ok((v, rest))
    requires ReadParts(shape, i + 1, key, rest) == Ok((vs, r))
    ensures ReadParts(shape, i, key, s) == Ok(([v] + vs, r))
  {
    hide ReadShape;
  }

  lemma ElementsUnfold(shape: Shape, n: nat, key: byte, s: Bytes, v: Value, rest: Bytes, vs: seq<Value>, r: Bytes)
    requires shape.ListOf? && n > 0 && ReadShape(shape.element, key, s) == Ok((v, rest))
    requires ReadElements(shape, n - 1, key, rest) == Ok((vs, r))
    ensures ReadElements(shape, n, key, s) == Ok(([v] + vs, r))
  {
    hide ReadShape;
  }

  /** One item taken, and then some more. */
  lemma TookThen(s: Bytes, rest: Bytes, r: Bytes, more: nat, q: Bytes)
    requires Suffix(s, rest) && SkipItems(s, 1) == Some(rest) && Suffix(rest, r) && SkipItems(rest, more) == Some(r)
    ensures Suffix(s, r) && SkipItems(s, 1 + more) == Some(r)
    ensures Before(s, r, q) == Before(s, rest, Before(rest, r, q))
  {
    SkipMore(s, 1, more);
    TakenThen(s, rest, r, q);
    hide SkipItems;
  }

  lemma NothingTaken(s: Bytes, q: Bytes)
    ensures Suffix(s, s) && SkipItems(s, 0) == Some(s) && Before(s, s, q) == q
  {
  }

  lemma {:induction false} PartsAreItems(shape: Shape, i: nat, key: byte, s: Bytes, q: Bytes)
    requires shape.Tuple? && i <= |shape.parts| && ReadParts(shape, i, key, s).Ok?
    ensures var (vs, r) := ReadParts(shape, i, key, s).value;
      Took(s, |shape.parts| - i, vs, r, q, ReadParts(shape, i, key, Before(s, r, q)))
    decreases shape, 1, |shape.parts| - i
  {
    hide ReadShape, SkipItems, Suffix, Before;
    if i == |shape.parts| {
      NothingTaken(s, q);
    } else {
      var (v, rest) := ReadShape(shape.parts[i], key, s).value;
      var (vs, r) := ReadParts(shape, i + 1, key, rest).value;
      PartsUnfold(shape, i, key, s, v, rest, vs, r);
      hide ReadParts;
      PartsAreItems(shape, i + 1, key, rest, q);
      var following := Before(rest, r, q);
      ShapeIsOneItem(shape.parts[i], key, s, following);
      TookThen(s, rest, r, |shape.parts| - i - 1, q);
      PartsUnfold(shape, i, key, Before(s, r, q), v, following, vs, q);
    }
  }

  lemma {:induction false} ElementsAreItems(shape: Shape, n: nat, key: byte, s: Bytes, q: Bytes)
    requires shape.ListOf? && ReadElements(shape, n, key, s).Ok?
    ensures var (vs, r) := ReadElements(shape, n, key, s).value;
      Took(s, n, vs, r, q, ReadElements(shape, n, key, Before(s, r, q)))
    decreases shape, 1, n
  {
    hide ReadShape, SkipItems, Suffix, Before;
    if n == 0 {
      NothingTaken(s, q);
    } else {
      var (v, rest) := ReadShape(shape.element, key, s).value;
      var (vs, r) := ReadElements(shape, n - 1, key, rest).value;
      ElementsUnfold(shape, n, key, s, v, rest, vs, r);
      hide ReadElements;
      ElementsAreItems(shape, n - 1, key, rest, q);
      var following := Before(rest, r, q);
      ShapeIsOneItem(shape.element, key, s, following);
      TookThen(s, rest, r, n - 1, q);
      ElementsUnfold(shape, n, key, Before(s, r, q), v, following, vs, q);
    }
  }

  // ------------------------------------------------------------------------
  // What is written is read back
  // ------------------------------------------------------------------------

  lemma StringReadsBack(major: nat, b: Bytes, q: Bytes)
    requires major < 8 && |b| <= U64_MAX
    ensures ReadString(WriteHead(major, |b|) + b + q, major) == Some((b, q))
  {
    HeadReadsBack(major, |b|, b + q);
    assert WriteHead(major, |b|) + b + q == WriteHead(major, |b|) + (b + q);
    assert (b + q)[..|b|] == b && (b + q)[|b|..] == q;
  }

  /** Nothing but null starts as null does. */
  lemma OnlyNullStartsNull(v: Value, q: Bytes)
    requires Writable(v) && !v.VNull?
    ensures Write(v) + q != [] && (Write(v) + q)[0] != NULL
  {
  }

  lemma LeafReadsBack(shape: Shape, key: byte, v: Value, q: Bytes)
    requires Leaf(shape) && Fits(shape, v) && Writable(v)
    ensures ReadShape(shape, key, Write(v) + q) == Ok((v, q))
  {
    hide ValidUtf8;
    match v
    case VNum(n) =>
      HeadReadsBack(UNSIGNED, n, q);
      hide ReadHead, WriteHead;
    case VBytes(b) =>
      StringReadsBack(BYTES, b, q);
      hide ReadString, WriteHead;
    case VText(t) =>
      StringReadsBack(TEXT, t, q);
      hide ReadString, WriteHead;
    case VFlag(_) =>
      assert (Write(v) + q)[1..] == q;
    case _ =>
  }

  /** A value that fits its shape is read back as it was, whatever follows it. */
  lemma {:induction false} ShapeReadsBack(shape: Shape, key: byte, v: Value, q: Bytes)
    requires Fits(shape, v) && Writable(v)
    ensures ReadShape(shape, key, Write(v) + q) == Ok((v, q))
    decreases shape, 2, 0
  {
    if Leaf(shape) {
      LeafReadsBack(shape, key, v, q);
    } else if shape.Nullable? {
      if v.VNull? {
        assert (Write(v) + q)[1..] == q;
      } else {
        OnlyNullStartsNull(v, q);
        ShapeReadsBack(shape.inner, key, v, q);
      }
    } else {
      if shape.Tuple? {
        PartsReadBack(shape, 0, key, v.vs, q);
      } else {
        ElementsReadBack(shape, key, v.vs, q);
      }
      SequenceReadsBack(shape, key, v, q);
    }
  }

  lemma SequenceReadsBack(shape: Shape, key: byte, v: Value, q: Bytes)
    requires (shape.Tuple? || shape.ListOf?) && Fits(shape, v) && Writable(v)
    requires shape.Tuple? ==> ReadParts(shape, 0, key, WriteAll(v.vs) + q) == Ok((v.vs, q))
    requires shape.ListOf? ==> ReadElements(shape, |v.vs|, key, WriteAll(v.vs) + q) == Ok((v.vs, q))
    ensures ReadShape(shape, key, Write(v) + q) == Ok((v, q))
  {
    hide ReadHead, WriteHead, ReadParts, ReadElements, WriteAll;
    HeadReadsBack(ARRAY, |v.vs|, WriteAll(v.vs) + q);
    assert Write(v) + q == WriteHead(ARRAY, |v.vs|) + (WriteAll(v.vs) + q);
  }

  lemma {:induction false} PartsReadBack(shape: Shape, i: nat, key: byte, vs: seq<Value>, q: Bytes)
    requires shape.Tuple? && i <= |shape.parts| && |vs| == |shape.parts| - i
    requires forall k :: 0 <= k < |vs| ==> Fits(shape.parts[i + k], vs[k]) && Writable(vs[k])
    ensures ReadParts(shape, i, key, WriteAll(vs) + q) == Ok((vs, q))
    decreases shape, 1, |vs|
  {
    hide Write, Writable, Fits, ReadShape;
    if vs == [] {
      assert [] + q == q;
    } else {
      assert Fits(shape.parts[i + 0], vs[0]);
      hide ReadParts;
      PartsReadBack(shape, i + 1, key, vs[1..], q);
      ShapeReadsBack(shape.parts[i], key, vs[0], WriteAll(vs[1..]) + q);
      assert WriteAll(vs) + q == Write(vs[0]) + (WriteAll(vs[1..]) + q);
      assert [vs[0]] + vs[1..] == vs;
      hide WriteAll;
      PartsUnfold(shape, i, key, WriteAll(vs) + q, vs[0], WriteAll(vs[1..]) + q, vs[1..], q);
    }
  }

  lemma {:induction false} ElementsReadBack(shape: Shape, key: byte, vs: seq<Value>, q: Bytes)
    requires shape.ListOf?
    requires forall k :: 0 <= k < |vs| ==> Fits(shape.element, vs[k]) && Writable(vs[k])
    ensures ReadElements(shape, |vs|, key, WriteAll(vs) + q) == Ok((vs, q))
    decreases shape, 1, |vs|
  {
    hide Write, Writable, Fits, ReadShape;
    if vs == [] {
      assert [] + q == q;
    } else {
      hide ReadElements;
      ElementsReadBack(shape, key, vs[1..], q);
      ShapeReadsBack(shape.element, key, vs[0], WriteAll(vs[1..]) + q);
      assert WriteAll(vs) + q == Write(vs[0]) + (WriteAll(vs[1..]) + q);
      assert [vs[0]] + vs[1..] == vs;
      hide WriteAll;
      ElementsUnfold(shape, |vs|, key, WriteAll(vs) + q, vs[0], WriteAll(vs[1..]) + q, vs[1..], q);
    }
  }

  /** What is read fits the shape it was read for. */
  lemma {:induction false} ReadFits(shape: Shape, key: byte, s: Bytes)
    requires ReadShape(shape, key, s).Ok?
    ensures Fits(shape, ReadShape(shape, key, s).value.0)
    decreases shape, 2, 0
  {
    if shape.Nullable? {
      if !(s != [] && s[0] == NULL) {
        ReadFits(shape.inner, key, s);
      }
    } else if shape.Tuple? {
      PartsFit(shape, 0, key, ReadLength(s, ARRAY).value.1);
    } else if shape.ListOf? {
      ElementsFit(shape, ReadLength(s, ARRAY).value.0.value, key, ReadLength(s, ARRAY).value.1);
    }
  }

  lemma {:induction false} PartsFit(shape: Shape, i: nat, key: byte, s: Bytes)
    requires shape.Tuple? && i <= |shape.parts| && ReadParts(shape, i, key, s).Ok?
    ensures var vs := ReadParts(shape, i, key, s).value.0;
      |vs| == |shape.parts| - i && forall k :: 0 <= k < |vs| ==> Fits(shape.parts[i + k], vs[k])
    decreases shape, 1, |shape.parts| - i
  {
    if i < |shape.parts| {
      var (v, rest) := ReadShape(shape.parts[i], key, s).value;
      ReadFits(shape.parts[i], key, s);
      PartsFit(shape, i + 1, key, rest);
      var vs := ReadParts(shape, i, key, s).value.0;
      forall k | 0 <= k < |vs| ensures Fits(shape.parts[i + k], vs[k]) {
        if k > 0 {
          assert vs[k] == vs[1..][k - 1] && i + k == i + 1 + (k - 1);
        }
      }
    }
  }

  lemma {:induction false} ElementsFit(shape: Shape, n: nat, key: byte, s: Bytes)
    requires shape.ListOf? && ReadElements(shape, n, key, s).Ok?
    ensures var vs := ReadElements(shape, n, key, s).value.0;
      |vs| == n && forall k :: 0 <= k < |vs| ==> Fits(shape.element, vs[k])
    decreases shape, 1, n
  {
    if n > 0 {
      ReadFits(shape.element, key, s);
      ElementsFit(shape, n - 1, key, ReadShape(shape.element, key, s).value.1);
    }
  }
}
