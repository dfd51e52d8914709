/**
  The CBOR the codecs use: definite-length items read from the front of a byte string, each reader
  returning what it read and the bytes left. Heads follow section 3 of RFC 8949, and are written in
  the preferred form of section 4.2.1.
 */
module Cbor {
  import opened Numbers
  import opened Wrappers
  import opened Wire

  const UNSIGNED: nat := 0
  const BYTES: nat := 2
  const TEXT: nat := 3
  const ARRAY: nat := 4
  const MAP: nat := 5
  const TAG: nat := 6

  const FALSE: byte := 0xF4
  const TRUE: byte := 0xF5
  const NULL: byte := 0xF6

  // ------------------------------------------------------------------------
  // Heads
  // ------------------------------------------------------------------------

  /** A number in network byte order. */
  function Number(b: Bytes): nat {
    if b == [] then 0 else Number(b[..|b| - 1]) * 0x100 + b[|b| - 1]
  }

  function BigEndian(n: nat, width: nat): (b: Bytes)
    ensures |b| == width
  {
    if width == 0 then [] else BigEndian(n / 0x100, width - 1) + [n % 0x100]
  }

  /** How many bytes follow, for the additional information 24 to 27. */
  function Width(info: nat): nat {
    if info <= 24 then 1 else if info == 25 then 2 else if info == 26 then 4 else 8
  }

  /** A major type and its argument; an indefinite length has none. */
  datatype Head = Head(major: nat, arg: Option<nat>, rest: Bytes)

  function ReadHead(s: Bytes): Option<Head> {
    if s == [] then None
    else
      var major, info := s[0] / 0x20, s[0] % 0x20;
      if info < 24 then Some(Head(major, Some(info), s[1..]))
      else if info < 28 then
        if |s| < 1 + Width(info) then None
        else Some(Head(major, Some(Number(s[1..1 + Width(info)])), s[1 + Width(info)..]))
      else if info == 31 then Some(Head(major, None, s[1..]))
      else None
  }

  /** The shortest head that holds the argument. */
  function WriteHead(major: nat, n: u64): Bytes
    requires major < 8
  {
    if n < 24 then [major * 0x20 + n]
    else if n < 0x100 then [major * 0x20 + 24] + BigEndian(n, 1)
    else if n < 0x1_0000 then [major * 0x20 + 25] + BigEndian(n, 2)
    else if n < 0x1_0000_0000 then [major * 0x20 + 26] + BigEndian(n, 4)
    else [major * 0x20 + 27] + BigEndian(n, 8)
  }

  // ------------------------------------------------------------------------
  // Items
  // ------------------------------------------------------------------------

  function ReadUnsigned(s: Bytes, max: u64): Option<(u64, Bytes)> {
    match ReadHead(s)
    case Some(Head(major, Some(n), rest)) => if major == UNSIGNED && n <= max then Some((n, rest)) else None
    case _ => None
  }

  /** A string of `major` type: its bytes, whole. */
  function ReadString(s: Bytes, major: nat): Option<(Bytes, Bytes)> {
    match ReadHead(s)
    case Some(Head(m, Some(n), rest)) => if m == major && n <= |rest| then Some((rest[..n], rest[n..])) else None
    case _ => None
  }

  function ReadText(s: Bytes): Option<(Text, Bytes)> {
    var read := ReadString(s, TEXT);
    if read.Some? && ValidUtf8(read.value.0) then Some((read.value.0, read.value.1)) else None
  }

  function ReadBool(s: Bytes): Option<(bool, Bytes)> {
    if s != [] && (s[0] == FALSE || s[0] == TRUE) then Some((s[0] == TRUE, s[1..])) else None
  }

  /** How many items an array holds, or pairs a map; none if its length is indefinite. */
  function ReadLength(s: Bytes, major: nat): Option<(Option<nat>, Bytes)> {
    match ReadHead(s)
    case Some(Head(m, arg, rest)) => if m == major then Some((arg, rest)) else None
    case None => None
  }

  /** What follows the next `n` well-formed items. */
  function SkipItems(s: Bytes, n: nat): Option<Bytes>
    decreases |s|
  {
    if n == 0 then Some(s)
    else
      match ReadHead(s)
      case Some(Head(major, Some(arg), rest)) =>
        HeadConsumes(s);
        if major == BYTES || major == TEXT then
          if arg > |rest| || (major == TEXT && !ValidUtf8(rest[..arg])) then None else SkipItems(rest[arg..], n - 1)
        else SkipItems(rest, n - 1 + Inner(major, arg))
      case _ => None
  }

  /** How many items lie inside one. */
  function Inner(major: nat, arg: nat): nat {
    if major == ARRAY then arg else if major == MAP then 2 * arg else if major == TAG then 1 else 0
  }

  // ------------------------------------------------------------------------
  // What is left is the end of what there was
  // ------------------------------------------------------------------------

  predicate Suffix(s: Bytes, r: Bytes) {
    |r| <= |s| && s[|s| - |r|..] == r
  }

  /** What a reader took from `s` to leave `r`. */
  function Taken(s: Bytes, r: Bytes): Bytes
    requires Suffix(s, r)
  {
    s[..|s| - |r|]
  }

  lemma SuffixThen(s: Bytes, t: Bytes, r: Bytes)
    requires Suffix(s, t) && Suffix(t, r)
    ensures Suffix(s, r) && Taken(s, r) == Taken(s, t) + Taken(t, r)
  {
    assert s == Taken(s, t) + t && t == Taken(t, r) + r;
    assert s == (Taken(s, t) + Taken(t, r)) + r;
  }

  lemma TakenThen(s: Bytes, t: Bytes, r: Bytes, q: Bytes)
    requires Suffix(s, t) && Suffix(t, r)
    ensures Suffix(s, r) && Taken(s, r) + q == Taken(s, t) + (Taken(t, r) + q)
  {
    SuffixThen(s, t, r);
  }

  lemma TailIsSuffix(s: Bytes, k: nat)
    requires k <= |s|
    ensures Suffix(s, s[k..]) && Taken(s, s[k..]) == s[..k]
  {
  }

  lemma HeadConsumes(s: Bytes)
    ensures ReadHead(s).Some? ==> Suffix(s, ReadHead(s).value.rest) && |ReadHead(s).value.rest| < |s|
  {
  }

  /** A head reads the same whatever comes after it. */
  lemma HeadIsLocal(s: Bytes, q: Bytes)
    requires ReadHead(s).Some?
    ensures Suffix(s, ReadHead(s).value.rest)
    ensures ReadHead(Taken(s, ReadHead(s).value.rest) + q) == Some(ReadHead(s).value.(rest := q))
  {
    var h := ReadHead(s).value;
    var p := Taken(s, h.rest);
    var info := s[0] % 0x20;
    assert (p + q)[0] == s[0];
    assert (p + q)[|p|..] == q;
    if 24 <= info < 28 {
      assert (p + q)[1..1 + Width(info)] == s[1..1 + Width(info)];
    }
  }

  lemma StringIsLocal(s: Bytes, major: nat, q: Bytes)
    requires ReadString(s, major).Some?
    ensures var (b, r) := ReadString(s, major).value;
      Suffix(s, r) && |r| < |s| && ReadString(Taken(s, r) + q, major) == Some((b, q))
  {
    var Head(_, arg, rest) := ReadHead(s).value;
    var n := arg.value;
    var r := rest[n..];
    HeadConsumes(s);
    TailIsSuffix(rest, n);
    TakenThen(s, rest, r, q);
    HeadIsLocal(s, rest[..n] + q);
    assert (rest[..n] + q)[..n] == rest[..n] && (rest[..n] + q)[n..] == q;
  }

  /** Skipping takes the same items whatever comes after them. */
  lemma {:induction false} SkipIsLocal(s: Bytes, n: nat, q: Bytes)
    requires SkipItems(s, n).Some?
    ensures Suffix(s, SkipItems(s, n).value) && (n > 0 ==> |SkipItems(s, n).value| < |s|)
    ensures SkipItems(Taken(s, SkipItems(s, n).value) + q, n) == Some(q)
    decreases |s|
  {
    hide ReadHead, ValidUtf8, Inner;
    var r := SkipItems(s, n).value;
    if n == 0 {
      assert Taken(s, r) + q == q;
    } else {
      var Head(major, arg, rest) := ReadHead(s).value;
      HeadConsumes(s);
      if major == BYTES || major == TEXT {
        var after := rest[arg.value..];
        SkipIsLocal(after, n - 1, q);
        hide SkipItems;
        SkipOneString(s, n, after, r, q);
      } else {
        SkipIsLocal(rest, n - 1 + Inner(major, arg.value), q);
        hide SkipItems;
        SkipOneOther(s, n, r, q);
      }
    }
  }

  lemma SkipOneString(s: Bytes, n: nat, after: Bytes, r: Bytes, q: Bytes)
    requires n > 0 && ReadHead(s).Some? && ReadHead(s).value.arg.Some? && ReadHead(s).value.major in {BYTES, TEXT}
    requires var Head(major, arg, rest) := ReadHead(s).value;
      arg.value <= |rest| && after == rest[arg.value..] && (major == TEXT ==> ValidUtf8(rest[..arg.value]))
    requires Suffix(after, r) && SkipItems(Taken(after, r) + q, n - 1) == Some(q)
    ensures Suffix(s, r) && |after| < |s| && SkipItems(Taken(s, r) + q, n) == Some(q)
  {
    hide ReadHead, SkipItems, ValidUtf8;
    var Head(major, arg, rest) := ReadHead(s).value;
    var b, tail := rest[..arg.value], Taken(after, r) + q;
    HeadConsumes(s);
    HeadIsLocal(s, b + tail);
    TailIsSuffix(rest, arg.value);
    TakenThen(rest, after, r, q);
    TakenThen(s, rest, r, q);
    hide Suffix, Taken;
    SkipString(Taken(s, r) + q, n, major, b, tail);
  }

  lemma SkipOneOther(s: Bytes, n: nat, r: Bytes, q: Bytes)
    requires n > 0 && ReadHead(s).Some? && ReadHead(s).value.arg.Some? && ReadHead(s).value.major !in {BYTES, TEXT}
    requires var Head(major, arg, rest) := ReadHead(s).value;
      Suffix(rest, r) && SkipItems(Taken(rest, r) + q, n - 1 + Inner(major, arg.value)) == Some(q)
    ensures Suffix(s, r) && |ReadHead(s).value.rest| < |s| && SkipItems(Taken(s, r) + q, n) == Some(q)
  {
    hide ReadHead, SkipItems, Inner;
    var Head(major, arg, rest) := ReadHead(s).value;
    HeadConsumes(s);
    HeadIsLocal(s, Taken(rest, r) + q);
    TakenThen(s, rest, r, q);
    hide Suffix, Taken;
    SkipOther(Taken(s, r) + q, n, major, arg.value, Taken(rest, r) + q);
  }

  lemma SkipString(s: Bytes, n: nat, major: nat, b: Bytes, tail: Bytes)
    requires n > 0 && ReadHead(s) == Some(Head(major, Some(|b|), b + tail))
    requires major == BYTES || (major == TEXT && ValidUtf8(b))
    ensures SkipItems(s, n) == SkipItems(tail, n - 1)
  {
    HeadConsumes(s);
    hide ReadHead, ValidUtf8;
    assert (b + tail)[..|b|] == b && (b + tail)[|b|..] == tail;
  }

  lemma SkipOther(s: Bytes, n: nat, major: nat, arg: nat, tail: Bytes)
    requires n > 0 && ReadHead(s) == Some(Head(major, Some(arg), tail)) && major != BYTES && major != TEXT
    ensures SkipItems(s, n) == SkipItems(tail, n - 1 + Inner(major, arg))
  {
    HeadConsumes(s);
    hide ReadHead;
  }

  /** Skipping some items and then some more is skipping them all. */
  lemma {:induction false} SkipMore(s: Bytes, n: nat, more: nat)
    requires SkipItems(s, n).Some?
    ensures SkipItems(s, n + more) == SkipItems(SkipItems(s, n).value, more)
    decreases |s|
  {
    hide ReadHead, ValidUtf8, Inner;
    if n > 0 {
      var Head(major, arg, rest) := ReadHead(s).value;
      HeadConsumes(s);
      if major == BYTES || major == TEXT {
        var b, after := rest[..arg.value], rest[arg.value..];
        assert rest == b + after && (major == TEXT ==> ValidUtf8(b));
        hide SkipItems;
        SkipString(s, n, major, b, after);
        SkipString(s, n + more, major, b, after);
        SkipMore(after, n - 1, more);
      } else {
        hide SkipItems;
        SkipOther(s, n, major, arg.value, rest);
        SkipOther(s, n + more, major, arg.value, rest);
        SkipMore(rest, n - 1 + Inner(major, arg.value), more);
      }
    }
  }

  // ------------------------------------------------------------------------
  // What is written is read back
  // ------------------------------------------------------------------------

  function Power256(k: nat): nat {
    if k == 0 then 1 else 0x100 * Power256(k - 1)
  }

  lemma {:induction false} NumberReadsBigEndian(n: nat, width: nat)
    requires n < Power256(width)
    ensures Number(BigEndian(n, width)) == n
  {
    if width > 0 {
      NumberReadsBigEndian(n / 0x100, width - 1);
      assert BigEndian(n, width)[..width - 1] == BigEndian(n / 0x100, width - 1);
    }
  }

  lemma Powers()
    ensures Power256(1) == 0x100 && Power256(2) == 0x1_0000 && Power256(4) == 0x1_0000_0000 && Power256(8) == U64_MAX + 1
  {
    assert Power256(1) == 0x100 * Power256(0);
    assert Power256(2) == 0x100 * Power256(1);
    assert Power256(3) == 0x100 * Power256(2);
    assert Power256(4) == 0x100 * Power256(3);
    assert Power256(5) == 0x100 * Power256(4);
    assert Power256(6) == 0x100 * Power256(5);
    assert Power256(7) == 0x100 * Power256(6);
  }

  lemma LongHeadReadsBack(major: nat, info: nat, n: u64, q: Bytes)
    requires major < 8 && 24 <= info < 28 && n < Power256(Width(info))
    ensures ReadHead([major * 0x20 + info] + BigEndian(n, Width(info)) + q) == Some(Head(major, Some(n), q))
  {
    var w := Width(info);
    var s := [major * 0x20 + info] + BigEndian(n, w) + q;
    assert s[0] / 0x20 == major && s[0] % 0x20 == info;
    assert s[1..1 + w] == BigEndian(n, w);
    assert s[1 + w..] == q;
    NumberReadsBigEndian(n, w);
  }

  lemma HeadReadsBack(major: nat, n: u64, q: Bytes)
    requires major < 8
    ensures ReadHead(WriteHead(major, n) + q) == Some(Head(major, Some(n), q))
  {
    Powers();
    if n < 24 {
      var s := [major * 0x20 + n] + q;
      assert s[0] / 0x20 == major && s[0] % 0x20 == n && s[1..] == q;
    } else if n < 0x100 {
      LongHeadReadsBack(major, 24, n, q);
    } else if n < 0x1_0000 {
      LongHeadReadsBack(major, 25, n, q);
    } else if n < 0x1_0000_0000 {
      LongHeadReadsBack(major, 26, n, q);
    } else {
      LongHeadReadsBack(major, 27, n, q);
    }
  }

  /** No head holds the argument in fewer bytes: the encoding is the preferred one. */
  lemma HeadIsShortest(major: nat, n: u64, s: Bytes)
    requires major < 8 && ReadHead(s) == Some(Head(major, Some(n), []))
    ensures |WriteHead(major, n)| <= |s|
  {
    Powers();
    if s[0] % 0x20 >= 24 {
      NumberFits(s[1..1 + Width(s[0] % 0x20)]);
    }
  }

  lemma {:induction false} NumberFits(b: Bytes)
    ensures Number(b) < Power256(|b|)
  {
    if b != [] {
      NumberFits(b[..|b| - 1]);
    }
  }
}
