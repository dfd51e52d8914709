/**
  Framing: each message behind a two-byte little-endian length, and an incremental reader that pulls
  whole frames out of whatever bytes have arrived.
 */
module Frames {
  import opened Wrappers
  import opened Wire
  import opened Fields
  import Codec
  import Coders
  import Enforcer

  const MAX_FRAME_LEN: nat := 0xFFFF

  /** A length as the prefix carries it: 16 bits, whatever it was. */
  function Prefix(length: nat): Bytes {
    [length % 0x100, length / 0x100 % 0x100]
  }

  function Frame(body: Bytes): Bytes {
    Prefix(|body|) + body
  }

  function Stream(bodies: seq<Bytes>): Bytes {
    if bodies == [] then [] else Frame(bodies[0]) + Stream(bodies[1..])
  }

  /** The length two prefix bytes carry. */
  function Announced(low: int, high: int): int {
    low + 0x100 * high
  }

  /** The first frame's body and what is behind it, if it has arrived whole. */
  function TakeFrame(buf: Bytes): Option<(Bytes, Bytes)> {
    if |buf| < 2 then None
    else
      var length := Announced(buf[0], buf[1]);
      if |buf| < 2 + length then None else Some((buf[2..2 + length], buf[2 + length..]))
  }

  /** Every body that has arrived whole, in order, and the bytes still waiting for more. */
  function Split(buf: Bytes): (seq<Bytes>, Bytes)
    decreases |buf|
  {
    match TakeFrame(buf)
    case None => ([], buf)
    case Some((body, rest)) => var (bodies, pending) := Split(rest); ([body] + bodies, pending)
  }

  lemma TakenIsShorter(buf: Bytes)
    ensures TakeFrame(buf).Some? ==> |TakeFrame(buf).value.1| < |buf|
  {
  }

  type Decoding<T> = Bytes -> Result<T, Error>

  function DecodeAll<T>(decode: Decoding<T>, bodies: seq<Bytes>): seq<Result<T, Error>> {
    seq(|bodies|, i requires 0 <= i < |bodies| => decode(bodies[i]))
  }

  // ------------------------------------------------------------------------
  // The reader
  // ------------------------------------------------------------------------

  class FrameReader {
    var buf: Bytes

    constructor ()
      ensures buf == []
    {
      buf := [];
    }

    method Push(bytes: Bytes)
      modifies this
      ensures buf == old(buf) + bytes
    {
      buf := buf + bytes;
    }

    /** The next message decoded, and its frame consumed whether or not it could be; or none yet. */
    method Next<T>(decode: Decoding<T>) returns (r: Option<Result<T, Error>>)
      modifies this
      ensures match TakeFrame(old(buf))
        case None => r.None? && buf == old(buf)
        case Some((body, rest)) => r == Some(decode(body)) && buf == rest
    {
      if |buf| < 2 {
        return None;
      }
      var length := Announced(buf[0], buf[1]);
      if |buf| < 2 + length {
        return None;
      }
      r := Some(decode(buf[2..2 + length]));
      buf := buf[2 + length..];
    }

    /** Called in a loop until it returns none, as it is meant to be. */
    method Drain<T>(decode: Decoding<T>) returns (results: seq<Result<T, Error>>)
      modifies this
      ensures (results, buf) == (DecodeAll(decode, Split(old(buf)).0), Split(old(buf)).1)
    {
      hide TakeFrame;
      results := [];
      ghost var bodies: seq<Bytes> := [];
      ghost var was := buf;
      assert bodies + Split(was).0 == Split(was).0;
      var next := Next(decode);
      while next.Some?
        invariant results == DecodeAll(decode, bodies)
        invariant Split(old(buf)) == (bodies + Split(was).0, Split(was).1)
        invariant match TakeFrame(was)
          case None => next.None? && buf == was
          case Some((body, rest)) => next == Some(decode(body)) && buf == rest
        decreases |was|, next.Some?
      {
        results := results + [next.value];
        ghost var (body, rest) := TakeFrame(was).value;
        assert bodies + ([body] + Split(rest).0) == bodies + [body] + Split(rest).0;
        bodies := bodies + [body];
        TakenIsShorter(was);
        was := buf;
        next := Next(decode);
      }
      assert bodies + [] == bodies;
    }

    method Pending() returns (n: nat)
      ensures n == |buf|
    {
      n := |buf|;
    }
  }

  // ------------------------------------------------------------------------
  // However the bytes arrive, and whenever they are read
  // ------------------------------------------------------------------------

  /** What is done to a reader: bytes pushed, or the next message asked for. */
  datatype Op = Arrive(bytes: Bytes) | Ask

  /** What a reader returns over a run, and the bytes it holds at the end. */
  function Run<T>(decode: Decoding<T>, buf: Bytes, ops: seq<Op>): (seq<Result<T, Error>>, Bytes)
    decreases |ops|
  {
    if ops == [] then ([], buf)
    else
      match ops[0]
      case Arrive(bytes) => Run(decode, buf + bytes, ops[1..])
      case Ask =>
        match TakeFrame(buf)
        case None => Run(decode, buf, ops[1..])
        case Some((body, rest)) => var (results, last) := Run(decode, rest, ops[1..]); ([decode(body)] + results, last)
  }

  function Arrived(ops: seq<Op>): Bytes {
    if ops == [] then []
    else (if ops[0].Arrive? then ops[0].bytes else []) + Arrived(ops[1..])
  }

  lemma MoreBehind(buf: Bytes, more: Bytes)
    requires TakeFrame(buf).Some?
    ensures TakeFrame(buf + more) == Some((TakeFrame(buf).value.0, TakeFrame(buf).value.1 + more))
  {
    var length := Announced(buf[0], buf[1]);
    assert (buf + more)[2..2 + length] == buf[2..2 + length];
    assert (buf + more)[2 + length..] == buf[2 + length..] + more;
  }

  /** Over any run, what has been returned and what is yet to be are together what the whole stream holds. */
  lemma {:induction false} RunFollowsStream<T>(decode: Decoding<T>, buf: Bytes, ops: seq<Op>)
    ensures var (results, last) := Run(decode, buf, ops);
      && DecodeAll(decode, Split(buf + Arrived(ops)).0) == results + DecodeAll(decode, Split(last).0)
      && Split(buf + Arrived(ops)).1 == Split(last).1
    decreases |ops|
  {
    if ops == [] {
      assert buf + [] == buf;
    } else {
      match ops[0]
      case Arrive(bytes) =>
        assert buf + Arrived(ops) == buf + bytes + Arrived(ops[1..]);
        RunFollowsStream(decode, buf + bytes, ops[1..]);
      case Ask =>
        assert Arrived(ops) == Arrived(ops[1..]);
        if TakeFrame(buf).Some? {
          var (body, rest) := TakeFrame(buf).value;
          MoreBehind(buf, Arrived(ops));
          RunFollowsStream(decode, rest, ops[1..]);
          OneMoreDecoded(decode, body, Split(rest + Arrived(ops)).0);
          hide TakeFrame, DecodeAll, Arrived;
          var (results, last) := Run(decode, rest, ops[1..]);
          assert [decode(body)] + (results + DecodeAll(decode, Split(last).0)) == [decode(body)] + results + DecodeAll(decode, Split(last).0);
        } else {
          RunFollowsStream(decode, buf, ops[1..]);
        }
    }
  }

  lemma OneMoreDecoded<T>(decode: Decoding<T>, body: Bytes, bodies: seq<Bytes>)
    ensures DecodeAll(decode, [body] + bodies) == [decode(body)] + DecodeAll(decode, bodies)
  {
  }

  /** Once drained, a reader has returned just what the bytes hold, however they were cut up and read. */
  lemma ChunksDoNotMatter<T>(decode: Decoding<T>, ops: seq<Op>, ops': seq<Op>)
    requires Arrived(ops) == Arrived(ops')
    requires TakeFrame(Run(decode, [], ops).1).None? && TakeFrame(Run(decode, [], ops').1).None?
    ensures Run(decode, [], ops) == Run(decode, [], ops')
    ensures Run(decode, [], ops) == (DecodeAll(decode, Split(Arrived(ops)).0), Split(Arrived(ops)).1)
  {
    RunFollowsStream(decode, [], ops);
    RunFollowsStream(decode, [], ops');
    assert [] + Arrived(ops) == Arrived(ops);
    assert Run(decode, [], ops).0 + [] == Run(decode, [], ops).0;
    assert Run(decode, [], ops').0 + [] == Run(decode, [], ops').0;
  }

  predicate Framable(bodies: seq<Bytes>) {
    forall b :: b in bodies ==> |b| <= MAX_FRAME_LEN
  }

  lemma PrefixTakes(length: nat, behind: Bytes)
    requires length <= MAX_FRAME_LEN && length <= |behind|
    ensures TakeFrame(Prefix(length) + behind) == Some((behind[..length], behind[length..]))
  {
    var buf := Prefix(length) + behind;
    assert Announced(buf[0], buf[1]) == length;
    assert buf[2..2 + length] == behind[..length] && buf[2 + length..] == behind[length..];
  }

  lemma FrameTaken(body: Bytes, more: Bytes)
    requires |body| <= MAX_FRAME_LEN
    ensures TakeFrame(Frame(body) + more) == Some((body, more))
  {
    assert Frame(body) + more == Prefix(|body|) + (body + more);
    PrefixTakes(|body|, body + more);
    hide TakeFrame, Prefix, Frame;
    assert (body + more)[..|body|] == body && (body + more)[|body|..] == more;
  }

  lemma {:induction false} StreamSplits(bodies: seq<Bytes>, more: Bytes)
    requires Framable(bodies) && TakeFrame(more).None?
    ensures Split(Stream(bodies) + more) == (bodies, more)
    decreases |bodies|
  {
    hide TakeFrame, Frame;
    if bodies == [] {
      assert [] + more == more;
    } else {
      assert bodies[0] in bodies;
      assert forall b :: b in bodies[1..] ==> b in bodies;
      FrameTaken(bodies[0], Stream(bodies[1..]) + more);
      assert Stream(bodies) + more == Frame(bodies[0]) + (Stream(bodies[1..]) + more);
      StreamSplits(bodies[1..], more);
      TakenIsShorter(Stream(bodies) + more);
      assert [bodies[0]] + bodies[1..] == bodies;
    }
  }

  /**
    A stream of frames, cut into any pieces with reads anywhere between them, gives each body's result
    once and in order, and nothing is left: a body that does not decode spoils its own result alone.
   */
  lemma EachBodyOnce<T>(decode: Decoding<T>, bodies: seq<Bytes>, ops: seq<Op>)
    requires Framable(bodies) && Arrived(ops) == Stream(bodies)
    requires TakeFrame(Run(decode, [], ops).1).None?
    ensures Run(decode, [], ops) == (DecodeAll(decode, bodies), [])
  {
    StreamSplits(bodies, []);
    assert Stream(bodies) + [] == Stream(bodies);
    ChunksDoNotMatter(decode, ops, ops);
  }

  // ------------------------------------------------------------------------
  // Messages through frames
  // ------------------------------------------------------------------------

  function EncodedBodies(msgs: seq<Message>): seq<Bytes>
    requires forall m :: m in msgs ==> Codec.Sized(m)
  {
    seq(|msgs|, i requires 0 <= i < |msgs| => Codec.Encoded(msgs[i]))
  }

  function Oks<T>(ts: seq<T>): seq<Result<T, Error>> {
    seq(|ts|, i requires 0 <= i < |ts| => Ok(ts[i]))
  }

  /** Messages sent one after another all arrive, as they were sent, through any such reader. */
  lemma MessagesArrive(msgs: seq<Message>, ops: seq<Op>)
    requires forall m :: m in msgs ==> Codec.Sized(m) && Codec.Acceptable(m)
    requires Framable(EncodedBodies(msgs)) && Arrived(ops) == Stream(EncodedBodies(msgs))
    requires TakeFrame(Run(Codec.Decode, [], ops).1).None?
    ensures Run(Codec.Decode, [], ops) == (Oks(msgs), [])
  {
    hide Codec.Decode, Codec.Encoded, Codec.Acceptable, Codec.Sized, Run, Stream, Arrived, TakeFrame;
    EachBodyOnce(Codec.Decode, EncodedBodies(msgs), ops);
    BodiesDecode(msgs);
  }

  lemma BodiesDecode(msgs: seq<Message>)
    requires forall m :: m in msgs ==> Codec.Sized(m) && Codec.Acceptable(m)
    ensures DecodeAll(Codec.Decode, EncodedBodies(msgs)) == Oks(msgs)
  {
    hide Codec.Decode, Codec.Encoded, Codec.Acceptable, Codec.Sized;
    forall i | 0 <= i < |msgs| ensures Codec.Decode(Codec.Encoded(msgs[i])) == Ok(msgs[i]) {
      assert msgs[i] in msgs;
      EncodedAlone(msgs[i]);
    }
  }

  lemma EncodedAlone(msg: Message)
    requires Codec.Sized(msg) && Codec.Acceptable(msg)
    ensures Codec.Decode(Codec.Encoded(msg)) == Ok(msg)
  {
    hide Codec.Decode, Codec.Encoded, Codec.Acceptable, Codec.Sized;
    Codec.RoundTripsIff(msg, []);
    assert Codec.Encoded(msg) + [] == Codec.Encoded(msg);
  }

  // ------------------------------------------------------------------------
  // Writing frames
  // ------------------------------------------------------------------------

  /** Fill in the length of what was written behind a reserved prefix, cut to 16 bits. */
  function FillIn(out: Bytes, prefixAt: nat): (filled: Bytes)
    requires prefixAt + 2 <= |out|
    ensures filled == out[..prefixAt] + Frame(out[prefixAt + 2..])
  {
    var length := |out| - prefixAt - 2;
    out[prefixAt := length % 0x100][prefixAt + 1 := length / 0x100 % 0x100]
  }

  /** Encode a message behind its length: the prefix reserved first, and filled in after. */
  method EncodeFrame(msg: Message, before: Bytes) returns (out: Bytes)
    requires Codec.Sized(msg)
    ensures out == before + Frame(Codec.Encoded(msg))
  {
    hide Codec.Encoded;
    var prefixAt := |before|;
    out := before + [0, 0];
    out := Coders.EncodeMessage(msg, out);
    assert out[..prefixAt] == before && out[prefixAt + 2..] == Codec.Encoded(msg);
    out := FillIn(out, prefixAt);
  }

  /**
    A wire message longer than the prefix can say is not refused: its length is cut to 16 bits, so it
    is read back as itself and alone exactly when it fits.
   */
  lemma FrameRoundTripsIff(msg: Message)
    requires Codec.Sized(msg) && Codec.Acceptable(msg)
    ensures TakeFrame(Frame(Codec.Encoded(msg))) == Some((Codec.Encoded(msg), [])) <==> |Codec.Encoded(msg)| <= MAX_FRAME_LEN
    ensures |Codec.Encoded(msg)| <= MAX_FRAME_LEN ==>
      Run(Codec.Decode, [], [Arrive(Frame(Codec.Encoded(msg))), Ask]) == ([Ok(msg)], [])
  {
    hide Codec.Encoded, Codec.Decode, Codec.Acceptable, Codec.Sized;
    var body := Codec.Encoded(msg);
    if |body| <= MAX_FRAME_LEN {
      FrameTaken(body, []);
      assert Frame(body) + [] == Frame(body);
      EncodedAlone(msg);
      RunOnce(Codec.Decode, Frame(body));
    }
  }

  lemma RunOnce<T>(decode: Decoding<T>, buf: Bytes)
    requires TakeFrame(buf).Some?
    ensures Run(decode, [], [Arrive(buf), Ask]) == ([decode(TakeFrame(buf).value.0)], TakeFrame(buf).value.1)
  {
    hide TakeFrame;
    var ops, asks := [Arrive(buf), Ask], [Ask];
    var (body, rest) := TakeFrame(buf).value;
    assert ops[0] == Arrive(buf) && ops[1..] == asks && asks[0] == Ask && asks[1..] == [] && [] + buf == buf;
    assert Run(decode, rest, []) == ([], rest);
    assert Run(decode, buf, asks) == ([decode(body)] + [], rest);
    assert [decode(body)] + [] == [decode(body)];
    assert Run(decode, [], ops) == Run(decode, buf, asks);
  }

  /** One that does not fit leaves bytes of itself behind, to be taken for the frames after it. */
  lemma TooLongLeavesMore(body: Bytes, more: Bytes)
    requires |body| > MAX_FRAME_LEN
    ensures var cut := |body| % 0x1_0000;
      cut < |body| && TakeFrame(Frame(body) + more) == Some((body[..cut], body[cut..] + more))
  {
    var cut := |body| % 0x1_0000;
    PrefixIsCut(|body|);
    assert Frame(body) + more == Prefix(cut) + (body + more);
    PrefixTakes(cut, body + more);
    hide TakeFrame, Prefix, Frame;
    assert (body + more)[..cut] == body[..cut] && (body + more)[cut..] == body[cut..] + more;
  }

  lemma PrefixIsCut(length: nat)
    ensures Prefix(length) == Prefix(length % 0x1_0000)
  {
    var whole, cut := length / 0x1_0000, length % 0x1_0000;
    var low, high := cut % 0x100, cut / 0x100;
    assert length == 0x100 * (0x100 * whole + high) + low;
    assert length % 0x100 == low && length / 0x100 == 0x100 * whole + high;
    assert (0x100 * whole + high) % 0x100 == high % 0x100;
  }

  /** The enforcer's frames are refused instead, and nothing is written. */
  method EncodeEnforcerFrame(msg: Enforcer.EnforcerMessage, before: Bytes) returns (r: Result<(), Error>, out: Bytes)
    requires Enforcer.Sized(msg)
    ensures match Enforcer.Encode(msg)
      case Err(e) => r == Err(e) && out == before
      case Ok(body) =>
        if |body| > MAX_FRAME_LEN then r == Err(FrameTooLong(|body|)) && out == before
        else r == Ok(()) && out == before + Frame(body)
  {
    hide Enforcer.Encode, Enforcer.Sized;
    var prefixAt := |before|;
    out := before + [0, 0];
    r, out := Enforcer.EncodeMessage(msg, out);
    if r.Err? {
      out := out[..prefixAt];
      assert out == before;
      return;
    }
    var length := |out| - prefixAt - 2;
    if length > MAX_FRAME_LEN {
      assert out[..prefixAt] == before;
      return Err(FrameTooLong(length)), out[..prefixAt];
    }
    assert out[..prefixAt] == before && out[prefixAt + 2..] == Enforcer.Encode(msg).value;
    out := FillIn(out, prefixAt);
  }

  /** So every enforcer frame that is written reads back as its message, with nothing left. */
  lemma EnforcerFramesRoundTrip(msg: Enforcer.EnforcerMessage, body: Bytes, more: Bytes)
    requires Enforcer.Sized(msg) && Enforcer.Encode(msg) == Ok(body) && |body| <= MAX_FRAME_LEN
    ensures TakeFrame(Frame(body) + more) == Some((body, more)) && Enforcer.Decode(body) == Ok(msg)
  {
    hide Enforcer.Encode, Enforcer.Decode;
    FrameTaken(body, more);
    Enforcer.RoundTrips(msg, []);
    assert body + [] == body;
  }
}
