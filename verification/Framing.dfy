/**
 Length-prefixed frames: the writer, the hand-written writer of stream headers,
 the reader, and the connection loop that keeps reading after a bad frame.
 The codec is any partial decoder.
 */
module Framing {
  import opened Base

  const WRAP := 0x1_0000_0000

  // ------------------------------------------------------------- specification

  function BigEndian(m: nat, width: nat): (b: Text)
    ensures |b| == width
  {
    if width == 0 then [] else BigEndian(m / 0x100, width - 1) + [(m % 0x100) as byte]
  }

  function BigEndianValue(b: Text): nat {
    if b == [] then 0 else BigEndianValue(b[..|b| - 1]) * 0x100 + b[|b| - 1] as int
  }

  function Pow256(k: nat): nat {
    if k == 0 then 1 else 0x100 * Pow256(k - 1)
  }

  lemma {:induction false} BigEndianRoundTrip(m: nat, width: nat)
    requires m < Pow256(width)
    ensures BigEndianValue(BigEndian(m, width)) == m
  {
    if width > 0 {
      BigEndianRoundTrip(m / 0x100, width - 1);
      assert BigEndian(m, width)[..width - 1] == BigEndian(m / 0x100, width - 1);
    }
  }

  // `len as u32`
  function LengthPrefix(n: nat): (prefix: Text)
    ensures |prefix| == 4
  {
    BigEndian(n % WRAP, 4)
  }

  lemma {:induction false} PrefixRoundTrip(n: nat)
    ensures BigEndianValue(LengthPrefix(n)) == n % WRAP
  {
    assert Pow256(1) == 0x100 && Pow256(2) == 0x1_0000 && Pow256(3) == 0x100_0000 && Pow256(4) == WRAP;
    BigEndianRoundTrip(n % WRAP, 4);
  }

  // Four bytes, the most significant first.
  lemma PrefixBytes(n: nat)
    ensures var m, b := n % WRAP, LengthPrefix(n);
      && b[0] as int == m / 0x100_0000
      && b[1] as int == m / 0x1_0000 % 0x100
      && b[2] as int == m / 0x100 % 0x100
      && b[3] as int == m % 0x100
  {
    var m := n % WRAP;
    var q := m / 0x100;
    var r := q / 0x100;
    var t := r / 0x100;
    assert r == m / 0x1_0000 && t == m / 0x100_0000 && t < 0x100;
    assert BigEndian(t, 1) == BigEndian(t / 0x100, 0) + [(t % 0x100) as byte];
    assert BigEndian(r, 2) == BigEndian(t, 1) + [(r % 0x100) as byte];
    assert BigEndian(q, 3) == BigEndian(r, 2) + [(q % 0x100) as byte];
    assert BigEndian(m, 4) == BigEndian(q, 3) + [(m % 0x100) as byte];
  }

  function Frame(body: Text): Text {
    LengthPrefix(|body|) + body
  }

  datatype ReadResult<+T> = EndOfStream | Value(value: T) | TruncatedBody | Undecodable

  function Decoded<T>(decode: Text -> Option<T>, body: Text): ReadResult<T> {
    match decode(body)
    case Some(v) => Value(v)
    case None => Undecodable
  }

  // What reading does to the unread bytes. A short read consumes all of them.
  function ReadFrame<T>(unread: Text, decode: Text -> Option<T>): (ReadResult<T>, Text) {
    if |unread| < 4 then (EndOfStream, [])
    else
      var n := BigEndianValue(unread[..4]);
      if |unread| < 4 + n then (TruncatedBody, [])
      else (Decoded(decode, unread[4..4 + n]), unread[4 + n..])
  }

  // What the connection loop sees until the stream ends.
  function Drain<T>(unread: Text, decode: Text -> Option<T>): seq<ReadResult<T>>
    decreases |unread|
  {
    var (result, rest) := ReadFrame(unread, decode);
    if result.EndOfStream? then [] else [result] + Drain(rest, decode)
  }

  function Frames(bodies: seq<Text>): Text {
    if bodies == [] then [] else Frame(bodies[0]) + Frames(bodies[1..])
  }

  function Outcomes<T>(decode: Text -> Option<T>, bodies: seq<Text>): seq<ReadResult<T>> {
    if bodies == [] then [] else [Decoded(decode, bodies[0])] + Outcomes(decode, bodies[1..])
  }

  // ------------------------------------------------------------------ properties

  // A frame is read back, and exactly its own bytes are consumed, precisely when its length
  // fits the prefix.
  lemma {:induction false} FrameRoundTrip<T>(body: Text, rest: Text, decode: Text -> Option<T>)
    ensures ReadFrame(Frame(body) + rest, decode).1 == rest <==> |body| < WRAP
    ensures |body| < WRAP ==> ReadFrame(Frame(body) + rest, decode) == (Decoded(decode, body), rest)
    ensures |body| < WRAP ==>
      match decode(body)
      case Some(v) => ReadFrame(Frame(body) + rest, decode).0 == Value(v)
      case None => ReadFrame(Frame(body) + rest, decode).0 == Undecodable
  {
    var unread := Frame(body) + rest;
    PrefixRoundTrip(|body|);
    assert unread[..4] == LengthPrefix(|body|);
    if |body| < WRAP {
      assert unread[4..4 + |body|] == body;
      assert unread[4 + |body|..] == rest;
    } else {
      assert |body| % WRAP < |body|;
      assert |unread[4 + |body| % WRAP..]| > |rest|;
    }
  }

  predicate AllFit(bodies: seq<Text>) {
    forall b | b in bodies :: |b| < WRAP
  }

  lemma {:induction false} DrainOneFrame<T>(body: Text, rest: Text, decode: Text -> Option<T>)
    requires |body| < WRAP
    ensures Drain(Frame(body) + rest, decode) == [Decoded(decode, body)] + Drain(rest, decode)
  {
    FrameRoundTrip(body, rest, decode);
  }

  // Any list of frames comes back in order, undecodable ones in their places, and whatever
  // follows is read as if they had not been there.
  lemma {:induction false} DrainFrames<T>(bodies: seq<Text>, tail: Text, decode: Text -> Option<T>)
    requires AllFit(bodies)
    ensures Drain(Frames(bodies) + tail, decode) == Outcomes(decode, bodies) + Drain(tail, decode)
  {
    if bodies == [] {
      assert Frames(bodies) + tail == tail;
    } else {
      var b, rest := bodies[0], Frames(bodies[1..]) + tail;
      assert b in bodies;
      assert Frames(bodies) + tail == Frame(b) + rest;
      DrainOneFrame(b, rest, decode);
      DrainFrames(bodies[1..], tail, decode);
    }
  }

  // A stream cut inside the last frame: inside the length it just ends, inside the body there
  // is one error and then it ends.
  lemma {:induction false} TruncatedTail<T>(bodies: seq<Text>, body: Text, cut: nat, decode: Text -> Option<T>)
    requires AllFit(bodies) && |body| < WRAP && cut < |Frame(body)|
    ensures Drain(Frames(bodies) + Frame(body)[..cut], decode) ==
      Outcomes(decode, bodies) + if cut < 4 then [] else [TruncatedBody]
  {
    DrainFrames(bodies, Frame(body)[..cut], decode);
    CutFrame(body, cut, decode);
  }

  lemma {:induction false} CutFrame<T>(body: Text, cut: nat, decode: Text -> Option<T>)
    requires |body| < WRAP && cut < |Frame(body)|
    ensures Drain(Frame(body)[..cut], decode) == if cut < 4 then [] else [TruncatedBody]
  {
    var tail := Frame(body)[..cut];
    if cut >= 4 {
      PrefixRoundTrip(|body|);
      assert tail[..4] == LengthPrefix(|body|);
      assert ReadFrame(tail, decode) == (TruncatedBody, []);
      assert Drain([], decode) == [];
    }
  }

  lemma {:induction false} DrainOnlyFrames<T>(bodies: seq<Text>, decode: Text -> Option<T>)
    requires AllFit(bodies)
    ensures Drain(Frames(bodies), decode) == Outcomes(decode, bodies)
  {
    DrainFrames(bodies, [], decode);
    assert Frames(bodies) + [] == Frames(bodies);
    assert Drain([], decode) == [];
  }

  // Frames are uniquely decodable.
  lemma {:induction false} FramesInjective(a: seq<Text>, b: seq<Text>)
    requires AllFit(a) && AllFit(b)
    ensures Frames(a) == Frames(b) ==> a == b
  {
    if Frames(a) == Frames(b) {
      var decode: Text -> Option<Text> := t => Some(t);
      DrainOnlyFrames(a, decode);
      DrainOnlyFrames(b, decode);
      SameOutcomes(a, b, decode);
    }
  }

  lemma {:induction false} SameOutcomes(a: seq<Text>, b: seq<Text>, decode: Text -> Option<Text>)
    requires forall t :: decode(t) == Some(t)
    requires Outcomes(decode, a) == Outcomes(decode, b)
    ensures a == b
  {
    if a != [] && b != [] {
      assert Outcomes(decode, a)[0] == Value(a[0]);
      assert Outcomes(decode, b)[0] == Value(b[0]);
      assert Outcomes(decode, a)[1..] == Outcomes(decode, a[1..]);
      assert Outcomes(decode, b)[1..] == Outcomes(decode, b[1..]);
      SameOutcomes(a[1..], b[1..], decode);
    }
  }

  // -------------------------------------------------------------------- the code

  class ByteStream {
    var data: Text
    var pos: nat

    ghost predicate Valid()
      reads this
    {
      pos <= |data|
    }

    ghost function Unread(): Text
      reads this
      requires Valid()
    {
      data[pos..]
    }

    constructor (bytes: Text)
      ensures Valid() && Unread() == bytes && data == bytes
    {
      data, pos := bytes, 0;
    }

    method WriteAll(bytes: Text)
      requires Valid()
      modifies this
      ensures Valid() && data == old(data) + bytes && pos == old(pos)
    {
      data := data + bytes;
    }

    // `read_exact`: all of the buffer or an end-of-file error.
    method ReadExact(n: nat) returns (buffer: Option<Text>)
      requires Valid()
      modifies this`pos
      ensures Valid()
      ensures n <= |old(Unread())| ==> buffer == Some(old(Unread())[..n]) && Unread() == old(Unread())[n..]
      ensures n > |old(Unread())| ==> buffer == None && Unread() == []
    {
      if |data| - pos < n {
        pos := |data|;
        return None;
      }
      buffer := Some(data[pos..pos + n]);
      assert data[pos..][..n] == data[pos..pos + n] && data[pos..][n..] == data[pos + n..];
      pos := pos + n;
    }
  }

  method WriteCbor<T>(stream: ByteStream, value: T, encode: T -> Option<Text>) returns (encoded: bool)
    requires stream.Valid()
    modifies stream
    ensures stream.Valid() && stream.pos == old(stream.pos)
    ensures encoded <==> encode(value).Some?
    ensures stream.data == if encoded then old(stream.data) + Frame(encode(value).value) else old(stream.data)
  {
    var buffer := encode(value);
    if buffer.None? {
      return false;
    }
    stream.WriteAll(LengthPrefix(|buffer.value|));
    stream.WriteAll(buffer.value);
    encoded := true;
    assert stream.data == old(stream.data) + (LengthPrefix(|buffer.value|) + buffer.value);
  }

  // The second framer, used for the header of an outbound stream.
  method OpenOutboundStream(stream: ByteStream, header: Text)
    requires stream.Valid()
    modifies stream
    ensures stream.Valid() && stream.pos == old(stream.pos)
    ensures stream.data == old(stream.data) + Frame(header)
  {
    var length := LengthPrefix(|header|);
    stream.WriteAll(length);
    stream.WriteAll(header);
    assert stream.data == old(stream.data) + (length + header);
  }

  method ReadCbor<T>(stream: ByteStream, decode: Text -> Option<T>) returns (result: ReadResult<T>)
    requires stream.Valid()
    modifies stream`pos
    ensures stream.Valid()
    ensures (result, stream.Unread()) == ReadFrame(old(stream.Unread()), decode)
    ensures result.EndOfStream? <==> |old(stream.Unread())| < 4
    ensures |old(stream.Unread())| >= 4 ==>
      var all, n := old(stream.Unread()), BigEndianValue(old(stream.Unread())[..4]);
      && (result.TruncatedBody? <==> |all| < 4 + n)
      && (|all| >= 4 + n ==>
            && stream.Unread() == all[4 + n..]
            && (result.Value? <==> decode(all[4..4 + n]).Some?)
            && (result.Value? ==> Some(result.value) == decode(all[4..4 + n]))
            && (result.Undecodable? <==> decode(all[4..4 + n]).None?))
  {
    ghost var all := stream.Unread();
    var length := stream.ReadExact(4);
    if length.None? {
      return EndOfStream;
    }
    var n := BigEndianValue(length.value);
    if |all| >= 4 + n {
      assert all[4..][..n] == all[4..4 + n] && all[4..][n..] == all[4 + n..];
    }
    var body := stream.ReadExact(n);
    if body.None? {
      return TruncatedBody;
    }
    match decode(body.value)
    case Some(v) => result := Value(v);
    case None => result := Undecodable;
  }

  // The connection loop: an error is logged and reading goes on; only the end of the stream stops it.
  method ReadConnection<T>(stream: ByteStream, decode: Text -> Option<T>) returns (results: seq<ReadResult<T>>)
    requires stream.Valid()
    modifies stream`pos
    ensures stream.Valid() && stream.Unread() == []
    ensures results == Drain(old(stream.Unread()), decode)
  {
    results := [];
    ghost var all := stream.Unread();
    while true
      invariant stream.Valid()
      invariant Drain(all, decode) == results + Drain(stream.Unread(), decode)
      decreases |stream.Unread()|
    {
      var result := ReadCbor(stream, decode);
      if result.EndOfStream? {
        break;
      }
      results := results + [result];
    }
  }
}
