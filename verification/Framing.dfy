/**
 The length-prefixed byte stream between a peer and the daemon: a four byte
 big-endian length followed by that many payload bytes. `Decode` is the
 reference meaning of a whole stream; `Wire` in Sending.dfy produces streams and
 `Receiver` in Receiving.dfy consumes them piece by piece.
 */
module Framing {
  import opened Common

  type Byte = b: int | 0 <= b < 256

  const MAX_MESSAGE_SIZE: nat := 262144
  const HEADER_SIZE: nat := 4

  type Payload = p: seq<Byte> | |p| <= MAX_MESSAGE_SIZE

  /** The number a big-endian byte sequence denotes. */
  function BigEndian(h: seq<Byte>): nat {
    if h == [] then 0 else BigEndian(h[..|h| - 1]) * 256 + h[|h| - 1] as int
  }

  /** The lowest `width` bytes of `n`, most significant first. */
  function ToBigEndian(n: nat, width: nat): (h: seq<Byte>)
    ensures |h| == width
  {
    if width == 0 then [] else ToBigEndian(n / 256, width - 1) + [n % 256]
  }

  function Power256(width: nat): nat {
    if width == 0 then 1 else 256 * Power256(width - 1)
  }

  lemma {:induction false} BigEndianRoundTrip(n: nat, width: nat)
    requires n < Power256(width)
    ensures BigEndian(ToBigEndian(n, width)) == n
  {
    if width > 0 {
      BigEndianRoundTrip(n / 256, width - 1);
      var h := ToBigEndian(n, width);
      assert h[..|h| - 1] == ToBigEndian(n / 256, width - 1);
    }
  }

  lemma {:induction false} BigEndianInjective(a: seq<Byte>, b: seq<Byte>)
    requires |a| == |b| && BigEndian(a) == BigEndian(b)
    ensures a == b
  {
    if a != [] {
      BigEndianInjective(a[..|a| - 1], b[..|b| - 1]);
      assert a == a[..|a| - 1] + [a[|a| - 1]] && b == b[..|b| - 1] + [b[|b| - 1]];
    }
  }

  /** Network to host byte order on a whole length field. */
  function Ntohl(h: seq<Byte>): nat
    requires |h| == HEADER_SIZE
  {
    BigEndian(h)
  }

  /** Host to network byte order. */
  function Htonl(n: nat): (h: seq<Byte>)
    requires n <= MAX_MESSAGE_SIZE
    ensures |h| == HEADER_SIZE && Ntohl(h) == n
  {
    assert Power256(4) == 256 * Power256(3) == 256 * (256 * Power256(2));
    BigEndianRoundTrip(n, HEADER_SIZE);
    ToBigEndian(n, HEADER_SIZE)
  }

  /** What `sendMessage` puts on the wire for one accepted message. */
  function Frame(msg: Payload): (f: seq<Byte>) {
    Htonl(|msg|) + msg
  }

  function Frames(msgs: seq<Payload>): seq<Byte> {
    if msgs == [] then [] else Frame(msgs[0]) + Frames(msgs[1..])
  }

  /** A tail that does not yet hold a complete frame and may still become one. */
  predicate Incomplete(tail: seq<Byte>) {
    |tail| < HEADER_SIZE
    || (Ntohl(tail[..HEADER_SIZE]) <= MAX_MESSAGE_SIZE
        && |tail| < HEADER_SIZE + Ntohl(tail[..HEADER_SIZE]))
  }

  /** A tail whose length field exceeds what the receiver accepts. */
  predicate Oversize(tail: seq<Byte>) {
    |tail| >= HEADER_SIZE && Ntohl(tail[..HEADER_SIZE]) > MAX_MESSAGE_SIZE
  }

  /**
   The outcome of decoding a whole stream: the complete payloads in order, the
   bytes that follow the last of them, and whether those start with an
   unacceptable length.
   */
  datatype Decoding = Decoding(frames: seq<Payload>, pending: seq<Byte>, rejected: bool)

  /** The reference decoder. */
  function Decode(s: seq<Byte>): (d: Decoding)
    ensures if d.rejected then Oversize(d.pending) else Incomplete(d.pending)
    decreases |s|
  {
    if Incomplete(s) then Decoding([], s, false)
    else if Oversize(s) then Decoding([], s, true)
    else
      var end := HEADER_SIZE + Ntohl(s[..HEADER_SIZE]);
      var rest := Decode(s[end..]);
      Decoding([s[HEADER_SIZE..end]] + rest.frames, rest.pending, rest.rejected)
  }

  /** A stream that starts with a complete frame starts with the encoding of its payload. */
  lemma FrameOfPrefix(s: seq<Byte>)
    requires !Incomplete(s) && !Oversize(s)
    ensures var end := HEADER_SIZE + Ntohl(s[..HEADER_SIZE]);
            end <= |s| && Frame(s[HEADER_SIZE..end]) == s[..end]
  {
    var end := HEADER_SIZE + Ntohl(s[..HEADER_SIZE]);
    BigEndianInjective(Htonl(end - HEADER_SIZE), s[..HEADER_SIZE]);
    assert s[..end] == s[..HEADER_SIZE] + s[HEADER_SIZE..end];
  }

  /**
   Conservation: no byte is lost or used twice. The decoded frames, encoded again,
   followed by the pending bytes are exactly the stream.
   */
  lemma {:induction false} DecodeConserves(s: seq<Byte>)
    ensures Frames(Decode(s).frames) + Decode(s).pending == s
    decreases |s|
  {
    if !Incomplete(s) && !Oversize(s) {
      FrameOfPrefix(s);
      var end := HEADER_SIZE + Ntohl(s[..HEADER_SIZE]);
      DecodeConserves(s[end..]);
      var d, rest := Decode(s), Decode(s[end..]);
      assert d.frames[1..] == rest.frames;
      assert Frames(d.frames) == s[..end] + Frames(rest.frames);
      assert s == s[..end] + s[end..];
    }
  }

  lemma DecodeOneFrame(msg: Payload, rest: seq<Byte>)
    ensures var d := Decode(rest);
            Decode(Frame(msg) + rest) == Decoding([msg] + d.frames, d.pending, d.rejected)
  {
    var s := Frame(msg) + rest;
    assert s[..HEADER_SIZE] == Htonl(|msg|);
    assert s[HEADER_SIZE..HEADER_SIZE + |msg|] == msg;
    assert s[HEADER_SIZE + |msg|..] == rest;
  }

  /**
   Framing is unambiguous: whatever way a stream can be cut into whole frames and
   an unfinished or unacceptable tail, that is what `Decode` returns.
   */
  lemma {:induction false} DecodeUnique(msgs: seq<Payload>, tail: seq<Byte>)
    requires Incomplete(tail) || Oversize(tail)
    ensures Decode(Frames(msgs) + tail) == Decoding(msgs, tail, Oversize(tail))
  {
    if msgs == [] {
      assert Frames(msgs) + tail == tail;
    } else {
      var rest := Frames(msgs[1..]) + tail;
      DecodeUnique(msgs[1..], tail);
      DecodeOneFrame(msgs[0], rest);
      ConcatAssociative(Frame(msgs[0]), Frames(msgs[1..]), tail);
      assert Frames(msgs) + tail == Frame(msgs[0]) + rest;
      assert [msgs[0]] + msgs[1..] == msgs;
    }
  }

  lemma {:induction false} FramesAppend(a: seq<Payload>, b: seq<Payload>)
    ensures Frames(a + b) == Frames(a) + Frames(b)
  {
    if a == [] {
      assert a + b == b;
    } else {
      FramesAppend(a[1..], b);
      assert (a + b)[0] == a[0] && (a + b)[1..] == a[1..] + b;
      ConcatAssociative(Frame(a[0]), Frames(a[1..]), Frames(b));
    }
  }

  /**
   Decoding is resumable: the meaning of a longer stream depends on the part
   already decoded only through its frames and its pending bytes.
   */
  lemma DecodeResume(a: seq<Byte>, b: seq<Byte>)
    requires !Decode(a).rejected
    ensures var d := Decode(a); var e := Decode(d.pending + b);
            Decode(a + b) == Decoding(d.frames + e.frames, e.pending, e.rejected)
  {
    var d := Decode(a);
    var e := Decode(d.pending + b);
    DecodeConserves(a);
    DecodeConserves(d.pending + b);
    FramesAppend(d.frames, e.frames);
    DecodeUnique(d.frames + e.frames, e.pending);
    ConcatAssociative(Frames(d.frames), d.pending, b);
    ConcatAssociative(Frames(d.frames), Frames(e.frames), e.pending);
  }

  /** Once a length is unacceptable, no later byte changes what was decoded before it. */
  lemma DecodeAfterReject(a: seq<Byte>, b: seq<Byte>)
    requires Decode(a).rejected
    ensures Decode(a + b) == Decoding(Decode(a).frames, Decode(a).pending + b, true)
  {
    var d := Decode(a);
    DecodeConserves(a);
    assert (d.pending + b)[..HEADER_SIZE] == d.pending[..HEADER_SIZE];
    DecodeUnique(d.frames, d.pending + b);
    ConcatAssociative(Frames(d.frames), d.pending, b);
  }
}
