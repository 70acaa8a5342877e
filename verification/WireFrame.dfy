/**
 Length-prefix framing on a byte stream (`packages/protocol/src/wire-frame.ts`),
 and the read loops that undo it (`packages/app/src/lib/iroh-wire.ts`,
 `packages/daemon/src/iroh-peer-server.ts`).
 */
module WireFrame {
  import opened Utf8

  const HEADER_BYTES := 4
  const MAX_FRAME_BYTES := 64 * 1024 * 1024

  /** `setUint32(0, n, false)`: most significant byte first. */
  function Header(n: nat): Bytes
    requires n < 0x1_0000_0000
  {
    [n / 0x100_0000, n / 0x1_0000 % 256, n / 256 % 256, n % 256]
  }

  datatype Encoded = Frame(bytes: Bytes) | TooLong

  /** `encodeWireFrame` on the payload's bytes. */
  function EncodeFrame(payload: Bytes): Encoded {
    if |payload| > MAX_FRAME_BYTES then TooLong else Frame(Header(|payload|) + payload)
  }

  datatype Length = Bytes(n: nat) | Truncated | Zero | OverCap

  /** `decodeWireFrameLength`, with its three ways to throw. */
  function DecodeLength(header: Bytes): (r: Length)
    ensures r.Bytes? ==> 0 < r.n <= MAX_FRAME_BYTES
  {
    if |header| < HEADER_BYTES then Truncated
    else
      var a: int, b: int, c: int, d: int := header[0], header[1], header[2], header[3];
      var n := a * 0x100_0000 + b * 0x1_0000 + c * 256 + d;
      if n == 0 then Zero else if n > MAX_FRAME_BYTES then OverCap else Bytes(n)
  }

  /** Most significant byte first. */
  function BigEndian(bytes: Bytes): nat {
    if bytes == [] then 0
    else
      var last: nat := bytes[|bytes| - 1];
      256 * BigEndian(bytes[..|bytes| - 1]) + last
  }

  /** Which header gives which refusal, and that what is accepted is the big-endian length. */
  lemma LengthIsBigEndian(header: Bytes)
    ensures DecodeLength(header).Truncated? <==> |header| < HEADER_BYTES
    ensures |header| >= HEADER_BYTES ==>
              var n := BigEndian(header[..HEADER_BYTES]);
              && (DecodeLength(header).Zero? <==> n == 0)
              && (DecodeLength(header).OverCap? <==> n > 0x400_0000)
              && (DecodeLength(header).Bytes? ==> DecodeLength(header).n == n)
  {
    if |header| >= HEADER_BYTES {
      var bytes := header[..HEADER_BYTES];
      assert bytes[..3][..2] == bytes[..2] && bytes[..2][..1] == bytes[..1] && bytes[..1][..0] == [];
      var a: int, b: int, c: int, d: int := header[0], header[1], header[2], header[3];
      assert BigEndian(bytes[..1]) == a;
      assert BigEndian(bytes[..2]) == 256 * a + b;
      assert BigEndian(bytes[..3]) == 256 * (256 * a + b) + c;
      assert BigEndian(bytes) == 256 * (256 * (256 * a + b) + c) + d;
    }
  }

  /** How a read loop stops: the stream ended (inside a frame or between two),
      or a header was refused. */
  datatype Exit = StreamEnd | BadHeader

  datatype Read = Read(payloads: seq<Bytes>, exit: Exit)

  /** All that can be read from a stream carrying exactly these bytes. */
  function ReadAll(stream: Bytes): Read
    decreases |stream|
  {
    if |stream| < HEADER_BYTES then Read([], StreamEnd)
    else
      match DecodeLength(stream[..HEADER_BYTES])
      case Bytes(n) =>
        if |stream| < HEADER_BYTES + n then Read([], StreamEnd)
        else
          var rest := ReadAll(stream[HEADER_BYTES + n..]);
          Read([stream[HEADER_BYTES..HEADER_BYTES + n]] + rest.payloads, rest.exit)
      case _ => Read([], BadHeader)
  }

  /** What is read is the first frame, when it is whole, and what is read behind it. */
  lemma ReadFirst(stream: Bytes)
    ensures |stream| < HEADER_BYTES ==> ReadAll(stream) == Read([], StreamEnd)
    ensures |stream| >= HEADER_BYTES && !DecodeLength(stream[..HEADER_BYTES]).Bytes? ==>
              ReadAll(stream) == Read([], BadHeader)
    ensures |stream| >= HEADER_BYTES && DecodeLength(stream[..HEADER_BYTES]).Bytes? ==>
              var end := HEADER_BYTES + DecodeLength(stream[..HEADER_BYTES]).n;
              if |stream| < end then ReadAll(stream) == Read([], StreamEnd)
              else
                var rest := ReadAll(stream[end..]);
                ReadAll(stream) == Read([stream[HEADER_BYTES..end]] + rest.payloads, rest.exit)
  {
  }

  /** `readLoop`: exact reads of a header and a body until one of them fails. */
  method ReadLoop(stream: Bytes) returns (payloads: seq<Bytes>, exit: Exit)
    ensures Read(payloads, exit) == ReadAll(stream)
  {
    hide DecodeLength, ReadAll;
    payloads := [];
    var at := 0;
    assert stream[0..] == stream;
    while true
      invariant 0 <= at <= |stream|
      invariant payloads + ReadAll(stream[at..]).payloads == ReadAll(stream).payloads
      invariant ReadAll(stream[at..]).exit == ReadAll(stream).exit
      decreases |stream| - at
    {
      ghost var rest := stream[at..];
      ReadFirst(rest);
      if |stream| - at < HEADER_BYTES {
        return payloads, StreamEnd;
      }
      var header := stream[at..at + HEADER_BYTES];
      assert header == rest[..HEADER_BYTES];
      var length := DecodeLength(header);
      if !length.Bytes? {
        return payloads, BadHeader;
      }
      if |stream| - at < HEADER_BYTES + length.n {
        return payloads, StreamEnd;
      }
      var body := stream[at + HEADER_BYTES..at + HEADER_BYTES + length.n];
      assert body == rest[HEADER_BYTES..HEADER_BYTES + length.n];
      assert rest[HEADER_BYTES + length.n..] == stream[at + HEADER_BYTES + length.n..];
      payloads := payloads + [body];
      at := at + HEADER_BYTES + length.n;
    }
  }

  /** A payload the reader takes: JSON is never empty, and the cap holds both ways. */
  predicate Fits(payload: Bytes) {
    0 < |payload| <= MAX_FRAME_BYTES
  }

  predicate AllFit(payloads: seq<Bytes>) {
    forall i :: 0 <= i < |payloads| ==> Fits(payloads[i])
  }

  function FrameOf(payload: Bytes): Bytes
    requires Fits(payload)
  {
    EncodeFrame(payload).bytes
  }

  /** The frames of the payloads, one after the other. */
  function Frames(payloads: seq<Bytes>): Bytes
    requires AllFit(payloads)
  {
    if payloads == [] then [] else FrameOf(payloads[0]) + Frames(payloads[1..])
  }

  lemma LengthRoundTrip(n: nat)
    requires 0 < n <= MAX_FRAME_BYTES
    ensures DecodeLength(Header(n)) == Bytes(n)
  {
    assert n / 0x1_0000 == n / 256 / 256 && n / 0x100_0000 == n / 0x1_0000 / 256;
  }

  /** A whole frame at the front is read, and reading goes on behind it. */
  lemma ReadFrame(payload: Bytes, rest: Bytes)
    requires Fits(payload)
    ensures ReadAll(FrameOf(payload) + rest)
            == Read([payload] + ReadAll(rest).payloads, ReadAll(rest).exit)
  {
    var stream := FrameOf(payload) + rest;
    var n := |payload|;
    LengthRoundTrip(n);
    assert stream[..HEADER_BYTES] == Header(n);
    assert stream[HEADER_BYTES..HEADER_BYTES + n] == payload;
    assert stream[HEADER_BYTES + n..] == rest;
  }

  /** The reader gets back exactly the payloads, and nothing else. */
  lemma {:induction false} ReadsBack(payloads: seq<Bytes>)
    requires AllFit(payloads)
    ensures ReadAll(Frames(payloads)) == Read(payloads, StreamEnd)
  {
    if payloads != [] {
      ReadsBack(payloads[1..]);
      ReadFrame(payloads[0], Frames(payloads[1..]));
    }
  }

  /** What was read stays read: on any bytes at all, framed or not, more bytes
      only add payloads. */
  lemma {:induction false} ReadMonotone(p: Bytes, q: Bytes)
    requires p <= q
    ensures ReadAll(p).payloads <= ReadAll(q).payloads
    decreases |p|
  {
    if |p| >= HEADER_BYTES {
      assert p[..HEADER_BYTES] == q[..HEADER_BYTES];
      var length := DecodeLength(p[..HEADER_BYTES]);
      if length.Bytes? && |p| >= HEADER_BYTES + length.n {
        var n := length.n;
        assert p[HEADER_BYTES..HEADER_BYTES + n] == q[HEADER_BYTES..HEADER_BYTES + n];
        ReadMonotone(p[HEADER_BYTES + n..], q[HEADER_BYTES + n..]);
      }
    }
  }

  /** The other half of the round trip: bytes read to the end without a bad header
      and without a rest are the frames of what was read. */
  lemma {:induction false} ReadsOnlyFrames(stream: Bytes)
    ensures AllFit(ReadAll(stream).payloads)
    ensures Frames(ReadAll(stream).payloads) <= stream
    decreases |stream|
  {
    if |stream| >= HEADER_BYTES {
      var length := DecodeLength(stream[..HEADER_BYTES]);
      if length.Bytes? && |stream| >= HEADER_BYTES + length.n {
        var n := length.n;
        var body, rest := stream[HEADER_BYTES..HEADER_BYTES + n], stream[HEADER_BYTES + n..];
        ReadsOnlyFrames(rest);
        HeaderRoundTrip(stream[..HEADER_BYTES], n);
        assert stream == stream[..HEADER_BYTES] + body + rest;
        assert ReadAll(stream).payloads[1..] == ReadAll(rest).payloads;
      }
    }
  }

  lemma HeaderRoundTrip(header: Bytes, n: nat)
    requires |header| == HEADER_BYTES && DecodeLength(header) == Bytes(n)
    ensures Header(n) == header
  {
    var a: int, b: int, c: int, d: int := header[0], header[1], header[2], header[3];
    assert n == ((a * 256 + b) * 256 + c) * 256 + d;
    assert n / 256 == (a * 256 + b) * 256 + c && n % 256 == d;
    assert n / 0x1_0000 == a * 256 + b;
    assert n / 0x100_0000 == a;
  }

  function PayloadsOf(messages: seq<Units>): (payloads: seq<Bytes>)
    ensures |payloads| == |messages|
  {
    seq(|messages|, i requires 0 <= i < |messages| => Encode(messages[i]))
  }

  /** Whole messages, as strings: any cut of their frames decodes to the first few
      of them, and all of the bytes to all of them. */
  lemma MessagesReadBack(messages: seq<Units>, cut: nat)
    requires AllFit(PayloadsOf(messages)) && cut <= |Frames(PayloadsOf(messages))|
    ensures var got := ReadAll(Frames(PayloadsOf(messages))[..cut]).payloads;
            && |got| <= |messages|
            && (forall i :: 0 <= i < |got| ==> Decode(got[i]) == messages[i])
            && (cut == |Frames(PayloadsOf(messages))| ==> |got| == |messages|)
  {
    var payloads := PayloadsOf(messages);
    var stream := Frames(payloads);
    ReadsBack(payloads);
    ReadMonotone(stream[..cut], stream);
    forall i | 0 <= i < |messages|
      ensures Decode(payloads[i]) == messages[i]
    {
      RoundTrip(messages[i]);
    }
    if cut == |stream| {
      assert stream[..cut] == stream;
    }
  }
}
