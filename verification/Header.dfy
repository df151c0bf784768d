/** Yamux frame headers: `src/layers/yamux/header.rs` (Yamux specification, "Framing"). */
module Header {
  import opened Bytes

  type StreamId = U32

  const HEADER_SIZE := 12
  const VERSION: Byte := 0

  datatype FrameType = DataFrame | WindowUpdateFrame | PingFrame | GoAwayFrame

  const SYN: U16 := 1
  const ACK: U16 := 2
  const FIN: U16 := 4
  const RST: U16 := 8

  datatype YamuxHeader = YamuxHeader(
    version: Byte, frameType: FrameType, flags: U16, streamId: StreamId, length: U32)

  datatype DecodeError = InvalidVersion(version: Byte) | InvalidFrameType(code: Byte)

  /** `FrameFlags::contains`, for a single-bit flag. */
  predicate Contains(flags: U16, flag: U16)
    requires flag > 0
  {
    (flags / flag) % 2 == 1
  }

  /** `is_open_new_stream`. */
  predicate OpensNewStream(flags: U16)
  {
    Contains(flags, SYN) && !Contains(flags, RST) && !Contains(flags, FIN)
  }

  function TypeCode(t: FrameType): Byte
  {
    match t case DataFrame => 0 case WindowUpdateFrame => 1 case PingFrame => 2 case GoAwayFrame => 3
  }

  function TypeFromCode(b: Byte): Option<FrameType>
  {
    match b
    case 0 => Some(DataFrame)
    case 1 => Some(WindowUpdateFrame)
    case 2 => Some(PingFrame)
    case 3 => Some(GoAwayFrame)
    case _ => None
  }

  function BigEndian16(x: U16): seq<Byte> { [x / 256, x % 256] }

  function BigEndian32(x: U32): seq<Byte>
  {
    [x / 0x100_0000, (x / 0x1_0000) % 256, (x / 256) % 256, x % 256]
  }

  function FromBigEndian16(b: seq<Byte>): U16
    requires |b| == 2
  {
    b[0] as int * 256 + b[1]
  }

  function FromBigEndian32(b: seq<Byte>): U32
    requires |b| == 4
  {
    b[0] as int * 0x100_0000 + b[1] as int * 0x1_0000 + b[2] as int * 256 + b[3]
  }

  function SendData(id: StreamId, len: U32): YamuxHeader { YamuxHeader(VERSION, DataFrame, 0, id, len) }
  function OpenStream(id: StreamId): YamuxHeader { YamuxHeader(VERSION, WindowUpdateFrame, SYN, id, 0) }
  function AcceptStream(id: StreamId): YamuxHeader { YamuxHeader(VERSION, WindowUpdateFrame, ACK, id, 0) }
  function ResetStream(id: StreamId): YamuxHeader { YamuxHeader(VERSION, WindowUpdateFrame, RST, id, 0) }
  function CloseStream(id: StreamId): YamuxHeader { YamuxHeader(VERSION, WindowUpdateFrame, FIN, id, 0) }
  function Pong(id: StreamId, data: U32): YamuxHeader { YamuxHeader(VERSION, PingFrame, ACK, id, data) }
  function WindowUpdate(id: StreamId, delta: U32): YamuxHeader { YamuxHeader(VERSION, WindowUpdateFrame, 0, id, delta) }

  /** `YamuxHeader::encode`. */
  function Encode(h: YamuxHeader): (r: seq<Byte>)
    ensures |r| == HEADER_SIZE
  {
    [h.version, TypeCode(h.frameType)] + BigEndian16(h.flags) + BigEndian32(h.streamId) + BigEndian32(h.length)
  }

  /** `YamuxHeader::decode`. */
  function Decode(buf: seq<Byte>): Result<YamuxHeader, DecodeError>
    requires |buf| == HEADER_SIZE
  {
    if buf[0] != VERSION then Err(InvalidVersion(buf[0]))
    else match TypeFromCode(buf[1])
      case None => Err(InvalidFrameType(buf[1]))
      case Some(t) =>
        Ok(YamuxHeader(buf[0], t, FromBigEndian16(buf[2..4]), FromBigEndian32(buf[4..8]), FromBigEndian32(buf[8..12])))
  }

  lemma {:induction false} BigEndianInverse(x: U16, y: U32)
    ensures FromBigEndian16(BigEndian16(x)) == x
    ensures FromBigEndian32(BigEndian32(y)) == y
  {
    var a, b, c := y / 256, y / 0x1_0000, y / 0x100_0000;
    assert b == a / 256 && c == b / 256;
    assert y == a * 256 + y % 256 && a == b * 256 + a % 256 && b == c * 256 + b % 256;
  }

  /** The last digit of a number in base 256, and the rest of it. */
  lemma {:induction false} LastDigit(high: nat, low: Byte)
    ensures (high * 256 + low) / 256 == high && (high * 256 + low) % 256 == low
  {
  }

  lemma {:induction false} BigEndianUnique(a: seq<Byte>, b: seq<Byte>)
    requires |a| == 2 && |b| == 4
    ensures BigEndian16(FromBigEndian16(a)) == a
    ensures BigEndian32(FromBigEndian32(b)) == b
  {
    LastDigit(a[0], a[1]);
    var x, top: nat := FromBigEndian32(b), b[0] as int * 256 + b[1];
    LastDigit(b[0], b[1]);
    LastDigit(top, b[2]);
    LastDigit(top * 256 + b[2], b[3]);
    assert x == (top * 256 + b[2]) * 256 + b[3];
    assert x / 0x1_0000 == x / 256 / 256 && x / 0x100_0000 == x / 256 / 256 / 256;
  }

  /** What the twelve bytes are: version, type, and the rest high byte first. */
  lemma {:induction false} Layout(h: YamuxHeader)
    ensures var e := Encode(h);
            && e[0] == h.version
            && e[1] == (match h.frameType
                        case DataFrame => 0 case WindowUpdateFrame => 1 case PingFrame => 2 case GoAwayFrame => 3)
            && e[2] as int * 256 + e[3] == h.flags
            && ((e[4] as int * 256 + e[5]) * 256 + e[6]) * 256 + e[7] == h.streamId
            && ((e[8] as int * 256 + e[9]) * 256 + e[10]) * 256 + e[11] == h.length
  {
    BigEndianInverse(h.flags, h.streamId);
    BigEndianInverse(h.flags, h.length);
  }

  /** Decoding inverts encoding exactly for version 0; another version is named in the error. */
  lemma {:induction false} DecodeEncode(h: YamuxHeader)
    ensures Decode(Encode(h)) == if h.version == VERSION then Ok(h) else Err(InvalidVersion(h.version))
  {
    var e := Encode(h);
    var init := [h.version, TypeCode(h.frameType)] + BigEndian16(h.flags) + BigEndian32(h.streamId);
    assert |init| == 8 && e == init + BigEndian32(h.length);
    assert e[2..4] == BigEndian16(h.flags);
    assert e[4..8] == BigEndian32(h.streamId);
    assert e[8..12] == BigEndian32(h.length);
    BigEndianInverse(h.flags, h.streamId);
    BigEndianInverse(h.flags, h.length);
  }

  /** ... and every accepted header is the encoding of what was decoded, so no two byte strings
      stand for one header. */
  lemma {:induction false} EncodeDecode(buf: seq<Byte>)
    requires |buf| == HEADER_SIZE
    ensures Decode(buf).Ok? ==> Encode(Decode(buf).value) == buf
    ensures Decode(buf).Ok? <==> buf[0] == 0 && buf[1] <= 3
  {
    if Decode(buf).Ok? {
      BigEndianUnique(buf[2..4], buf[4..8]);
      BigEndianUnique(buf[2..4], buf[8..12]);
      assert buf == [buf[0], buf[1]] + buf[2..4] + buf[4..8] + buf[8..12];
    }
  }

  // ---------------------------------------------------------------------------
  // Frames on the wire
  // ---------------------------------------------------------------------------

  /** A header and, for data frames, the payload that follows it. */
  datatype Frame = Frame(header: YamuxHeader, payload: seq<Byte>)

  ghost predicate WellFormed(f: Frame)
  {
    && f.header.version == VERSION
    && |f.payload| == (if f.header.frameType.DataFrame? then f.header.length else 0)
  }

  function OnWire(f: Frame): seq<Byte> { Encode(f.header) + f.payload }

  function Serialize(frames: seq<Frame>): seq<Byte>
  {
    if frames == [] then [] else OnWire(frames[0]) + Serialize(frames[1..])
  }

  /** What a reader of the byte stream makes of it: whole frames, until the bytes run out or a header
      does not decode. */
  function ParseFrames(bytes: seq<Byte>): seq<Frame>
    decreases |bytes|
  {
    if |bytes| < HEADER_SIZE then []
    else match Decode(bytes[..HEADER_SIZE])
      case Err(_) => []
      case Ok(h) =>
        var rest := bytes[HEADER_SIZE..];
        var n: nat := if h.frameType.DataFrame? then h.length else 0;
        if n > |rest| then [] else [Frame(h, rest[..n])] + ParseFrames(rest[n..])
  }

  lemma {:induction false} ParseFirst(f: Frame, tail: seq<Byte>)
    requires WellFormed(f)
    ensures ParseFrames(OnWire(f) + tail) == [f] + ParseFrames(tail)
  {
    var bytes := OnWire(f) + tail;
    assert bytes[..HEADER_SIZE] == Encode(f.header);
    assert bytes[HEADER_SIZE..] == f.payload + tail;
    DecodeEncode(f.header);
    assert (f.payload + tail)[..|f.payload|] == f.payload;
    assert (f.payload + tail)[|f.payload|..] == tail;
  }

  /** More bytes only add frames at the end. */
  lemma {:induction false} ParseFramesExtends(bytes: seq<Byte>, more: seq<Byte>)
    ensures ParseFrames(bytes) <= ParseFrames(bytes + more)
    decreases |bytes|
  {
    if |bytes| >= HEADER_SIZE && Decode(bytes[..HEADER_SIZE]).Ok? {
      var h, rest := Decode(bytes[..HEADER_SIZE]).value, bytes[HEADER_SIZE..];
      var n: nat := if h.frameType.DataFrame? then h.length else 0;
      assert (bytes + more)[..HEADER_SIZE] == bytes[..HEADER_SIZE] && (bytes + more)[HEADER_SIZE..] == rest + more;
      if n <= |rest| {
        assert (rest + more)[..n] == rest[..n] && (rest + more)[n..] == rest[n..] + more;
        ParseFramesExtends(rest[n..], more);
      }
    }
  }

  /** The writer's bytes parse back into exactly the frames written. */
  lemma {:induction false} ParseSerialize(frames: seq<Frame>)
    requires forall f :: f in frames ==> WellFormed(f)
    ensures ParseFrames(Serialize(frames)) == frames
  {
    if frames != [] {
      ParseFirst(frames[0], Serialize(frames[1..]));
      ParseSerialize(frames[1..]);
    }
  }

  lemma {:induction false} SerializeNotEmpty(frames: seq<Frame>)
    ensures frames != [] <==> Serialize(frames) != []
  {
  }

  lemma {:induction false} SerializeAppend(a: seq<Frame>, b: seq<Frame>)
    ensures Serialize(a + b) == Serialize(a) + Serialize(b)
  {
    if a == [] {
      assert a + b == b;
    } else {
      SerializeAppend(a[1..], b);
      assert (a + b)[1..] == a[1..] + b;
      Assoc(OnWire(a[0]), Serialize(a[1..]), Serialize(b));
    }
  }
}
