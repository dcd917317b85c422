/**
 HIP/1 framing (src/core/hip/frame.rs): `[u32 be length][u8 type][payload]`
 where the length counts the type byte and the payload.
 */
module HipFrame {
  import opened Common
  import opened Bytes

  const MAX_DEFAULT_FRAME_BYTES: nat := 16 * 1024 * 1024

  datatype FrameType =
    | Hello | HelloAck | CheckBatch | CheckAck
    | UploadBegin | UploadChunk | UploadEnd | UploadAck
    | Commit | CommitAck | Bye | Window | Ping | Pong | Error

  datatype Frame = Frame(frameType: FrameType, payload: seq<byte>)

  datatype HipError =
    | Io
    | FrameTooLarge(size: nat, max: nat)
    | Protocol

  function ToByte(t: FrameType): byte {
    match t
    case Hello => 0x01
    case HelloAck => 0x02
    case CheckBatch => 0x03
    case CheckAck => 0x04
    case UploadBegin => 0x05
    case UploadChunk => 0x06
    case UploadEnd => 0x07
    case UploadAck => 0x08
    case Commit => 0x09
    case CommitAck => 0x0A
    case Bye => 0x0B
    case Window => 0x0C
    case Ping => 0x0E
    case Pong => 0x0F
    case Error => 0x1F
  }

  function FromByte(b: byte): (r: Result<FrameType, HipError>)
    ensures r.Ok? ==> ToByte(r.value) == b
    ensures r.Err? ==> r.error == Protocol && forall t :: ToByte(t) != b
  {
    if b == 0x01 then Ok(Hello)
    else if b == 0x02 then Ok(HelloAck)
    else if b == 0x03 then Ok(CheckBatch)
    else if b == 0x04 then Ok(CheckAck)
    else if b == 0x05 then Ok(UploadBegin)
    else if b == 0x06 then Ok(UploadChunk)
    else if b == 0x07 then Ok(UploadEnd)
    else if b == 0x08 then Ok(UploadAck)
    else if b == 0x09 then Ok(Commit)
    else if b == 0x0A then Ok(CommitAck)
    else if b == 0x0B then Ok(Bye)
    else if b == 0x0C then Ok(Window)
    else if b == 0x0E then Ok(Ping)
    else if b == 0x0F then Ok(Pong)
    else if b == 0x1F then Ok(Error)
    else Err(Protocol)
  }

  lemma FrameTypeRoundTrip(t: FrameType)
    ensures FromByte(ToByte(t)) == Ok(t)
  {
    match t {
      case Hello => case HelloAck => case CheckBatch => case CheckAck =>
      case UploadBegin => case UploadChunk => case UploadEnd => case UploadAck =>
      case Commit => case CommitAck => case Bye => case Window =>
      case Ping => case Pong => case Error =>
    }
  }

  /** The codes a peer relies on; 0x0D is unassigned and errors stand apart. */
  lemma FrameTypeCodes()
    ensures seq(12, i requires 0 <= i < 12 =>
                  ToByte([Hello, HelloAck, CheckBatch, CheckAck, UploadBegin, UploadChunk,
                          UploadEnd, UploadAck, Commit, CommitAck, Bye, Window][i]) as int)
            == seq(12, i => i + 1)
    ensures ToByte(Ping) == 0x0E && ToByte(Pong) == 0x0F && ToByte(Error) == 0x1F
  {
  }

  /** The bytes of one frame; the length field is the `as u32` truncation of the length. */
  function Wire(f: Frame): seq<byte> {
    BigEndian((|f.payload| + 1) % TWO32, 4) + [ToByte(f.frameType)] + f.payload
  }

  /** Byte by byte: the length, most significant byte first, the type, the payload. */
  ghost predicate Layout(bytes: seq<byte>, f: Frame) {
    var total := |f.payload| + 1;
    && |bytes| == 4 + total
    && bytes[0] == total / 16777216 % 256 && bytes[1] == total / 65536 % 256
    && bytes[2] == total / 256 % 256 && bytes[3] == total % 256
    && bytes[4] == ToByte(f.frameType) && bytes[5..] == f.payload
  }

  lemma WireLayout(f: Frame)
    ensures Layout(Wire(f), f)
  {
    var total := |f.payload| + 1;
    FieldBytes(total % TWO32);
    LowBytes(total);
    hide BigEndian;
    var field := BigEndian(total % TWO32, 4);
    assert Wire(f)[..4] == field && Wire(f)[5..] == f.payload;
    assert forall i :: 0 <= i < 4 ==> Wire(f)[i] == field[i];
  }

  lemma FieldBytes(n: nat)
    ensures BigEndian(n, 4) == [n / 16777216 % 256, n / 65536 % 256, n / 256 % 256, n % 256]
  {
    assert Pow256(0) == 1 && Pow256(1) == 256 && Pow256(2) == 65536 && Pow256(3) == 16777216;
    hide BigEndian, Pow256;
    BigEndianDigit(n, 4, 0);
    BigEndianDigit(n, 4, 1);
    BigEndianDigit(n, 4, 2);
    BigEndianDigit(n, 4, 3);
  }

  /** Truncation to 32 bits keeps the low four bytes. */
  lemma LowBytes(n: nat)
    ensures var m := n % TWO32;
            && m / 16777216 % 256 == n / 16777216 % 256 && m / 65536 % 256 == n / 65536 % 256
            && m / 256 % 256 == n / 256 % 256 && m % 256 == n % 256
  {
    var (k, m) := (n / TWO32, n % TWO32);
    assert n == 16777216 * (256 * k) + m && n == 65536 * (65536 * k) + m && n == 256 * (16777216 * k) + m;
    assert n / 16777216 == 256 * k + m / 16777216;
    assert n / 65536 == 65536 * k + m / 65536;
    assert n / 256 == 16777216 * k + m / 256;
  }

  /** `Frame::encode`: append length, type and payload to one buffer. */
  method Encode(f: Frame, maxFrameBytes: nat) returns (r: Result<seq<byte>, HipError>)
    ensures r == if |f.payload| + 1 > maxFrameBytes
                 then Err(FrameTooLarge(|f.payload| + 1, maxFrameBytes))
                 else Ok(Wire(f))
    ensures r.Ok? ==> Layout(r.value, f)
  {
    WireLayout(f);
    var totalLen := |f.payload| + 1;
    if totalLen > maxFrameBytes {
      return Err(FrameTooLarge(totalLen, maxFrameBytes));
    }
    var buf := BigEndian(totalLen % TWO32, 4);
    buf := buf + [ToByte(f.frameType)];
    buf := buf + f.payload;
    return Ok(buf);
  }

  datatype Parsed =
    | Parsed(frame: Frame, rest: seq<byte>)
    | Broken(error: HipError, left: seq<byte>)

  /** What one `read_frame` makes of the bytes that will ever arrive. */
  function Parse(bytes: seq<byte>, maxFrameBytes: nat): Parsed {
    if |bytes| < 4 then Broken(Io, []) else
    var declared := FromBigEndian(bytes[..4]);
    if declared == 0 then Broken(Protocol, bytes[4..]) else
    if declared > maxFrameBytes then Broken(FrameTooLarge(declared, maxFrameBytes), bytes[4..]) else
    if |bytes| < 5 then Broken(Io, []) else
    var t := FromByte(bytes[4]);
    if t.Err? then Broken(Protocol, bytes[5..]) else
    if |bytes| < 4 + declared then Broken(Io, []) else
    Parsed(Frame(t.value, bytes[5..4 + declared]), bytes[4 + declared..])
  }

  /** The number in a four-byte length field. */
  function Declared(bytes: seq<byte>): nat
    requires |bytes| >= 4
  {
    16777216 * (bytes[0] as int) + 65536 * (bytes[1] as int) + 256 * (bytes[2] as int) + bytes[3] as int
  }

  lemma FieldValue(bs: seq<byte>)
    requires |bs| == 4
    ensures FromBigEndian(bs) == Declared(bs)
  {
    var (b1, b2, b3) := (bs[..1], bs[..2], bs[..3]);
    assert b3[..2] == b2 && b2[..1] == b1 && b1[..0] == [];
    assert FromBigEndian(b1) == bs[0] as int;
    assert FromBigEndian(b2) == 256 * (bs[0] as int) + bs[1];
    assert FromBigEndian(b3) == 65536 * (bs[0] as int) + 256 * (bs[1] as int) + bs[2];
  }

  /** A frame is read exactly if its length is within bounds, all of it is there, and its type is known. */
  lemma ParsesIff(bytes: seq<byte>, maxFrameBytes: nat)
    ensures var p := Parse(bytes, maxFrameBytes);
            && (p.Parsed? <==> && |bytes| >= 5 && 1 <= Declared(bytes) <= maxFrameBytes
                               && |bytes| >= 4 + Declared(bytes) && exists t :: ToByte(t) == bytes[4])
            && (p.Parsed? ==> && bytes == bytes[..4] + [ToByte(p.frame.frameType)] + p.frame.payload + p.rest
                              && |p.frame.payload| + 1 == Declared(bytes))
            && (p.Broken? && p.error.FrameTooLarge? <==> |bytes| >= 4 && Declared(bytes) > maxFrameBytes)
            && (|bytes| >= 4 && Declared(bytes) == 0 ==> p == Broken(Protocol, bytes[4..]))
  {
    if |bytes| >= 4 {
      FieldValue(bytes[..4]);
      assert Declared(bytes) == Declared(bytes[..4]);
    }
  }

  /** One direction of a byte stream: the bytes that are still to be read. */
  class ByteStream {
    var unread: seq<byte>

    constructor (bytes: seq<byte>)
      ensures unread == bytes
    {
      unread := bytes;
    }

    method WriteAll(bytes: seq<byte>)
      modifies this
      ensures unread == old(unread) + bytes
    {
      unread := unread + bytes;
    }

    /** `read_exact`: all of the bytes or an end-of-file error. */
    method ReadExact(n: nat) returns (r: Result<seq<byte>, HipError>)
      modifies this
      ensures |old(unread)| < n ==> r == Err(Io) && unread == []
      ensures |old(unread)| >= n ==> r == Ok(old(unread)[..n]) && unread == old(unread)[n..]
    {
      if |unread| < n {
        unread := [];
        return Err(Io);
      }
      r := Ok(unread[..n]);
      unread := unread[n..];
    }
  }

  method ReadFrame(reader: ByteStream, maxFrameBytes: nat) returns (r: Result<Frame, HipError>)
    modifies reader
    ensures match Parse(old(reader.unread), maxFrameBytes)
            case Parsed(f, rest) => r == Ok(f) && reader.unread == rest
            case Broken(e, left) => r == Err(e) && reader.unread == left
    ensures var bytes := old(reader.unread);
            && (r.Ok? <==> && |bytes| >= 5 && 1 <= Declared(bytes) <= maxFrameBytes
                           && |bytes| >= 4 + Declared(bytes) && exists t :: ToByte(t) == bytes[4])
            && (r.Ok? ==> && ToByte(r.value.frameType) == bytes[4] && r.value.payload == bytes[5..4 + Declared(bytes)]
                          && reader.unread == bytes[4 + Declared(bytes)..])
  {
    ParsesIff(reader.unread, maxFrameBytes);
    ghost var before := reader.unread;
    var lenBuf := reader.ReadExact(4);
    if lenBuf.Err? { return Err(lenBuf.error); }
    var declared := FromBigEndian(lenBuf.value);
    if declared == 0 { return Err(Protocol); }
    if declared > maxFrameBytes { return Err(FrameTooLarge(declared, maxFrameBytes)); }
    var typeBuf := reader.ReadExact(1);
    if typeBuf.Err? { return Err(typeBuf.error); }
    assert before[4..][..1] == [before[4]] && before[4..][1..] == before[5..];
    var t := FromByte(typeBuf.value[0]);
    if t.Err? { return Err(t.error); }
    var payload: seq<byte> := [];
    if declared - 1 > 0 {
      var body := reader.ReadExact(declared - 1);
      if body.Err? { return Err(body.error); }
      payload := body.value;
      assert before[5..][..declared - 1] == before[5..4 + declared];
      assert before[5..][declared - 1..] == before[4 + declared..];
    }
    return Ok(Frame(t.value, payload));
  }

  /**
   A frame that `encode` accepted reads back, with whatever follows it left
   untouched, exactly when its length fits the four-byte field.  A larger
   configured maximum lets the length wrap, and then it never reads back.
   */
  lemma FrameReadsBackIff(f: Frame, rest: seq<byte>, maxFrameBytes: nat)
    requires |f.payload| + 1 <= maxFrameBytes
    ensures Parse(Wire(f) + rest, maxFrameBytes) == Parsed(f, rest) <==> |f.payload| + 1 < TWO32
  {
    var total := |f.payload| + 1;
    var declared := total % TWO32;
    var bytes := Wire(f) + rest;
    WidthLimits();
    BigEndianRoundTrip(declared, 4);
    assert bytes[..4] == BigEndian(declared, 4);
    assert bytes[4] == ToByte(f.frameType);
    FrameTypeRoundTrip(f.frameType);
    if total < TWO32 {
      assert declared == total;
      assert bytes[5..4 + declared] == f.payload;
      assert bytes[4 + declared..] == rest;
    } else {
      assert declared < total;
    }
  }

  /** Whatever is read as a frame is the encoding of that frame: no two byte strings read alike. */
  lemma ParsedIsWire(bytes: seq<byte>, maxFrameBytes: nat)
    ensures var p := Parse(bytes, maxFrameBytes);
            p.Parsed? ==> bytes == Wire(p.frame) + p.rest && |p.frame.payload| + 1 <= maxFrameBytes
  {
    var p := Parse(bytes, maxFrameBytes);
    ParsesIff(bytes, maxFrameBytes);
    if p.Parsed? {
      WidthLimits();
      BigEndianReadsBack(bytes[..4]);
      FieldValue(bytes[..4]);
      hide BigEndian, FromBigEndian, Pow256;
      assert bytes[..4] == BigEndian(|p.frame.payload| + 1, 4);
    }
  }

  function WireAll(fs: seq<Frame>): seq<byte> {
    if fs == [] then [] else Wire(fs[0]) + WireAll(fs[1..])
  }

  /** The list of frames read until the reader stops, and the error that stops it. */
  function ParseAll(bytes: seq<byte>, maxFrameBytes: nat): (seq<Frame>, HipError)
    decreases |bytes|
  {
    match Parse(bytes, maxFrameBytes)
    case Parsed(f, rest) =>
      var (more, e) := ParseAll(rest, maxFrameBytes);
      ([f] + more, e)
    case Broken(e, _) => ([], e)
  }

  /** Length-prefixed frames are self-delimiting: a written list reads back as that list. */
  lemma {:induction false} FrameListReadsBack(fs: seq<Frame>, maxFrameBytes: nat)
    requires maxFrameBytes < TWO32
    requires forall i :: 0 <= i < |fs| ==> |fs[i].payload| + 1 <= maxFrameBytes
    ensures ParseAll(WireAll(fs), maxFrameBytes) == (fs, Io)
  {
    if fs != [] {
      FrameReadsBackIff(fs[0], WireAll(fs[1..]), maxFrameBytes);
      FrameListReadsBack(fs[1..], maxFrameBytes);
      assert [fs[0]] + fs[1..] == fs;
    }
  }

  /** However the connection is cut, the frames read are a prefix of the frames written. */
  lemma {:induction false} CutStreamReadsPrefix(fs: seq<Frame>, n: nat, maxFrameBytes: nat)
    requires maxFrameBytes < TWO32
    requires forall i :: 0 <= i < |fs| ==> |fs[i].payload| + 1 <= maxFrameBytes
    requires n <= |WireAll(fs)|
    ensures ParseAll(WireAll(fs)[..n], maxFrameBytes).0 <= fs
    ensures ParseAll(WireAll(fs)[..n], maxFrameBytes).1 == Io
  {
    if fs != [] {
      var cut := WireAll(fs)[..n];
      var first := Wire(fs[0]);
      if n < |first| {
        FrameReadsBackIff(fs[0], [], maxFrameBytes);
        assert first + [] == first;
        assert cut == first[..n];
        if n >= 4 {
          assert cut[..4] == first[..4];
        }
      } else {
        var m := n - |first|;
        assert cut == first + WireAll(fs[1..])[..m];
        FrameReadsBackIff(fs[0], WireAll(fs[1..])[..m], maxFrameBytes);
        CutStreamReadsPrefix(fs[1..], m, maxFrameBytes);
        assert fs == [fs[0]] + fs[1..];
      }
    }
  }
}
