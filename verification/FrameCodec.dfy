/** The binary message layout: an eight-byte big-endian offset, then the chunk
    (written by internal/wrapper/websocket.go, read by internal/server/web/src/terminal.js). */
module FrameCodec {
  import opened Wrappers
  import opened Words
  import opened Terminal

  const HEADER: nat := 8

  /** The k low bytes of n, most significant first. */
  function BigEndian(n: nat, k: nat): (bytes: Bytes)
    ensures |bytes| == k
  {
    if k == 0 then [] else BigEndian(n / 256, k - 1) + [n % 256]
  }

  function ReadBigEndian(bytes: Bytes): nat {
    if bytes == [] then 0
    else 256 * ReadBigEndian(bytes[..|bytes| - 1]) + bytes[|bytes| - 1]
  }

  function Range(k: nat): nat {
    if k == 0 then 1 else 256 * Range(k - 1)
  }

  function Encode(frame: Frame): Bytes {
    BigEndian(frame.offset, HEADER) + frame.data
  }

  /** The browser's reader; a message too short for the header is refused. */
  function Decode(raw: Bytes): Option<Frame> {
    if |raw| < HEADER then None
    else
      ReadWithinRange(raw[..HEADER]);
      Some(Frame(ReadBigEndian(raw[..HEADER]), raw[HEADER..]))
  }

  lemma {:induction false} ReadWithinRange(bytes: Bytes)
    ensures ReadBigEndian(bytes) < Range(|bytes|)
    ensures |bytes| == HEADER ==> ReadBigEndian(bytes) < TWO_TO_THE_64
    decreases |bytes|
  {
    assert Range(8) == TWO_TO_THE_64;
    if bytes != [] {
      ReadWithinRange(bytes[..|bytes| - 1]);
    }
  }

  lemma {:induction false} ReadInvertsWrite(n: nat, k: nat)
    requires n < Range(k)
    ensures ReadBigEndian(BigEndian(n, k)) == n
    decreases k
  {
    if k > 0 {
      ReadInvertsWrite(n / 256, k - 1);
      assert BigEndian(n, k)[..k - 1] == BigEndian(n / 256, k - 1);
    }
  }

  lemma {:induction false} WriteInvertsRead(bytes: Bytes)
    ensures BigEndian(ReadBigEndian(bytes), |bytes|) == bytes
    decreases |bytes|
  {
    if bytes != [] {
      WriteInvertsRead(bytes[..|bytes| - 1]);
    }
  }

  /** Decoding and encoding undo one another: every frame survives the wire, and every
      message the browser accepts is the encoding of exactly one frame. */
  lemma RoundTrip(frame: Frame, raw: Bytes)
    ensures Decode(Encode(frame)) == Some(frame)
    ensures |raw| >= HEADER <==> Decode(raw).Some?
    ensures Decode(raw).Some? ==> Encode(Decode(raw).value) == raw
  {
    assert Range(8) == TWO_TO_THE_64;
    ReadInvertsWrite(frame.offset, HEADER);
    assert Encode(frame)[..HEADER] == BigEndian(frame.offset, HEADER);
    assert Encode(frame)[HEADER..] == frame.data;
    if |raw| >= HEADER {
      WriteInvertsRead(raw[..HEADER]);
    }
  }

  lemma PeelLast(bytes: Bytes, k: nat)
    requires 0 < k <= |bytes|
    ensures ReadBigEndian(bytes[..k]) == 256 * ReadBigEndian(bytes[..k - 1]) + bytes[k - 1]
  {
    assert bytes[..k][..k - 1] == bytes[..k - 1];
  }

  /** Eight bytes, the most significant first. */
  function Word(b: Bytes): int
    requires |b| == 8
  {
    (b[0] as int) * 0x100_0000_0000_0000 + (b[1] as int) * 0x1_0000_0000_0000
    + (b[2] as int) * 0x100_0000_0000 + (b[3] as int) * 0x1_0000_0000
    + (b[4] as int) * 0x100_0000 + (b[5] as int) * 0x1_0000 + (b[6] as int) * 0x100 + (b[7] as int)
  }

  /** On the wire the offset is eight bytes in network order, followed by the data. */
  lemma HeaderIsNetworkOrder(frame: Frame)
    ensures var e := Encode(frame);
            && |e| == 8 + |frame.data| && e[8..] == frame.data
            && frame.offset == Word(e[..8])
  {
    var bytes := BigEndian(frame.offset, HEADER);
    assert Range(8) == TWO_TO_THE_64;
    ReadInvertsWrite(frame.offset, HEADER);
    forall k | 0 < k <= 8
      ensures ReadBigEndian(bytes[..k]) == 256 * ReadBigEndian(bytes[..k - 1]) + bytes[k - 1]
    {
      PeelLast(bytes, k);
    }
    assert bytes[..0] == [] && bytes[..8] == bytes;
    assert ReadBigEndian(bytes[..4]) == (((bytes[0] as int) * 256 + bytes[1]) * 256 + bytes[2]) * 256 + bytes[3];
    assert ReadBigEndian(bytes) == Word(bytes);
    assert Encode(frame)[..8] == bytes;
  }
}
