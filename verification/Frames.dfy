/** The framed wire codec (src/wire.cpp:13-91): magic, version, type, reserved flags, length, payload, CRC-32C. */
module Frames {
  import opened Types
  import opened ByteCodec
  import opened Crc32c

  const WIRE_MAGIC: nat := 0x3152_4643
  const FORMAT_VERSION: u8 := 1
  const HEADER_BYTES: nat := 12
  const OVERHEAD_BYTES: nat := 16

  const UNSUPPORTED_VERSION: Reason := 36
  const CHECKSUM_MISMATCH: Reason := 38
  const TRUNCATED_INPUT: Reason := 39

  /** Hello, HelloAck, Request, Response, Bye. */
  type MessageType = t: u8 | 1 <= t <= 5 witness 1

  datatype FrameResult = Frame(kind: MessageType, payload: Bytes, consumed: nat) | Rejected(reason: Reason)

  function Header(kind: MessageType, length: nat): (h: Bytes)
    ensures |h| == HEADER_BYTES
  {
    Le(WIRE_MAGIC, 4) + [FORMAT_VERSION, kind, 0, 0] + Le(length, 4)
  }

  function FrameBody(kind: MessageType, payload: Bytes): Bytes { Header(kind, |payload|) + payload }

  /** `encode_frame`, for a payload whose length the header can say. */
  function FrameBytes(kind: MessageType, payload: Bytes): Bytes {
    FrameBody(kind, payload) + Le(Crc(FrameBody(kind, payload)), 4)
  }

  function Slice(b: Bytes, at: nat, n: nat): Bytes
    requires at + n <= |b|
  {
    b[at..at + n]
  }

  /** `decode_frame`: the tests in the order the code makes them. */
  function DecodeFrame(b: Bytes, maxPayload: nat): FrameResult {
    if |b| < OVERHEAD_BYTES then Rejected(TRUNCATED_INPUT)
    else if Un(Slice(b, 0, 4)) != WIRE_MAGIC then Rejected(MALFORMED_MESSAGE)
    else if b[4] != FORMAT_VERSION then Rejected(UNSUPPORTED_VERSION)
    else if !(1 <= b[5] <= 5) then Rejected(MALFORMED_MESSAGE)
    else if b[6] != 0 || b[7] != 0 then Rejected(MALFORMED_MESSAGE)
    else
      var length := Un(Slice(b, 8, 4));
      if length > maxPayload then Rejected(OVERSIZED_FRAME)
      else if |b| < OVERHEAD_BYTES + length then Rejected(TRUNCATED_INPUT)
      else if Un(Slice(b, HEADER_BYTES + length, 4)) != Crc(b[..HEADER_BYTES + length]) then Rejected(CHECKSUM_MISMATCH)
      else Frame(b[5], Slice(b, HEADER_BYTES, length), OVERHEAD_BYTES + length)
  }

  lemma HeaderFields(kind: MessageType, length: nat)
    requires length < 0x1_0000_0000
    ensures var h := Header(kind, length);
            && Un(h[..4]) == WIRE_MAGIC && h[4] == FORMAT_VERSION && h[5] == kind && h[6] == 0 && h[7] == 0
            && h[8..] == Le(length, 4) && Un(h[8..]) == length
  {
    var h := Header(kind, length);
    Widths();
    assert h[..4] == Le(WIRE_MAGIC, 4);
    UnLe(WIRE_MAGIC, 4);
    UnLe(length, 4);
  }

  /** A frame decodes to what was framed, whatever follows it on the stream. */
  lemma FrameRoundTrip(kind: MessageType, payload: Bytes, rest: Bytes, maxPayload: nat)
    requires |payload| < 0x1_0000_0000 && |payload| <= maxPayload
    ensures DecodeFrame(FrameBytes(kind, payload) + rest, maxPayload) ==
              Frame(kind, payload, OVERHEAD_BYTES + |payload|)
  {
    hide Crc, Un, Le, Header;
    var h, n, crc := Header(kind, |payload|), |payload|, Crc(FrameBody(kind, payload));
    HeaderFields(kind, n);
    Widths();
    UnLe(crc, 4);
    FrameLayout(h, payload, Le(crc, 4), rest);
  }

  /** Where the parts of a frame lie in the stream. */
  lemma FrameLayout(h: Bytes, payload: Bytes, crc: Bytes, rest: Bytes)
    requires |h| == HEADER_BYTES && |crc| == 4
    ensures var b, n := h + payload + crc + rest, |payload|;
            && Slice(b, 0, 4) == h[..4] && Slice(b, 8, 4) == h[8..] && (forall i :: 4 <= i < 8 ==> b[i] == h[i])
            && Slice(b, HEADER_BYTES, n) == payload && Slice(b, HEADER_BYTES + n, 4) == crc
            && b[..HEADER_BYTES + n] == h + payload
  {
    Middle(h + payload, crc, rest);
    Assoc(h + payload, crc, rest);
    Middle(h, payload, crc + rest);
    Assoc(h, payload, crc + rest);
    FrontSlice(h, payload + (crc + rest), 0, 4);
    FrontSlice(h, payload + (crc + rest), 8, 12);
  }

  /** Whatever is accepted is the frame of what was read from it, within the receiver's bound. */
  lemma FrameCanonical(b: Bytes, maxPayload: nat)
    requires DecodeFrame(b, maxPayload).Frame?
    ensures var f := DecodeFrame(b, maxPayload);
            && f.consumed <= |b| && |f.payload| <= maxPayload && f.consumed == OVERHEAD_BYTES + |f.payload|
            && b[..f.consumed] == FrameBytes(f.kind, f.payload)
  {
    hide Un, Checksum;
    var f := DecodeFrame(b, maxPayload);
    var n := |f.payload|;
    LeUn(Slice(b, 0, 4));
    LeUn(Slice(b, 8, 4));
    LeUn(Slice(b, HEADER_BYTES + n, 4));
    assert b[..HEADER_BYTES] == Header(f.kind, n);
    assert b[..HEADER_BYTES + n] == FrameBody(f.kind, f.payload);
    assert b[..f.consumed] == b[..HEADER_BYTES + n] + Slice(b, HEADER_BYTES + n, 4);
  }

  lemma SameLength(x: Bytes, y: Bytes, kind: MessageType, payload: Bytes, maxPayload: nat)
    requires |payload| < 0x1_0000_0000 && x == FrameBytes(kind, payload) && |y| == |x|
    requires forall i :: 8 <= i < 12 ==> x[i] == y[i]
    requires DecodeFrame(y, maxPayload).Frame?
    ensures |DecodeFrame(y, maxPayload).payload| == |payload|
  {
    HeaderFields(kind, |payload|);
    assert Slice(x, 8, 4) == Header(kind, |payload|)[8..];
    assert Slice(y, 8, 4) == Slice(x, 8, 4);
  }

  lemma LeInjective(a: u32, b: u32)
    requires Le(a, 4) == Le(b, 4)
    ensures a == b
  {
    Widths();
    UnLe(a, 4);
    UnLe(b, 4);
  }

  /** Two checksummed bodies of one length never differ in exactly one byte. */
  lemma ChecksummedDistance(x: Bytes, y: Bytes, i: nat)
    requires |x| == |y|
    ensures !DifferOnlyAt(x + Le(Crc(x), 4), y + Le(Crc(y), 4), i)
  {
    var a, b := x + Le(Crc(x), 4), y + Le(Crc(y), 4);
    if x != y {
      if DifferOnlyAt(x, y, i) {
        OneByteChangesCrc(x, y, i);
        if Le(Crc(x), 4) == Le(Crc(y), 4) { LeInjective(Crc(x), Crc(y)); }
        var j :| 0 <= j < 4 && Le(Crc(x), 4)[j] != Le(Crc(y), 4)[j];
        assert a[|x| + j] != b[|x| + j];
      } else {
        var k :| 0 <= k < |x| && x[k] != y[k] && (k != i || exists j :: 0 <= j < |x| && j != i && x[j] != y[j]);
        var j := if k != i then k else var j :| 0 <= j < |x| && j != i && x[j] != y[j]; j;
        assert a[j] == x[j] && b[j] == y[j];
      }
    }
  }

  /** A frame with any one byte changed, outside its length field, is refused whatever the receiver's bound. */
  lemma OneByteRefused(kind: MessageType, payload: Bytes, damaged: Bytes, i: nat, maxPayload: nat)
    requires |payload| < 0x1_0000_0000 && DifferOnlyAt(FrameBytes(kind, payload), damaged, i) && !(8 <= i < 12)
    ensures DecodeFrame(damaged, maxPayload).Rejected?
  {
    var f := DecodeFrame(damaged, maxPayload);
    if f.Frame? {
      SameLength(FrameBytes(kind, payload), damaged, kind, payload, maxPayload);
      FrameCanonical(damaged, maxPayload);
      assert damaged[..f.consumed] == damaged;
      ChecksummedDistance(FrameBody(kind, payload), FrameBody(f.kind, f.payload), i);
    }
  }

  // ---------------------------------------------------------------- as it runs

  method EncodeFrame(table: array<Word>, kind: MessageType, payload: Bytes) returns (out: Option<Bytes>)
    requires IsTable(table[..])
    ensures out == if |payload| > 0xFFFF_FFFF then None else Some(FrameBytes(kind, payload))
  {
    if |payload| > 0xFFFF_FFFF { return None; }
    var writer := new ByteWriter();
    writer.Integer(WIRE_MAGIC, 4);
    writer.Raw([FORMAT_VERSION, kind, 0, 0]);
    writer.Integer(|payload|, 4);
    writer.Raw(payload);
    assert writer.out == FrameBody(kind, payload);
    var crc := Compute(table, writer.out, NO_SEED);
    writer.Integer(Number(crc), 4);
    out := Some(writer.out);
  }

  method DecodeFrameBytes(table: array<Word>, data: Bytes, maxPayload: nat) returns (f: FrameResult)
    requires IsTable(table[..])
    ensures f == DecodeFrame(data, maxPayload)
  {
    hide Un, Checksum, IsTable;
    if |data| < OVERHEAD_BYTES { return Rejected(TRUNCATED_INPUT); }
    var reader := new ByteReader(data);
    var _, magic := reader.Integer(4);
    assert Slice(data, 0, 4) == data[..4];
    if magic != WIRE_MAGIC { return Rejected(MALFORMED_MESSAGE); }
    if data[4] != FORMAT_VERSION { return Rejected(UNSUPPORTED_VERSION); }
    if !(1 <= data[5] <= 5) { return Rejected(MALFORMED_MESSAGE); }
    if data[6] != 0 || data[7] != 0 { return Rejected(MALFORMED_MESSAGE); }
    var _ := reader.Skip(4);
    var _, length := reader.Integer(4);
    TwoSlices(data[4..], 4, 4);
    TwoSlices(data, 8, 4);
    if length > maxPayload { return Rejected(OVERSIZED_FRAME); }
    if |data| < OVERHEAD_BYTES + length { return Rejected(TRUNCATED_INPUT); }
    var trailer := new ByteReader(data[HEADER_BYTES + length..]);
    var _, expected := trailer.Integer(4);
    TwoSlices(data, HEADER_BYTES + length, 4);
    var actual := Compute(table, data[..HEADER_BYTES + length], NO_SEED);
    if expected != Number(actual) { return Rejected(CHECKSUM_MISMATCH); }
    f := Frame(data[5], data[HEADER_BYTES..HEADER_BYTES + length], OVERHEAD_BYTES + length);
  }
}
