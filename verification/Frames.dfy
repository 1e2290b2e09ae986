/** The on-disk frame of the operational journal: a 32-byte little-endian header, then the kind and
    the payload. Bytes are bit vectors, header fields are naturals below 256 to their width. */
module Frames {
  import opened Crc32c
  import opened Bytes
  import opened FrameLog
  import opened Wrappers

  const FRAME_MAGIC: nat := 0x314d5246
  const FRAME_VERSION: nat := 1
  const HEADER_SIZE: nat := 32
  const MAXIMUM_KIND_BYTES: nat := 64
  const MAXIMUM_NESTING: nat := 32

  /** The JSON library at the boundary: how a payload is written, how bytes are read back (None is a
      parse error or a nesting callback that threw), and how deep a payload nests. */
  datatype PayloadCodec<!J> = PayloadCodec(dump: J -> seq<byte>, parse: seq<byte> -> Option<J>, nesting: J -> nat)

  /** What the library promises: written payloads are read back unless they nest too deep for replay. */
  ghost predicate Faithful<J(!new)>(codec: PayloadCodec<J>) {
    forall j: J :: codec.parse(codec.dump(j)) == if codec.nesting(j) <= MAXIMUM_NESTING then Some(j) else None
  }

  datatype Record<J> = Record(sequence: nat, kind: seq<byte>, payload: J)

  // Little-endian fields

  function Power256(n: nat): nat {
    if n == 0 then 1 else 256 * Power256(n - 1)
  }

  /** The low eight bits of a number, and the number a byte stands for. */
  function ByteOf(n: nat): byte {
    var n1 := n / 2; var n2 := n1 / 2; var n3 := n2 / 2; var n4 := n3 / 2;
    var n5 := n4 / 2; var n6 := n5 / 2; var n7 := n6 / 2;
    BitsToByte(n % 2 == 1, n1 % 2 == 1, n2 % 2 == 1, n3 % 2 == 1, n4 % 2 == 1, n5 % 2 == 1, n6 % 2 == 1, n7 % 2 == 1)
  }

  function BitsToByte(b0: bool, b1: bool, b2: bool, b3: bool, b4: bool, b5: bool, b6: bool, b7: bool): byte {
    (if b0 then 1 else 0) | (if b1 then 2 else 0) | (if b2 then 4 else 0) | (if b3 then 8 else 0)
    | (if b4 then 16 else 0) | (if b5 then 32 else 0) | (if b6 then 64 else 0) | (if b7 then 128 else 0)
  }

  function ValueOf(b: byte): nat {
    (if b & 1 != 0 then 1 else 0) + (if b & 2 != 0 then 2 else 0) + (if b & 4 != 0 then 4 else 0)
    + (if b & 8 != 0 then 8 else 0) + (if b & 16 != 0 then 16 else 0) + (if b & 32 != 0 then 32 else 0)
    + (if b & 64 != 0 then 64 else 0) + (if b & 128 != 0 then 128 else 0)
  }

  lemma BitsOfByte(b0: bool, b1: bool, b2: bool, b3: bool, b4: bool, b5: bool, b6: bool, b7: bool)
    ensures var b := BitsToByte(b0, b1, b2, b3, b4, b5, b6, b7);
      && (b & 1 != 0) == b0 && (b & 2 != 0) == b1 && (b & 4 != 0) == b2 && (b & 8 != 0) == b3
      && (b & 16 != 0) == b4 && (b & 32 != 0) == b5 && (b & 64 != 0) == b6 && (b & 128 != 0) == b7
  {
  }

  lemma ByteRoundTrip(n: nat)
    ensures ValueOf(ByteOf(n)) == n % 256
  {
    var n1 := n / 2; var n2 := n1 / 2; var n3 := n2 / 2; var n4 := n3 / 2;
    var n5 := n4 / 2; var n6 := n5 / 2; var n7 := n6 / 2;
    BitsOfByte(n % 2 == 1, n1 % 2 == 1, n2 % 2 == 1, n3 % 2 == 1, n4 % 2 == 1, n5 % 2 == 1, n6 % 2 == 1, n7 % 2 == 1);
    ValueOfBits(ByteOf(n), n % 2 == 1, n1 % 2 == 1, n2 % 2 == 1, n3 % 2 == 1, n4 % 2 == 1, n5 % 2 == 1, n6 % 2 == 1, n7 % 2 == 1);
    BinaryDigits(n, n1, n2, n3, n4, n5, n6, n7);
  }

  lemma ValueOfBits(b: byte, b0: bool, b1: bool, b2: bool, b3: bool, b4: bool, b5: bool, b6: bool, b7: bool)
    requires (b & 1 != 0) == b0 && (b & 2 != 0) == b1 && (b & 4 != 0) == b2 && (b & 8 != 0) == b3
    requires (b & 16 != 0) == b4 && (b & 32 != 0) == b5 && (b & 64 != 0) == b6 && (b & 128 != 0) == b7
    ensures ValueOf(b) == Weigh(b0, 1) + Weigh(b1, 2) + Weigh(b2, 4) + Weigh(b3, 8)
                          + Weigh(b4, 16) + Weigh(b5, 32) + Weigh(b6, 64) + Weigh(b7, 128)
  {
  }

  function Weigh(bit: bool, weight: nat): nat {
    if bit then weight else 0
  }

  lemma Halving(n: nat, half: nat)
    requires half == n / 2
    ensures n == 2 * half + Weigh(n % 2 == 1, 1)
  {
  }

  lemma RemainderOf256(n: nat, high: nat, low: nat)
    requires n == 256 * high + low && low < 256
    ensures n % 256 == low
  {
  }

  lemma BinaryDigits(n: nat, n1: nat, n2: nat, n3: nat, n4: nat, n5: nat, n6: nat, n7: nat)
    requires n1 == n / 2 && n2 == n1 / 2 && n3 == n2 / 2 && n4 == n3 / 2
    requires n5 == n4 / 2 && n6 == n5 / 2 && n7 == n6 / 2
    ensures Weigh(n % 2 == 1, 1) + Weigh(n1 % 2 == 1, 2) + Weigh(n2 % 2 == 1, 4) + Weigh(n3 % 2 == 1, 8)
            + Weigh(n4 % 2 == 1, 16) + Weigh(n5 % 2 == 1, 32) + Weigh(n6 % 2 == 1, 64) + Weigh(n7 % 2 == 1, 128)
            == n % 256
  {
    var n8 := n7 / 2;
    Halving(n, n1); Halving(n1, n2); Halving(n2, n3); Halving(n3, n4);
    Halving(n4, n5); Halving(n5, n6); Halving(n6, n7); Halving(n7, n8);
    SumDigits(n, n1, n2, n3, n4, n5, n6, n7, n8, n % 2 == 1, n1 % 2 == 1, n2 % 2 == 1, n3 % 2 == 1,
              n4 % 2 == 1, n5 % 2 == 1, n6 % 2 == 1, n7 % 2 == 1);
  }

  lemma SumDigits(n: nat, n1: nat, n2: nat, n3: nat, n4: nat, n5: nat, n6: nat, n7: nat, n8: nat,
                  b0: bool, b1: bool, b2: bool, b3: bool, b4: bool, b5: bool, b6: bool, b7: bool)
    requires n == 2 * n1 + Weigh(b0, 1) && n1 == 2 * n2 + Weigh(b1, 1) && n2 == 2 * n3 + Weigh(b2, 1)
    requires n3 == 2 * n4 + Weigh(b3, 1) && n4 == 2 * n5 + Weigh(b4, 1) && n5 == 2 * n6 + Weigh(b5, 1)
    requires n6 == 2 * n7 + Weigh(b6, 1) && n7 == 2 * n8 + Weigh(b7, 1)
    ensures Weigh(b0, 1) + Weigh(b1, 2) + Weigh(b2, 4) + Weigh(b3, 8)
            + Weigh(b4, 16) + Weigh(b5, 32) + Weigh(b6, 64) + Weigh(b7, 128) == n % 256
  {
    RemainderOf256(n, n8, Weigh(b0, 1) + Weigh(b1, 2) + Weigh(b2, 4) + Weigh(b3, 8)
                          + Weigh(b4, 16) + Weigh(b5, 32) + Weigh(b6, 64) + Weigh(b7, 128));
  }

  function LittleEndian(value: nat, width: nat): (r: seq<byte>)
    ensures |r| == width
    decreases width
  {
    if width == 0 then [] else [ByteOf(value)] + LittleEndian(value / 256, width - 1)
  }

  function FromLittleEndian(bytes: seq<byte>): nat
    decreases |bytes|
  {
    if bytes == [] then 0 else ValueOf(bytes[0]) + 256 * FromLittleEndian(bytes[1..])
  }

  lemma {:induction false} LittleEndianRoundTrip(value: nat, width: nat)
    requires value < Power256(width)
    ensures FromLittleEndian(LittleEndian(value, width)) == value
    decreases width
  {
    if width > 0 {
      hide ByteOf, ValueOf;
      ByteRoundTrip(value);
      LittleEndianRoundTrip(value / 256, width - 1);
      ReadLow(ByteOf(value), LittleEndian(value / 256, width - 1));
    }
  }

  lemma ReadLow(low: byte, high: seq<byte>)
    ensures FromLittleEndian([low] + high) == ValueOf(low) + 256 * FromLittleEndian(high)
  {
    assert ([low] + high)[1..] == high;
  }

  /** Writing a field into the header buffer, one byte at a time from the low end. */
  method PutField(header: array<byte>, offset: nat, width: nat, value: nat)
    requires offset + width <= header.Length
    modifies header
    ensures header[..] == old(header[..offset]) + LittleEndian(value, width) + old(header[offset + width..])
  {
    hide ByteOf;
    var rest := value;
    for i := 0 to width
      invariant header[..offset + i] + LittleEndian(rest, width - i)
             == old(header[..offset]) + LittleEndian(value, width)
      invariant header[offset + i..] == old(header[offset + i..])
    {
      var before := header[..offset + i];
      assert old(header[offset + i..])[1..] == old(header[offset + i + 1..]);
      header[offset + i] := ByteOf(rest);
      assert header[..offset + i + 1] == before + [ByteOf(rest)];
      rest := rest / 256;
    }
    assert header[..] == header[..offset + width] + header[offset + width..];
  }

  method GetField(header: array<byte>, offset: nat, width: nat) returns (value: nat)
    requires offset + width <= header.Length
    ensures value == FromLittleEndian(header[offset..offset + width])
  {
    hide ValueOf;
    value := 0;
    var i := width;
    while i > 0
      invariant 0 <= i <= width
      invariant value == FromLittleEndian(header[offset + i..offset + width])
    {
      i := i - 1;
      value := ValueOf(header[offset + i]) + 256 * value;
      ReadLow(header[offset + i], header[offset + i + 1..offset + width]);
      assert header[offset + i..offset + width] == [header[offset + i]] + header[offset + i + 1..offset + width];
    }
  }

  // The checksum field

  function CrcBytes(crc: bv32): (r: seq<byte>)
    ensures |r| == 4
  {
    [(crc & 0xff) as byte, ((crc >> 8) & 0xff) as byte, ((crc >> 16) & 0xff) as byte, ((crc >> 24) & 0xff) as byte]
  }

  function CrcFromBytes(b: seq<byte>): bv32
    requires |b| == 4
  {
    (b[0] as bv32) | ((b[1] as bv32) << 8) | ((b[2] as bv32) << 16) | ((b[3] as bv32) << 24)
  }

  lemma CrcRoundTrip(crc: bv32)
    ensures CrcFromBytes(CrcBytes(crc)) == crc
  {
  }

  method PutCrc(header: array<byte>, offset: nat, crc: bv32)
    requires offset + 4 <= header.Length
    modifies header
    ensures header[..] == old(header[..offset]) + CrcBytes(crc) + old(header[offset + 4..])
  {
    header[offset] := (crc & 0xff) as byte;
    header[offset + 1] := ((crc >> 8) & 0xff) as byte;
    header[offset + 2] := ((crc >> 16) & 0xff) as byte;
    header[offset + 3] := ((crc >> 24) & 0xff) as byte;
  }

  // The header

  datatype Header = Header(magic: nat, version: nat, kindSize: nat, payloadSize: nat,
                           flag: nat, sequence: nat, crc: bv32, reserved: nat)

  function EncodeHeader(h: Header): (r: seq<byte>)
    ensures |r| == HEADER_SIZE
  {
    EncodeShape(h) + EncodeIdentity(h)
  }

  function EncodeShape(h: Header): (r: seq<byte>)
    ensures |r| == 16
  {
    LittleEndian(h.magic, 4) + LittleEndian(h.version, 2) + LittleEndian(h.kindSize, 2)
    + LittleEndian(h.payloadSize, 4) + LittleEndian(h.flag, 4)
  }

  function EncodeIdentity(h: Header): (r: seq<byte>)
    ensures |r| == 16
  {
    LittleEndian(h.sequence, 8) + CrcBytes(h.crc) + LittleEndian(h.reserved, 4)
  }

  function DecodeHeader(bytes: seq<byte>): Header
    requires |bytes| == HEADER_SIZE
  {
    Header(FromLittleEndian(bytes[0..4]), FromLittleEndian(bytes[4..6]), FromLittleEndian(bytes[6..8]),
           FromLittleEndian(bytes[8..12]), FromLittleEndian(bytes[12..16]), FromLittleEndian(bytes[16..24]),
           CrcFromBytes(bytes[24..28]), FromLittleEndian(bytes[28..32]))
  }

  ghost predicate FitsFields(h: Header) {
    && h.magic < 0x1_0000_0000 && h.version < 0x1_0000 && h.kindSize < 0x1_0000 && h.payloadSize < 0x1_0000_0000
    && h.flag < 0x1_0000_0000 && h.sequence < 0x1_0000_0000_0000_0000 && h.reserved < 0x1_0000_0000
  }

  lemma Powers()
    ensures Power256(2) == 0x1_0000 && Power256(4) == 0x1_0000_0000 && Power256(8) == 0x1_0000_0000_0000_0000
  {
    assert Power256(2) == 0x1_0000;
    assert Power256(4) == 256 * (256 * Power256(2));
    assert Power256(6) == 256 * (256 * Power256(4));
    assert Power256(8) == 256 * (256 * Power256(6));
  }

  lemma ShapeSlices(h: Header)
    ensures var e := EncodeShape(h);
            && e[0..4] == LittleEndian(h.magic, 4) && e[4..6] == LittleEndian(h.version, 2)
            && e[6..8] == LittleEndian(h.kindSize, 2) && e[8..12] == LittleEndian(h.payloadSize, 4)
            && e[12..16] == LittleEndian(h.flag, 4)
  {
    hide LittleEndian;
  }

  lemma IdentitySlices(h: Header)
    ensures var e := EncodeIdentity(h);
            && e[0..8] == LittleEndian(h.sequence, 8) && e[8..12] == CrcBytes(h.crc)
            && e[12..16] == LittleEndian(h.reserved, 4)
  {
    hide LittleEndian, CrcBytes;
  }

  lemma HeaderSlices(h: Header, rest: seq<byte>)
    ensures var e := EncodeHeader(h) + rest;
            && e[0..4] == EncodeShape(h)[0..4] && e[4..6] == EncodeShape(h)[4..6]
            && e[6..8] == EncodeShape(h)[6..8] && e[8..12] == EncodeShape(h)[8..12]
            && e[12..16] == EncodeShape(h)[12..16]
            && e[16..24] == EncodeIdentity(h)[0..8] && e[24..28] == EncodeIdentity(h)[8..12]
            && e[28..32] == EncodeIdentity(h)[12..16]
  {
    hide EncodeShape, EncodeIdentity;
    var a, b := EncodeShape(h), EncodeIdentity(h) + rest;
    assert EncodeHeader(h) + rest == a + b;
    SliceLeft(a, b, 0, 4);
    SliceLeft(a, b, 4, 6);
    SliceLeft(a, b, 6, 8);
    SliceLeft(a, b, 8, 12);
    SliceLeft(a, b, 12, 16);
    SliceRight(a, EncodeIdentity(h), rest, 0, 8);
    SliceRight(a, EncodeIdentity(h), rest, 8, 12);
    SliceRight(a, EncodeIdentity(h), rest, 12, 16);
  }

  lemma SliceLeft(a: seq<byte>, b: seq<byte>, i: nat, j: nat)
    requires i <= j <= |a|
    ensures (a + b)[i..j] == a[i..j]
  {
  }

  lemma SliceRight(a: seq<byte>, b: seq<byte>, c: seq<byte>, i: nat, j: nat)
    requires i <= j <= |b|
    ensures (a + (b + c))[|a| + i..|a| + j] == b[i..j]
  {
  }

  /** Reading back a written header gives the fields that were written, whatever follows it. */
  lemma HeaderRoundTrip(h: Header, rest: seq<byte>)
    requires FitsFields(h)
    ensures DecodeHeader((EncodeHeader(h) + rest)[..HEADER_SIZE]) == h
  {
    assert (EncodeHeader(h) + rest)[..HEADER_SIZE] == EncodeHeader(h) + [];
    HeaderSlices(h, []);
    ShapeSlices(h);
    IdentitySlices(h);
    Powers();
    LittleEndianRoundTrip(h.magic, 4);
    LittleEndianRoundTrip(h.version, 2);
    LittleEndianRoundTrip(h.kindSize, 2);
    LittleEndianRoundTrip(h.payloadSize, 4);
    LittleEndianRoundTrip(h.flag, 4);
    LittleEndianRoundTrip(h.sequence, 8);
    CrcRoundTrip(h.crc);
    LittleEndianRoundTrip(h.reserved, 4);
  }

  method ReadHeader(header: array<byte>) returns (h: Header)
    requires header.Length == HEADER_SIZE
    ensures h == DecodeHeader(header[..])
  {
    hide FromLittleEndian, CrcFromBytes;
    var magic := GetField(header, 0, 4);
    var version := GetField(header, 4, 2);
    var kindSize := GetField(header, 6, 2);
    var payloadSize := GetField(header, 8, 4);
    var flag := GetField(header, 12, 4);
    var sequence := GetField(header, 16, 8);
    var reserved := GetField(header, 28, 4);
    h := Header(magic, version, kindSize, payloadSize, flag, sequence, CrcFromBytes(header[24..28]), reserved);
    assert forall i, j :: 0 <= i <= j <= HEADER_SIZE ==> header[i..j] == header[..][i..j];
  }

  // The header array is written field by field, in place.

  method WriteShape(header: array<byte>, h: Header)
    requires header.Length == HEADER_SIZE
    modifies header
    ensures header[..16] == EncodeShape(h)
  {
    hide LittleEndian;
    PutField(header, 0, 4, h.magic);
    assert header[..4] == LittleEndian(h.magic, 4);
    PutField(header, 4, 2, h.version);
    assert header[..6] == LittleEndian(h.magic, 4) + LittleEndian(h.version, 2);
    PutField(header, 6, 2, h.kindSize);
    assert header[..8] == LittleEndian(h.magic, 4) + LittleEndian(h.version, 2) + LittleEndian(h.kindSize, 2);
    PutField(header, 8, 4, h.payloadSize);
    assert header[..12] == LittleEndian(h.magic, 4) + LittleEndian(h.version, 2) + LittleEndian(h.kindSize, 2)
                           + LittleEndian(h.payloadSize, 4);
    PutField(header, 12, 4, h.flag);
  }

  method WriteIdentity(header: array<byte>, h: Header)
    requires header.Length == HEADER_SIZE
    modifies header
    ensures header[..] == old(header[..16]) + EncodeIdentity(h)
  {
    hide LittleEndian, CrcBytes;
    ghost var shape := header[..16];
    PutField(header, 16, 8, h.sequence);
    assert header[..24] == shape + LittleEndian(h.sequence, 8);
    PutCrc(header, 24, h.crc);
    assert header[..28] == shape + LittleEndian(h.sequence, 8) + CrcBytes(h.crc);
    PutField(header, 28, 4, h.reserved);
  }

  method WriteHeader(h: Header) returns (header: array<byte>)
    ensures fresh(header) && header[..] == EncodeHeader(h)
  {
    hide EncodeShape, EncodeIdentity;
    header := new byte[32](_ => 0);
    WriteShape(header, h);
    WriteIdentity(header, h);
  }

  // Frames

  /** Lower-case letters, digits, underscore, full stop and hyphen, in ASCII. */
  predicate KindByte(c: byte) {
    0x61 <= c <= 0x7a || 0x30 <= c <= 0x39 || c == 0x5f || c == 0x2e || c == 0x2d
  }

  predicate ValidKind(kind: seq<byte>) {
    0 < |kind| <= MAXIMUM_KIND_BYTES && forall i :: 0 <= i < |kind| ==> KindByte(kind[i])
  }

  /** The checksum covers the sequence number, the kind and the payload, and nothing else. */
  function FrameCrc(sequence: nat, kind: seq<byte>, payload: seq<byte>): bv32 {
    !Update(Update(Update(0xffff_ffff, LittleEndian(sequence, 8)), kind), payload)
  }

  method ComputeFrameCrc(sequence: nat, kind: seq<byte>, payload: seq<byte>) returns (crc: bv32)
    ensures crc == FrameCrc(sequence, kind, payload)
  {
    crc := ComputeUpdate(0xffff_ffff, LittleEndian(sequence, 8));
    crc := ComputeUpdate(crc, kind);
    crc := ComputeUpdate(crc, payload);
    crc := !crc;
  }

  function FrameHeader(sequence: nat, kind: seq<byte>, payload: seq<byte>, synchronize: bool): Header {
    Header(FRAME_MAGIC, FRAME_VERSION, |kind|, |payload|, if synchronize then 1 else 0,
           sequence, FrameCrc(sequence, kind, payload), 0)
  }

  function EncodeFrame(sequence: nat, kind: seq<byte>, payload: seq<byte>, synchronize: bool): (r: seq<byte>)
    ensures |r| == HEADER_SIZE + |kind| + |payload|
  {
    EncodeHeader(FrameHeader(sequence, kind, payload, synchronize)) + kind + payload
  }

  predicate HeaderAccepted(h: Header, expected: nat, maximumPayload: nat) {
    && h.magic == FRAME_MAGIC && h.version == FRAME_VERSION && (h.flag == 0 || h.flag == 1) && h.reserved == 0
    && 0 < h.kindSize <= MAXIMUM_KIND_BYTES && h.payloadSize <= maximumPayload && h.sequence == expected
  }

  /** One turn of the replay loop, over the bytes not yet read. */
  function ReadFrame<J>(data: seq<byte>, expected: nat, maximumPayload: nat, codec: PayloadCodec<J>): (o: Outcome<Record<J>>)
    ensures o.Complete? ==> HEADER_SIZE < o.size <= |data|
  {
    if data == [] then AtEnd
    else if |data| < HEADER_SIZE then Torn
    else
      var h := DecodeHeader(data[..HEADER_SIZE]);
      if !HeaderAccepted(h, expected, maximumPayload) then Corrupt
      else if |data| < HEADER_SIZE + h.kindSize + h.payloadSize then Torn
      else
        var kind := data[HEADER_SIZE..HEADER_SIZE + h.kindSize];
        var payload := data[HEADER_SIZE + h.kindSize..HEADER_SIZE + h.kindSize + h.payloadSize];
        CheckBody(h, kind, payload, codec)
  }

  /** A whole frame: its kind and checksum must hold and its payload must parse. */
  function CheckBody<J>(h: Header, kind: seq<byte>, payload: seq<byte>, codec: PayloadCodec<J>): (o: Outcome<Record<J>>)
    ensures o.Complete? ==> o.size == HEADER_SIZE + h.kindSize + h.payloadSize
  {
    if !ValidKind(kind) || FrameCrc(h.sequence, kind, payload) != h.crc then Corrupt
    else match codec.parse(payload)
      case None => Corrupt
      case Some(j) => Complete(Record(h.sequence, kind, j), HEADER_SIZE + h.kindSize + h.payloadSize)
  }

  ghost predicate Writable<J>(r: Record<J>, maximumPayload: nat, codec: PayloadCodec<J>) {
    ValidKind(r.kind) && |codec.dump(r.payload)| <= maximumPayload < 0x1_0000_0000
    && r.sequence < 0x1_0000_0000_0000_0000
  }

  function FrameOf<J>(r: Record<J>, synchronize: bool, codec: PayloadCodec<J>): seq<byte> {
    EncodeFrame(r.sequence, r.kind, codec.dump(r.payload), synchronize)
  }

  lemma HeaderOfFrame(sequence: nat, kind: seq<byte>, payload: seq<byte>, synchronize: bool, rest: seq<byte>)
    requires |kind| <= MAXIMUM_KIND_BYTES && |payload| < 0x1_0000_0000 && sequence < 0x1_0000_0000_0000_0000
    ensures var data := EncodeFrame(sequence, kind, payload, synchronize) + rest;
            DecodeHeader(data[..HEADER_SIZE]) == FrameHeader(sequence, kind, payload, synchronize)
  {
    hide EncodeHeader, DecodeHeader, FrameCrc;
    var h := FrameHeader(sequence, kind, payload, synchronize);
    HeaderRoundTrip(h, kind + payload + rest);
    assert EncodeFrame(sequence, kind, payload, synchronize) + rest == EncodeHeader(h) + (kind + payload + rest);
  }

  /** Where the parts of a frame lie: after an acceptable header, the kind and the payload are checked. */
  lemma ReadParts<J>(header: seq<byte>, kind: seq<byte>, payload: seq<byte>, rest: seq<byte>,
                     expected: nat, maximumPayload: nat, codec: PayloadCodec<J>)
    requires |header| == HEADER_SIZE
    requires var h := DecodeHeader(header);
             HeaderAccepted(h, expected, maximumPayload) && h.kindSize == |kind| && h.payloadSize == |payload|
    ensures ReadFrame(header + kind + payload + rest, expected, maximumPayload, codec)
         == CheckBody(DecodeHeader(header), kind, payload, codec)
  {
    hide DecodeHeader, CheckBody;
    var data := header + kind + payload + rest;
    assert data[..HEADER_SIZE] == header;
    assert data[HEADER_SIZE..HEADER_SIZE + |kind|] == kind;
    assert data[HEADER_SIZE + |kind|..HEADER_SIZE + |kind| + |payload|] == payload;
  }

  /** A written frame is read back whole, unless its payload nests too deep for the replay parser. */
  lemma ReadWrittenFrame<J(!new)>(r: Record<J>, synchronize: bool, rest: seq<byte>, maximumPayload: nat,
                                  codec: PayloadCodec<J>)
    requires Faithful(codec) && Writable(r, maximumPayload, codec)
    ensures ReadFrame(FrameOf(r, synchronize, codec) + rest, r.sequence, maximumPayload, codec)
         == if codec.nesting(r.payload) <= MAXIMUM_NESTING
            then Complete(r, |FrameOf(r, synchronize, codec)|) else Corrupt
  {
    hide EncodeHeader, DecodeHeader, FrameCrc;
    var payload := codec.dump(r.payload);
    var header := EncodeHeader(FrameHeader(r.sequence, r.kind, payload, synchronize));
    HeaderRoundTrip(FrameHeader(r.sequence, r.kind, payload, synchronize), []);
    assert (header + [])[..HEADER_SIZE] == header;
    ReadParts(header, r.kind, payload, rest, r.sequence, maximumPayload, codec);
  }

  /** Any proper, nonempty prefix of a written frame is a torn tail. */
  lemma ReadTornFrame<J>(r: Record<J>, synchronize: bool, n: nat, maximumPayload: nat, codec: PayloadCodec<J>)
    requires Writable(r, maximumPayload, codec)
    requires 0 < n < |FrameOf(r, synchronize, codec)|
    ensures ReadFrame(FrameOf(r, synchronize, codec)[..n], r.sequence, maximumPayload, codec) == Torn
  {
    hide EncodeHeader, DecodeHeader, FrameCrc;
    if n >= HEADER_SIZE {
      var frame := FrameOf(r, synchronize, codec);
      HeaderOfFrame(r.sequence, r.kind, codec.dump(r.payload), synchronize, []);
      assert frame + [] == frame;
      assert frame[..n][..HEADER_SIZE] == frame[..HEADER_SIZE];
    }
  }
}
