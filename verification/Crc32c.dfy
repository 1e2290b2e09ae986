/** CRC-32C (the Castagnoli polynomial of RFC 3720, section 12.1), bit-reflected,
    as the operational store computes it over a frame. */
module Crc32c {
  import opened Bytes

  const POLYNOMIAL: bv32 := 0x82f63b78

  /** One turn of the inner loop: shift right, and fold the polynomial in when a one fell out. */
  function BitStep(crc: bv32): bv32 {
    (crc >> 1) ^ (POLYNOMIAL & (0 - (crc & 1)))
  }

  function BitSteps(crc: bv32, n: nat): bv32 {
    if n == 0 then crc else BitStep(BitSteps(crc, n - 1))
  }

  function ByteStep(crc: bv32, b: byte): bv32 {
    BitSteps(crc ^ (b as bv32), 8)
  }

  function Update(crc: bv32, data: seq<byte>): bv32
    decreases |data|
  {
    if data == [] then crc else Update(ByteStep(crc, data[0]), data[1..])
  }

  lemma {:induction false} UpdateSnoc(crc: bv32, data: seq<byte>, b: byte)
    ensures Update(crc, data + [b]) == ByteStep(Update(crc, data), b)
    decreases |data|
  {
    if data == [] {
    } else {
      assert (data + [b])[1..] == data[1..] + [b];
      UpdateSnoc(ByteStep(crc, data[0]), data[1..], b);
    }
  }

  method ComputeUpdate(start: bv32, data: seq<byte>) returns (crc: bv32)
    ensures crc == Update(start, data)
  {
    crc := start;
    for i := 0 to |data|
      invariant crc == Update(start, data[..i])
    {
      var entered := crc;
      crc := crc ^ (data[i] as bv32);
      var mixed := crc;
      for bit := 0 to 8
        invariant crc == BitSteps(mixed, bit)
      {
        crc := (crc >> 1) ^ (POLYNOMIAL & (0 - (crc & 1)));
      }
      assert crc == ByteStep(entered, data[i]);
      UpdateSnoc(start, data[..i], data[i]);
      assert data[..i] + [data[i]] == data[..i + 1];
    }
    assert data[..|data|] == data;
  }

  lemma {:induction false} UpdateConcat(crc: bv32, a: seq<byte>, b: seq<byte>)
    ensures Update(crc, a + b) == Update(Update(crc, a), b)
    decreases |a|
  {
    if a == [] {
      assert a + b == b;
    } else {
      assert (a + b)[1..] == a[1..] + b;
      UpdateConcat(ByteStep(crc, a[0]), a[1..], b);
    }
  }

  // Two registers agree on a mask. A mask whose top bit is set tells whether a one fell out of both
  // registers or of neither, so it pulls back through the bit step, rotated by one place.

  ghost predicate Agree(x: bv32, y: bv32, mask: bv32) {
    x & mask == y & mask
  }

  lemma StepAgree(x: bv32, y: bv32, mask: bv32)
    requires mask & 0x8000_0000 != 0 && Agree(BitStep(x), BitStep(y), mask)
    ensures Agree(x, y, (mask << 1) | 1)
  {
  }

  lemma {:induction false} StepsAgree(x: bv32, y: bv32, n: nat, mask: bv32, pulled: bv32)
    requires Agree(BitSteps(x, n), BitSteps(y, n), mask)
    requires PullsBack(mask, n, pulled)
    ensures Agree(x, y, pulled)
    decreases n
  {
    if n > 0 {
      StepAgree(BitSteps(x, n - 1), BitSteps(y, n - 1), mask);
      StepsAgree(x, y, n - 1, (mask << 1) | 1, pulled);
    }
  }

  ghost predicate PullsBack(mask: bv32, n: nat, pulled: bv32) {
    if n == 0 then mask == pulled
    else mask & 0x8000_0000 != 0 && PullsBack((mask << 1) | 1, n - 1, pulled)
  }

  /** The bits that two registers must share when k bytes of input can still make them meet. */
  ghost function SharedMask(k: nat): bv32 {
    match k
    case 0 => 0xffff_ffff
    case 1 => 0xffff_ff00
    case 2 => 0xffff_0000
    case 3 => 0xff00_0000
    case _ => 0
  }

  lemma SharedMaskPullsBack(k: nat)
    requires k < 4
    ensures PullsBack(SharedMask(k), 8, SharedMask(k + 1) | 0xff)
  {
    var m := SharedMask(k);
    var p := SharedMask(k + 1) | 0xff;
    var m1 := (m << 1) | 1; var m2 := (m1 << 1) | 1; var m3 := (m2 << 1) | 1; var m4 := (m3 << 1) | 1;
    var m5 := (m4 << 1) | 1; var m6 := (m5 << 1) | 1; var m7 := (m6 << 1) | 1; var m8 := (m7 << 1) | 1;
    assert PullsBack(m8, 0, p);
    assert PullsBack(m7, 1, p);
    assert PullsBack(m6, 2, p);
    assert PullsBack(m5, 3, p);
    assert PullsBack(m4, 4, p);
    assert PullsBack(m3, 5, p);
    assert PullsBack(m2, 6, p);
    assert PullsBack(m1, 7, p);
  }

  lemma InputAgree(x: bv32, y: bv32, a: byte, b: byte, mask: bv32)
    requires Agree(x ^ (a as bv32), y ^ (b as bv32), mask | 0xff) && mask & 0xff == 0
    ensures Agree(x, y, mask)
    ensures x == y ==> a == b
  {
  }

  lemma ByteAgree(x: bv32, y: bv32, a: byte, b: byte, k: nat)
    requires k < 4 && Agree(ByteStep(x, a), ByteStep(y, b), SharedMask(k))
    ensures Agree(x, y, SharedMask(k + 1))
    ensures x == y ==> a == b
  {
    var mask, pulled := SharedMask(k), SharedMask(k + 1) | 0xff;
    SharedMaskPullsBack(k);
    var xa, yb := x ^ (a as bv32), y ^ (b as bv32);
    StepsAgree(xa, yb, 8, mask, pulled);
    InputAgree(x, y, a, b, SharedMask(k + 1));
  }

  /** Up to four bytes act injectively on the register: two windows that reach the same register
      from the same register are the same window. */
  lemma {:induction false} WindowInjective(x: bv32, y: bv32, a: seq<byte>, b: seq<byte>)
    requires |a| == |b| <= 4
    requires Update(x, a) == Update(y, b)
    ensures Agree(x, y, SharedMask(|a|))
    ensures x == y ==> a == b
    decreases |a|
  {
    if a == [] {
    } else {
      WindowInjective(ByteStep(x, a[0]), ByteStep(y, b[0]), a[1..], b[1..]);
      ByteAgree(x, y, a[0], b[0], |a| - 1);
      assert a == [a[0]] + a[1..] && b == [b[0]] + b[1..];
    }
  }

  lemma StepInjective(x: bv32, y: bv32)
    requires BitStep(x) == BitStep(y)
    ensures x == y
  {
  }

  lemma {:induction false} StepsInjective(x: bv32, y: bv32, n: nat)
    requires BitSteps(x, n) == BitSteps(y, n)
    ensures x == y
  {
    if n > 0 {
      StepInjective(BitSteps(x, n - 1), BitSteps(y, n - 1));
      StepsInjective(x, y, n - 1);
    }
  }

  lemma XorInjective(x: bv32, y: bv32, c: bv32, xc: bv32, yc: bv32)
    requires xc == x ^ c && yc == y ^ c && xc == yc
    ensures x == y
  {
  }

  lemma ByteStepInjective(x: bv32, y: bv32, b: byte)
    requires ByteStep(x, b) == ByteStep(y, b)
    ensures x == y
  {
    var c := b as bv32;
    var xc, yc := x ^ c, y ^ c;
    assert xc == yc by { StepsInjective(xc, yc, 8); }
    XorInjective(x, y, c, xc, yc);
  }

  /** Reading the same bytes never makes two different registers meet. */
  lemma {:induction false} UpdateInjective(x: bv32, y: bv32, data: seq<byte>)
    requires Update(x, data) == Update(y, data)
    ensures x == y
    decreases |data|
  {
    if data != [] {
      UpdateInjective(ByteStep(x, data[0]), ByteStep(y, data[0]), data[1..]);
      ByteStepInjective(x, y, data[0]);
    }
  }

  /** The burst guarantee: altering a window of at most four bytes always changes the checksum. */
  lemma BurstDetected(crc: bv32, before: seq<byte>, a: seq<byte>, b: seq<byte>, after: seq<byte>)
    requires |a| == |b| <= 4 && a != b
    ensures Update(crc, before + a + after) != Update(crc, before + b + after)
  {
    UpdateConcat(crc, before + a, after);
    UpdateConcat(crc, before + b, after);
    UpdateConcat(crc, before, a);
    UpdateConcat(crc, before, b);
    if Update(crc, before + a + after) == Update(crc, before + b + after) {
      UpdateInjective(Update(crc, before + a), Update(crc, before + b), after);
      WindowInjective(Update(crc, before), Update(crc, before), a, b);
    }
  }
}
