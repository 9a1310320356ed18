/** The CRC-8 shared by the STM board, the BBB client and the server: register 0xFF at the start,
    polynomial 0x8D, most significant bit first, no final exclusive or. */
module Crc8 {
  import opened ByteSum
  import opened Gf2

  type Bytes = seq<bv8>

  const CRC_POLYNOMIAL: bv8 := 0x8D
  const CRC_INITIAL: bv8 := 0xFF

  /** One turn of the inner loop: multiply the register by x. */
  function Shift(crc: bv8): bv8 {
    if crc & 0x80 != 0 then (crc << 1) ^ CRC_POLYNOMIAL else crc << 1
  }

  /** The register after k turns of the inner loop. */
  function ShiftBy(crc: bv8, k: nat): bv8 {
    if k == 0 then crc else Shift(ShiftBy(crc, k - 1))
  }

  /** The bits of a byte, most significant first. */
  function ByteBits(d: bv8): (b: Bits)
    ensures |b| == 8
  {
    [d & 0x80 != 0, d & 0x40 != 0, d & 0x20 != 0, d & 0x10 != 0,
     d & 0x08 != 0, d & 0x04 != 0, d & 0x02 != 0, d & 0x01 != 0]
  }

  /** The register after one more byte: mixed in at once, then one turn for each of its bits. */
  function ByteStep(crc: bv8, d: bv8): bv8 {
    ShiftBy(crc ^ d, |ByteBits(d)|)
  }

  /** The register `init` after the bytes of `data`. */
  function Register(init: bv8, data: Bytes): bv8 {
    if data == [] then init
    else ByteStep(Register(init, data[..|data| - 1]), data[|data| - 1])
  }

  function Crc(data: Bytes): bv8 {
    Register(CRC_INITIAL, data)
  }

  /** The checksum loop, in place over a prefix of a buffer. */
  method CalculateCrc8(data: array<bv8>, length: nat) returns (crc: bv8)
    requires length <= data.Length
    ensures crc == Crc(data[..length]) == Register(0xFF, data[..length])
  {
    crc := 0xFF;
    var i := 0;
    while i < length
      invariant i <= length
      invariant crc == Crc(data[..i])
    {
      assert data[..i + 1][..i] == data[..i];
      crc := crc ^ data[i];
      ghost var mixed := crc;
      var j := 0;
      while j < 8
        invariant j <= 8
        invariant crc == ShiftBy(mixed, j)
      {
        if crc & 0x80 != 0 {
          crc := (crc << 1) ^ CRC_POLYNOMIAL;
        } else {
          crc := crc << 1;
        }
        j := j + 1;
      }
      i := i + 1;
    }
  }

  // ----- The register is linear, and every step of it is a bijection -----

  lemma TopBit(a: bv8, b: bv8)
    ensures (a ^ b) & 0x80 == (a & 0x80) ^ (b & 0x80)
    ensures a & 0x80 == 0 || a & 0x80 == 0x80
    ensures b & 0x80 == 0 || b & 0x80 == 0x80
  {
  }

  lemma ShiftXor(a: bv8, b: bv8)
    ensures (a ^ b) << 1 == (a << 1) ^ (b << 1)
  {
  }

  lemma ShiftLinear(a: bv8, b: bv8)
    ensures Shift(a ^ b) == Shift(a) ^ Shift(b)
  {
    TopBit(a, b);
    ShiftXor(a, b);
    XorRearranges(a << 1, b << 1, CRC_POLYNOMIAL);
  }

  lemma XorRearranges(a: bv8, b: bv8, p: bv8)
    ensures (a ^ p) ^ b == (a ^ b) ^ p == a ^ (b ^ p)
    ensures (a ^ p) ^ (b ^ p) == a ^ b
  {
  }

  lemma {:induction false} ShiftByLinear(a: bv8, b: bv8, k: nat)
    ensures ShiftBy(a ^ b, k) == ShiftBy(a, k) ^ ShiftBy(b, k)
  {
    if k > 0 {
      ShiftByLinear(a, b, k - 1);
      ShiftLinear(ShiftBy(a, k - 1), ShiftBy(b, k - 1));
    }
  }

  /** The inverse of Shift: bit 0 tells whether the polynomial was mixed in. */
  function Unshift(crc: bv8): bv8 {
    if crc & 1 != 0 then ((crc ^ CRC_POLYNOMIAL) >> 1) | 0x80 else crc >> 1
  }

  lemma ShiftBijective(crc: bv8)
    ensures Unshift(Shift(crc)) == crc && Shift(Unshift(crc)) == crc
  {
  }

  lemma {:induction false} ShiftByInjective(a: bv8, b: bv8, k: nat)
    ensures ShiftBy(a, k) == ShiftBy(b, k) <==> a == b
  {
    if k > 0 {
      ShiftByInjective(a, b, k - 1);
      ShiftBijective(ShiftBy(a, k - 1));
      ShiftBijective(ShiftBy(b, k - 1));
    }
  }

  lemma {:induction false} ShiftByAdd(crc: bv8, j: nat, k: nat)
    ensures ShiftBy(ShiftBy(crc, j), k) == ShiftBy(crc, j + k)
  {
    if k > 0 {
      ShiftByAdd(crc, j, k - 1);
    }
  }

  lemma {:induction false} ShiftByZero(k: nat)
    ensures ShiftBy(0, k) == 0
  {
    if k > 0 {
      ShiftByZero(k - 1);
    }
  }

  function UnshiftBy(crc: bv8, k: nat): bv8
    decreases k
  {
    if k == 0 then crc else UnshiftBy(Unshift(crc), k - 1)
  }

  lemma {:induction false} ShiftByBijective(crc: bv8, k: nat)
    ensures UnshiftBy(ShiftBy(crc, k), k) == crc && ShiftBy(UnshiftBy(crc, k), k) == crc
    decreases k
  {
    hide Shift, Unshift;
    if k > 0 {
      ShiftBijective(ShiftBy(crc, k - 1));
      ShiftByBijective(crc, k - 1);
      ShiftBijective(crc);
      ShiftByBijective(Unshift(crc), k - 1);
    }
  }

  /** The register before one byte, recovered from the register after it. */
  function ByteUnstep(crc: bv8, d: bv8): bv8 {
    UnshiftBy(crc, |ByteBits(d)|) ^ d
  }

  /** Every byte of a message acts on the register as a bijection, for every value of that byte. */
  lemma ByteStepBijective(r: bv8, d: bv8)
    ensures ByteUnstep(ByteStep(r, d), d) == r
    ensures ByteStep(ByteUnstep(r, d), d) == r
  {
    hide ShiftBy, UnshiftBy;
    var k := |ByteBits(d)|;
    ShiftByBijective(r ^ d, k);
    XorCancels(r, d);
    ShiftByBijective(r, k);
    XorCancels(UnshiftBy(r, k), d);
  }

  lemma XorCancels(a: bv8, b: bv8)
    ensures (a ^ b) ^ b == a
  {
  }

  // ----- The checksum comparison -----

  /** What CRC_8_check decides on a frame of any length: the last byte is the checksum of the rest. */
  predicate Accepts(frame: Bytes) {
    frame != [] && frame[|frame| - 1] == Crc(frame[..|frame| - 1])
  }

  /** Appending the checksum drives the register to zero, and no other final byte does: comparing
      the last byte and testing the register of the whole frame for zero are the same check. */
  lemma AcceptsIsZeroRegister(frame: Bytes)
    requires frame != []
    ensures Accepts(frame) <==> Crc(frame) == 0
  {
    var n := |frame| - 1;
    var r, d := Crc(frame[..n]), frame[n];
    ShiftByInjective(r ^ d, 0, 8);
    ShiftByZero(8);
    assert r ^ d == 0 <==> r == d;
  }

  lemma ChecksumByteUnique(data: Bytes, last: bv8)
    ensures Crc(data + [last]) == 0 <==> last == Crc(data)
  {
    var frame := data + [last];
    assert frame[..|frame| - 1] == data;
    AcceptsIsZeroRegister(frame);
  }

  // ----- The bit-serial view -----

  function BitsOf(data: Bytes): (b: Bits)
    ensures |b| == 8 * |data|
  {
    if data == [] then [] else BitsOf(data[..|data| - 1]) + ByteBits(data[|data| - 1])
  }

  /** The register after one more message bit, entering at the top. */
  function Feed(r: bv8, b: bool): bv8 {
    Shift(if b then r ^ 0x80 else r)
  }

  function FeedAll(r: bv8, bits: Bits): bv8 {
    if bits == [] then r else Feed(FeedAll(r, bits[..|bits| - 1]), bits[|bits| - 1])
  }

  lemma {:induction false} FeedAllConcat(r: bv8, a: Bits, b: Bits)
    ensures FeedAll(r, a + b) == FeedAll(FeedAll(r, a), b)
  {
    if b == [] {
      assert a + b == a;
    } else {
      var n := |b| - 1;
      FeedAllConcat(r, a, b[..n]);
      assert (a + b)[..|a + b| - 1] == a + b[..n];
    }
  }

  function Top(b: bv8): bool {
    b & 0x80 != 0
  }

  function Left(b: bv8): bv8 {
    b << 1
  }

  /** What is left of a byte once its k top bits have been fed. */
  function Rest(d: bv8, k: nat): bv8 {
    if k == 0 then d else Left(Rest(d, k - 1))
  }

  lemma RestTopBit(d: bv8, k: nat)
    requires k < 8
    ensures ByteBits(d)[k] <==> Top(Rest(d, k))
  {
    RestLow(d);
    RestHigh(d);
    ShiftedTopBits(d);
    assert k == 0 || k == 1 || k == 2 || k == 3 || k == 4 || k == 5 || k == 6 || k == 7;
  }

  lemma ShiftsCompose(d: bv8)
    ensures (d << 1) << 1 == d << 2 && (d << 2) << 1 == d << 3 && (d << 3) << 1 == d << 4
    ensures (d << 4) << 1 == d << 5 && (d << 5) << 1 == d << 6 && (d << 6) << 1 == d << 7
    ensures (d << 7) << 1 == 0
  {
  }

  lemma RestLow(d: bv8)
    ensures Rest(d, 0) == d && Rest(d, 1) == d << 1 && Rest(d, 2) == d << 2
    ensures Rest(d, 3) == d << 3 && Rest(d, 4) == d << 4
  {
    ShiftsCompose(d);
    assert Rest(d, 2) == Rest(d, 1) << 1;
  }

  lemma RestHigh(d: bv8)
    ensures Rest(d, 5) == d << 5 && Rest(d, 6) == d << 6 && Rest(d, 7) == d << 7
    ensures Rest(d, 8) == 0
  {
    RestLow(d);
    ShiftsCompose(d);
    assert Rest(d, 5) == Rest(d, 4) << 1;
    assert Rest(d, 6) == Rest(d, 5) << 1;
    assert Rest(d, 7) == Rest(d, 6) << 1;
  }

  lemma ShiftedTopBits(d: bv8)
    ensures (d << 1) & 0x80 != 0 <==> d & 0x40 != 0
    ensures (d << 2) & 0x80 != 0 <==> d & 0x20 != 0
    ensures (d << 3) & 0x80 != 0 <==> d & 0x10 != 0
    ensures (d << 4) & 0x80 != 0 <==> d & 0x08 != 0
    ensures (d << 5) & 0x80 != 0 <==> d & 0x04 != 0
    ensures (d << 6) & 0x80 != 0 <==> d & 0x02 != 0
    ensures (d << 7) & 0x80 != 0 <==> d & 0x01 != 0
  {
  }

  lemma FeedStep(s: bv8, rest: bv8)
    ensures Add(Feed(s, Top(rest)), Left(rest)) == Shift(Add(s, rest))
  {
    TopBit(s, rest);
    ShiftXor(s, rest);
    ShiftXor(s, 0x80);
    TopBit(s, 0x80);
  }

  /** Bits not yet fed are still to be mixed into the register. */
  predicate Pending(r: bv8, d: bv8, k: nat)
    requires k <= 8
  {
    Add(FeedAll(r, ByteBits(d)[..k]), Rest(d, k)) == ShiftBy(Add(r, d), k)
  }

  lemma PendingStep(r: bv8, d: bv8, k: nat)
    requires k < 8 && Pending(r, d, k)
    ensures Pending(r, d, k + 1)
  {
    hide Feed, Shift, ByteBits, Add, Top, Left;
    var bits := ByteBits(d);
    assert bits[..k + 1][..k] == bits[..k];
    RestTopBit(d, k);
    FeedStep(FeedAll(r, bits[..k]), Rest(d, k));
  }

  lemma {:induction false} FeedPrefix(r: bv8, d: bv8, k: nat)
    requires k <= 8
    ensures Pending(r, d, k)
  {
    if k > 0 {
      hide Pending;
      FeedPrefix(r, d, k - 1);
      PendingStep(r, d, k - 1);
    }
  }

  /** Mixing in a whole byte and shifting eight times feeds its bits one by one. */
  lemma FeedByte(r: bv8, d: bv8)
    ensures FeedAll(r, ByteBits(d)) == ByteStep(r, d)
  {
    hide FeedAll, ShiftBy, Rest;
    FeedPrefix(r, d, 8);
    assert ByteBits(d)[..8] == ByteBits(d);
    RestHigh(d);
  }

  lemma {:induction false} RegisterIsBitSerial(init: bv8, data: Bytes)
    ensures Register(init, data) == FeedAll(init, BitsOf(data))
  {
    if data != [] {
      var n := |data| - 1;
      RegisterIsBitSerial(init, data[..n]);
      FeedAllConcat(init, BitsOf(data[..n]), ByteBits(data[n]));
      FeedByte(Register(init, data[..n]), data[n]);
    }
  }
}
