/** The reflected CRC-32 of IEEE 802.3 (clause 3.2.9): generator polynomial
    0x04C11DB7 processed least significant bit first (0xEDB88320 reflected),
    register preset to all ones, final complement. This module is the
    functional specification that the checksum loop of the component core is
    proved against. */
module Crc32 {

  /** The reflected generator polynomial. */
  const Polynomial: bv32 := 0xEDB8_8320

  /** The register preset. */
  const Preset: bv32 := 0xFFFF_FFFF

  /** One shift of the register: shift right, and xor in the polynomial when
      the bit shifted out was set. */
  function ShiftBit(r: bv32): bv32 {
    if r & 1 == 1 then (r >> 1) ^ Polynomial else r >> 1
  }

  /** `n` successive shifts. */
  function ShiftBits(r: bv32, n: nat): bv32 {
    if n == 0 then r else ShiftBit(ShiftBits(r, n - 1))
  }

  /** Feeds one byte into the register: xor it into the low byte, then shift
      eight times. */
  function AddByte(r: bv32, b: bv8): bv32 {
    ShiftBits(r ^ (b as bv32), 8)
  }

  /** Feeds the bytes of `s`, first to last, into the register `r`. */
  function Feed(r: bv32, s: seq<bv8>): bv32
    decreases |s|
  {
    if |s| == 0 then r else Feed(AddByte(r, s[0]), s[1..])
  }

  /** The CRC-32 of a byte string. */
  function Checksum(s: seq<bv8>): bv32 {
    !Feed(Preset, s)
  }

  /** The register can be fed in pieces: feeding `a + b` is feeding `a`, then
      continuing from that register with `b`. This is what lets the byte loop
      keep a running register. */
  lemma {:induction false} FeedConcat(r: bv32, a: seq<bv8>, b: seq<bv8>)
    ensures Feed(r, a + b) == Feed(Feed(r, a), b)
    decreases |a|
  {
    if |a| == 0 {
      assert a + b == b;
    } else {
      assert (a + b)[1..] == a[1..] + b;
      FeedConcat(AddByte(r, a[0]), a[1..], b);
    }
  }

  /** Feeding one more byte at the end is one more `AddByte`. */
  lemma FeedSnoc(r: bv32, a: seq<bv8>, x: bv8)
    ensures Feed(r, a + [x]) == AddByte(Feed(r, a), x)
  {
    FeedConcat(r, a, [x]);
    assert [x][1..] == [];
  }

  /** The CRC of the empty string is zero: the complement of the preset. */
  lemma EmptyChecksum()
    ensures Checksum([]) == 0
  {
  }

  /** The standard check value of this CRC: the CRC-32 of the nine ASCII
      digits "123456789" is 0xCBF43926. */
  lemma CheckValue()
    ensures Checksum([0x31, 0x32, 0x33, 0x34, 0x35, 0x36, 0x37, 0x38, 0x39]) == 0xCBF4_3926
  {
    // the register after each of the nine bytes
    assert ShiftBits(0xFFFF_FFCE, 8) == 0x7C23_1048;
    assert AddByte(0xFFFF_FFFF, 0x31) == 0x7C23_1048;
    assert ShiftBits(0x7C23_107A, 8) == 0xB0AC_BB32;
    assert AddByte(0x7C23_1048, 0x32) == 0xB0AC_BB32;
    assert ShiftBits(0xB0AC_BB01, 8) == 0x77B7_9C2D;
    assert AddByte(0xB0AC_BB32, 0x33) == 0x77B7_9C2D;
    assert ShiftBits(0x77B7_9C19, 8) == 0x641C_1F5C;
    assert AddByte(0x77B7_9C2D, 0x34) == 0x641C_1F5C;
    assert ShiftBits(0x641C_1F69, 8) == 0x340A_C5E3;
    assert AddByte(0x641C_1F5C, 0x35) == 0x340A_C5E3;
    assert ShiftBits(0x340A_C5D5, 8) == 0xF68D_2C9E;
    assert AddByte(0x340A_C5E3, 0x36) == 0xF68D_2C9E;
    assert ShiftBits(0xF68D_2CA9, 8) == 0xAFFC_9660;
    assert AddByte(0xF68D_2C9E, 0x37) == 0xAFFC_9660;
    assert ShiftBits(0xAFFC_9658, 8) == 0x651F_2550;
    assert AddByte(0xAFFC_9660, 0x38) == 0x651F_2550;
    assert ShiftBits(0x651F_2569, 8) == 0x340B_C6D9;
    assert AddByte(0x651F_2550, 0x39) == 0x340B_C6D9;
    var s: seq<bv8> := [0x31, 0x32, 0x33, 0x34, 0x35, 0x36, 0x37, 0x38, 0x39];
    assert Feed(0x340B_C6D9, s[9..]) == 0x340B_C6D9;
    assert s[8..] == [s[8]] + s[9..];
    assert Feed(0x651F_2550, s[8..]) == 0x340B_C6D9;
    assert s[7..] == [s[7]] + s[8..];
    assert Feed(0xAFFC_9660, s[7..]) == 0x340B_C6D9;
    assert s[6..] == [s[6]] + s[7..];
    assert Feed(0xF68D_2C9E, s[6..]) == 0x340B_C6D9;
    assert s[5..] == [s[5]] + s[6..];
    assert Feed(0x340A_C5E3, s[5..]) == 0x340B_C6D9;
    assert s[4..] == [s[4]] + s[5..];
    assert Feed(0x641C_1F5C, s[4..]) == 0x340B_C6D9;
    assert s[3..] == [s[3]] + s[4..];
    assert Feed(0x77B7_9C2D, s[3..]) == 0x340B_C6D9;
    assert s[2..] == [s[2]] + s[3..];
    assert Feed(0xB0AC_BB32, s[2..]) == 0x340B_C6D9;
    assert s[1..] == [s[1]] + s[2..];
    assert Feed(0x7C23_1048, s[1..]) == 0x340B_C6D9;
    assert s[0..] == [s[0]] + s[1..];
    assert Feed(0xFFFF_FFFF, s[0..]) == 0x340B_C6D9;
  }
}
