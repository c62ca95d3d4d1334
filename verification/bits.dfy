/**
 * Single-bit operations on a register byte: the Arduino `bitSet` and
 * `bitClear` macros that every read-modify-write in the driver applies to
 * the byte it has just read.
 */
module Bits {

  /** The one-hot byte with only bit `n` set (bit 0 is the least significant). */
  function Mask(n: nat): (m: bv8)
    requires n < 8
    ensures m == (1 as bv8) << n
    ensures m != 0 && m & (m - 1) == 0
  {
    match n
    case 0 => 0x01
    case 1 => 0x02
    case 2 => 0x04
    case 3 => 0x08
    case 4 => 0x10
    case 5 => 0x20
    case 6 => 0x40
    case 7 => 0x80
  }

  /** Whether bit `n` of `b` is 1. */
  predicate Bit(b: bv8, n: nat)
    requires n < 8
  {
    b & Mask(n) != 0
  }

  /** `bitSet(b, n)`: bit `n` becomes 1, the other seven bits keep their value. */
  function BitSet(b: bv8, n: nat): (r: bv8)
    requires n < 8
    ensures Bit(r, n)
    ensures forall k: nat | k < 8 && k != n :: Bit(r, k) == Bit(b, k)
  {
    b | Mask(n)
  }

  /** `bitClear(b, n)`: bit `n` becomes 0, the other seven bits keep their value. */
  function BitClear(b: bv8, n: nat): (r: bv8)
    requires n < 8
    ensures !Bit(r, n)
    ensures forall k: nat | k < 8 && k != n :: Bit(r, k) == Bit(b, k)
  {
    b & !Mask(n)
  }

  /** A byte is determined by its eight bits. */
  lemma BitsDetermineByte(a: bv8, b: bv8)
    requires forall k: nat | k < 8 :: Bit(a, k) == Bit(b, k)
    ensures a == b
  {
    assert Bit(a, 0) == Bit(b, 0) && Bit(a, 1) == Bit(b, 1);
    assert Bit(a, 2) == Bit(b, 2) && Bit(a, 3) == Bit(b, 3);
    assert Bit(a, 4) == Bit(b, 4) && Bit(a, 5) == Bit(b, 5);
    assert Bit(a, 6) == Bit(b, 6) && Bit(a, 7) == Bit(b, 7);
  }

  /** Setting a bit and then clearing it is the same as clearing it, and vice versa. */
  lemma SetThenClear(b: bv8, n: nat)
    requires n < 8
    ensures BitClear(BitSet(b, n), n) == BitClear(b, n)
    ensures BitSet(BitClear(b, n), n) == BitSet(b, n)
  {
  }

  /**
   * The bit-level contracts of `BitSet` and `BitClear` pin the byte down:
   * any byte whose bit `n` has the given value and whose other bits are those
   * of `b` is exactly the byte the read-modify-write writes back.
   */
  lemma OneBitChangeIsUnique(b: bv8, r: bv8, n: nat, value: bool)
    requires n < 8
    requires Bit(r, n) == value
    requires forall k: nat | k < 8 && k != n :: Bit(r, k) == Bit(b, k)
    ensures r == if value then BitSet(b, n) else BitClear(b, n)
  {
    BitsDetermineByte(r, if value then BitSet(b, n) else BitClear(b, n));
  }
}
