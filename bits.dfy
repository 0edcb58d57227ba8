/**
 * Bit positions of a byte, tested the way the driver tests them.
 */
module Bits {

  /** Bit i of v: `v & (1 << i)` is non-zero. */
  function Bit(v: bv8, i: nat): bool
    requires i < 8
  {
    v & (1 << i) != 0
  }

  /** Two bytes with the same 8 bits are equal. */
  lemma BitsDetermineByte(a: bv8, b: bv8)
    requires forall j :: 0 <= j < 8 ==> Bit(a, j) == Bit(b, j)
    ensures a == b
  {
    assert Bit(a, 0) == Bit(b, 0) && Bit(a, 1) == Bit(b, 1);
    assert Bit(a, 2) == Bit(b, 2) && Bit(a, 3) == Bit(b, 3);
    assert Bit(a, 4) == Bit(b, 4) && Bit(a, 5) == Bit(b, 5);
    assert Bit(a, 6) == Bit(b, 6) && Bit(a, 7) == Bit(b, 7);
  }
}
