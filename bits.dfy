/**
 * Single bits of a byte, as the rasteriser packs pixels: bit k of a byte is
 * the value 1 << k.
 */
module Bits {
  /** The byte with only bit k set: 1 << k. */
  function Mask(k: nat): (m: bv8)
    requires k < 8
    ensures m == (1 as bv8) << k
  {
    match k
    case 0 => 0x01
    case 1 => 0x02
    case 2 => 0x04
    case 3 => 0x08
    case 4 => 0x10
    case 5 => 0x20
    case 6 => 0x40
    case 7 => 0x80
  }

  /** Whether bit k of b is set. */
  predicate BitSet(b: bv8, k: nat)
    requires k < 8
  {
    b & Mask(k) != 0
  }

  /** OR-ing in bit k sets bit k and leaves every other bit as it was. */
  lemma OrMask(b: bv8, k: nat, j: nat)
    requires k < 8 && j < 8
    ensures BitSet(b | Mask(k), j) <==> BitSet(b, j) || j == k
  {
  }

  /** A byte is determined by its eight bits. */
  lemma BitsDetermineByte(a: bv8, b: bv8)
    requires forall k: nat | k < 8 :: BitSet(a, k) == BitSet(b, k)
    ensures a == b
  {
    assert BitSet(a, 0) == BitSet(b, 0);
    assert BitSet(a, 1) == BitSet(b, 1);
    assert BitSet(a, 2) == BitSet(b, 2);
    assert BitSet(a, 3) == BitSet(b, 3);
    assert BitSet(a, 4) == BitSet(b, 4);
    assert BitSet(a, 5) == BitSet(b, 5);
    assert BitSet(a, 6) == BitSet(b, 6);
    assert BitSet(a, 7) == BitSet(b, 7);
  }
}
