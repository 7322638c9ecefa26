/** Bytes as small integers. */
module Bytes {
  type Byte = x: int | 0 <= x < 256

  /** The bitwise conjunction of the low `bits` bits. */
  function AndBits(a: nat, b: nat, bits: nat): nat {
    if bits == 0 then 0 else (a % 2) * (b % 2) + 2 * AndBits(a / 2, b / 2, bits - 1)
  }

  function And(a: Byte, b: Byte): Byte {
    AndFits(a, b, 8);
    AndBits(a, b, 8)
  }

  function PowerOfTwo(n: nat): nat {
    if n == 0 then 1 else 2 * PowerOfTwo(n - 1)
  }

  lemma {:induction false} AndFits(a: nat, b: nat, bits: nat)
    ensures AndBits(a, b, bits) < PowerOfTwo(bits)
    ensures PowerOfTwo(8) == 256
  {
    if bits > 0 {
      AndFits(a / 2, b / 2, bits - 1);
      assert (a % 2) * (b % 2) <= 1;
    }
    assert PowerOfTwo(4) == 16;
  }

  lemma {:induction false} AndOnes(b: nat, bits: nat)
    requires b < PowerOfTwo(bits)
    ensures AndBits(PowerOfTwo(bits) - 1, b, bits) == b
  {
    if bits > 0 {
      AndOnes(b / 2, bits - 1);
      assert (PowerOfTwo(bits) - 1) % 2 == 1 && (PowerOfTwo(bits) - 1) / 2 == PowerOfTwo(bits - 1) - 1;
    }
  }

  /** Programming an erased byte stores the byte. */
  lemma ErasedTakes(b: Byte)
    ensures And(255, b) == b
  {
    AndFits(255, b, 8);
    AndOnes(b, 8);
  }
}
