/** Bytes as small integers, with the bitwise exclusive or. */
module Bytes {

  type Byte = b: int | 0 <= b < 256

  function Pow2(k: nat): nat {
    if k == 0 then 1 else 2 * Pow2(k - 1)
  }

  /** Bit by bit: a bit is set where exactly one argument has it set. */
  function ExclusiveOr(a: nat, b: nat): nat
    decreases a + b
  {
    if a == 0 && b == 0 then 0
    else 2 * ExclusiveOr(a / 2, b / 2) + if a % 2 != b % 2 then 1 else 0
  }

  lemma {:induction false} ExclusiveOrFits(a: nat, b: nat, k: nat)
    requires a < Pow2(k) && b < Pow2(k)
    ensures ExclusiveOr(a, b) < Pow2(k)
    decreases k
  {
    if a != 0 || b != 0 {
      ExclusiveOrFits(a / 2, b / 2, k - 1);
    }
  }

  function Xor(a: Byte, b: Byte): Byte {
    assert Pow2(8) == 256 by {
      assert Pow2(2) == 4 && Pow2(4) == 16 && Pow2(6) == 64;
    }
    ExclusiveOrFits(a, b, 8);
    ExclusiveOr(a, b)
  }

  lemma {:induction false} ExclusiveOrCancels(a: nat, b: nat, c: nat)
    requires ExclusiveOr(a, c) == ExclusiveOr(b, c)
    ensures a == b
    decreases a + b + c
  {
    if a + b + c > 0 {
      ExclusiveOrCancels(a / 2, b / 2, c / 2);
    }
  }

  /** Summing the same byte into different sums leaves them different. */
  lemma XorCancels(a: Byte, b: Byte, c: Byte)
    requires Xor(a, c) == Xor(b, c)
    ensures a == b
  {
    ExclusiveOrCancels(a, b, c);
  }

  lemma {:induction false} ExclusiveOrCommutes(a: nat, b: nat)
    ensures ExclusiveOr(a, b) == ExclusiveOr(b, a)
    decreases a + b
  {
    if a != 0 || b != 0 {
      ExclusiveOrCommutes(a / 2, b / 2);
    }
  }

  lemma XorCommutes(a: Byte, b: Byte)
    ensures Xor(a, b) == Xor(b, a)
  {
    ExclusiveOrCommutes(a, b);
  }
}
