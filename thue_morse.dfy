/**
 * The Thue-Morse bit generator (OEIS A010060) and its properties.
 *
 * `Bit` is the recursive generator of the oscillator: bit 0 is 0, an even
 * position repeats the bit at half the position, an odd position inverts the
 * bit at half of the position below it.
 */
module ThueMorse {

  /** Bit `pos` of the Thue-Morse sequence, computed by recursive halving. */
  function Bit(pos: nat): (b: int)
    ensures b == 0 || b == 1
    decreases pos
  {
    if pos == 0 then 0
    else if pos % 2 == 0 then Bit(pos / 2)
    else 1 - Bit((pos - 1) / 2)
  }

  /** Number of 1-bits in the binary representation of `n`. */
  function PopCount(n: nat): nat
  {
    if n == 0 then 0 else n % 2 + PopCount(n / 2)
  }

  /** 2 to the power `k`. */
  function Pow2(k: nat): (p: nat)
    ensures p >= 1
  {
    if k == 0 then 1 else 2 * Pow2(k - 1)
  }

  lemma BitAtZero()
    ensures Bit(0) == 0
  {
  }

  /** The even recurrence: position 2k repeats position k. */
  lemma BitEven(k: nat)
    ensures Bit(2 * k) == Bit(k)
  {
  }

  /** The odd recurrence: position 2k+1 inverts position k. */
  lemma BitOdd(k: nat)
    ensures Bit(2 * k + 1) == 1 - Bit(k)
  {
    assert (2 * k + 1 - 1) / 2 == k;
  }

  /** The two halves of every aligned pair are complementary. */
  lemma PairComplementary(k: nat)
    ensures Bit(2 * k) + Bit(2 * k + 1) == 1
  {
    BitEven(k);
    BitOdd(k);
  }

  /** The generator agrees with the parity of the number of 1-bits. */
  lemma {:induction false} BitIsParity(n: nat)
    ensures Bit(n) == PopCount(n) % 2
    decreases n
  {
    if n != 0 {
      BitIsParity(n / 2);
      if n % 2 == 1 {
        assert (n - 1) / 2 == n / 2;
      }
    }
  }

  /** The first sixteen bits of the sequence. */
  lemma FirstSixteen()
    ensures [Bit(0), Bit(1), Bit(2), Bit(3), Bit(4), Bit(5), Bit(6), Bit(7)]
         == [0, 1, 1, 0, 1, 0, 0, 1]
    ensures [Bit(8), Bit(9), Bit(10), Bit(11), Bit(12), Bit(13), Bit(14), Bit(15)]
         == [1, 0, 0, 1, 0, 1, 1, 0]
  {
  }

  /*
   * Termination and recursion depth.
   *
   * The generator takes a signed C `int`, whose `/` and `%` truncate toward
   * zero. `CallArg` is the argument of the one recursive call made at `pos`.
   */

  /** C division: the quotient is truncated toward zero. */
  function CDiv(a: int, d: int): int
    requires d > 0
  {
    if a >= 0 then a / d else -((-a) / d)
  }

  /** C remainder: it has the sign of the dividend. */
  function CRem(a: int, d: int): (r: int)
    requires d > 0
    ensures a == CDiv(a, d) * d + r
    ensures -d < r < d
    ensures a >= 0 ==> r >= 0
    ensures a < 0 ==> r <= 0
  {
    a - CDiv(a, d) * d
  }

  /** The argument of the recursive call made at a nonzero position, with C arithmetic. */
  function CallArg(pos: int): int
  {
    if CRem(pos, 2) == 0 then CDiv(pos, 2) else CDiv(pos - 1, 2)
  }

  /** The argument reached after `n` nested calls starting from `pos`. */
  function CallArgAfter(pos: int, n: nat): int
    decreases n
  {
    if n == 0 || pos == 0 then pos else CallArgAfter(CallArg(pos), n - 1)
  }

  /** On a positive position, C arithmetic gives the same argument as `Bit`'s, half the position. */
  lemma CallArgOnPositive(pos: int)
    requires pos > 0
    ensures CallArg(pos) == pos / 2
    ensures 0 <= CallArg(pos) < pos
  {
    if pos % 2 == 1 {
      assert (pos - 1) / 2 == pos / 2;
    }
  }

  /** A negative position never reaches the base case 0; -1 calls itself forever. */
  lemma {:induction false} NegativeNeverReachesZero(pos: int, n: nat)
    requires pos < 0
    ensures CallArgAfter(pos, n) < 0
    ensures pos == -1 ==> CallArgAfter(pos, n) == -1
    decreases n
  {
    if n > 0 {
      assert CallArg(pos) < 0;
      assert pos == -1 ==> CallArg(pos) == -1;
      NegativeNeverReachesZero(CallArg(pos), n - 1);
    }
  }

  /** Number of nested calls `Bit(pos)` makes before it reaches position 0 (see `DepthCounts`). */
  function Depth(pos: nat): nat
    decreases pos
  {
    if pos == 0 then 0 else 1 + Depth(pos / 2)
  }

  /**
   * `Depth` counts the nested calls of the C recursion: after `Depth(pos)`
   * calls the argument is 0, and before that it is still positive.
   */
  lemma {:induction false} DepthCounts(pos: nat)
    ensures CallArgAfter(pos, Depth(pos)) == 0
    ensures forall n: nat :: n < Depth(pos) ==> CallArgAfter(pos, n) > 0
    decreases pos
  {
    if pos > 0 {
      CallArgOnPositive(pos);
      DepthCounts(pos / 2);
      assert CallArgAfter(pos, Depth(pos)) == CallArgAfter(pos / 2, Depth(pos / 2));
      forall n: nat | n < Depth(pos)
        ensures CallArgAfter(pos, n) > 0
      {
        if n > 0 {
          assert CallArgAfter(pos, n) == CallArgAfter(pos / 2, n - 1);
        }
      }
    }
  }

  /** The depth is the bit-length of `pos`: the call nesting is logarithmic. */
  lemma {:induction false} DepthIsBitLength(pos: nat)
    ensures pos < Pow2(Depth(pos))
    ensures pos > 0 ==> Pow2(Depth(pos) - 1) <= pos
    decreases pos
  {
    if pos > 0 {
      DepthIsBitLength(pos / 2);
    }
  }

  /** A position below 2^k recurses at most k deep (32 for a 32-bit index). */
  lemma {:induction false} DepthBound(pos: nat, k: nat)
    requires pos < Pow2(k)
    ensures Depth(pos) <= k
    decreases k
  {
    if pos > 0 {
      DepthBound(pos / 2, k - 1);
    }
  }
}
