/**
 * The 8-bit shift register `resolution` into which the oscillator folds each
 * newly fetched Thue-Morse bit (`resolution <<= 1; resolution |= bit;` on a
 * `uint8_t`): the oldest bit falls off the top, the new bit becomes bit 0.
 */
module ShiftRegister {
  import opened ThueMorse

  /** Bit `k` of the byte `r`, as 0 or 1. */
  function BitOf(r: bv8, k: nat): bv8
    requires k < 8
  {
    (r >> k) & 1
  }

  /** Shift `r` left by one within its 8 bits, then OR in `bit`. */
  function Push(r: bv8, bit: bv8): bv8
    requires bit <= 1
  {
    (r << 1) | bit
  }

  /** As unsigned arithmetic a push doubles the byte modulo 256 and adds the bit. */
  lemma PushArithmetic(r: bv8, bit: bv8)
    requires bit <= 1
    ensures Push(r, bit) as int == (r as int * 2) % 256 + bit as int
  {
    var x := r << 1;
    assert x | bit == x + bit;
    ShiftIsDoubling(r);
    assert (x + bit) as int == x as int + bit as int;
  }

  /** A left shift of a byte doubles it modulo 256. */
  lemma ShiftIsDoubling(r: bv8)
    ensures (r << 1) as int == (r as int * 2) % 256
  {
  }

  /** After a push, bit 0 is the pushed bit and every other bit is the one below it before. */
  lemma PushMovesBits(r: bv8, bit: bv8, k: nat)
    requires bit <= 1 && k < 8
    ensures BitOf(Push(r, bit), k) == if k == 0 then bit else BitOf(r, k - 1)
  {
  }

  /** Bit `pos` of the sequence as the byte it is stored in (`next_val`). */
  function SeqBit(pos: nat): bv8
  {
    if Bit(pos) == 0 then 0 else 1
  }

  /** Storing the generator's result in a byte keeps its value. */
  lemma SeqBitValue(pos: nat)
    ensures SeqBit(pos) as int == Bit(pos)
  {
  }

  /** The register `r` after bits from .. from+n-1 of the sequence have been pushed onto it, in order. */
  function Pushed(r: bv8, from: nat, n: nat): bv8
  {
    if n == 0 then r else Push(Pushed(r, from, n - 1), SeqBit(from + n - 1))
  }

  /** The register after bits 0 .. n-1 of the sequence have been pushed, in order, onto 0. */
  function Window(n: nat): bv8
  {
    Pushed(0, 0, n)
  }

  /**
   * The register holds the most recent eight sequence bits: bit k is the bit
   * fetched k pushes ago, and 0 where fewer than k+1 bits were fetched.
   */
  lemma {:induction false} WindowBits(n: nat, k: nat)
    requires k < 8
    ensures BitOf(Window(n), k) == if k < n then SeqBit(n - 1 - k) else 0
    decreases n
  {
    if n > 0 {
      PushMovesBits(Window(n - 1), SeqBit(n - 1), k);
      if k > 0 {
        WindowBits(n - 1, k - 1);
      }
    }
  }

  /** Bits 0..7 of the sequence (0,1,1,0,1,0,0,1) form the byte 0b01101001. */
  lemma WindowOfFirstEight()
    ensures Window(8) == 0x69
  {
    FirstSixteen();
  }

  /** `r` shifted left `n` times within its 8 bits. */
  function ShiftedBy(r: bv8, n: nat): bv8
  {
    if n == 0 then r else ShiftedBy(r, n - 1) << 1
  }

  /**
   * Pushes keep the old contents, shifted left by the number of pushes,
   * beside the pushed bits.
   */
  lemma {:induction false} PushedShiftsOld(r: bv8, from: nat, n: nat)
    ensures Pushed(r, from, n) == ShiftedBy(r, n) | Pushed(0, from, n)
    decreases n
  {
    if n > 0 {
      PushedShiftsOld(r, from, n - 1);
      ShiftOrDistributes(ShiftedBy(r, n - 1), Pushed(0, from, n - 1), SeqBit(from + n - 1));
    }
  }

  lemma ShiftOrDistributes(x: bv8, y: bv8, b: bv8)
    ensures ((x | y) << 1) | b == (x << 1) | ((y << 1) | b)
  {
  }

  /** Eight pushes discard every bit the register held before. */
  lemma ForgetsAfterEight(r: bv8, from: nat)
    ensures Pushed(r, from, 8) == Pushed(0, from, 8)
  {
    PushedShiftsOld(r, from, 8);
    var x := r;
    assert ShiftedBy(r, 0) == x;
    x := x << 1; assert ShiftedBy(r, 1) == x;
    x := x << 1; assert ShiftedBy(r, 2) == x;
    x := x << 1; assert ShiftedBy(r, 3) == x;
    x := x << 1; assert ShiftedBy(r, 4) == x;
    x := x << 1; assert ShiftedBy(r, 5) == x;
    x := x << 1; assert ShiftedBy(r, 6) == x;
    x := x << 1; assert ShiftedBy(r, 7) == x;
    x := x << 1; assert ShiftedBy(r, 8) == x;
    assert x == 0;
  }
}
