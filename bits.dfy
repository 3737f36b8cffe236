/** Bit arithmetic on 8-bit registers of the expander: bit n of a register
    stands for pin n (0 <= n <= 7). The driver's pin-level operations are
    read-modify-write sequences built from these helpers. */
module Bits {

  /** `(d >> pin) & 0x01`: the level of one pin in a register value. */
  function BitOf(d: bv8, pin: bv8): (b: bv8)
    requires pin <= 7
    ensures b == 0 || b == 1
  {
    (d >> pin) & 1
  }

  /** Every pin except `pin` has the same level in `a` and `b`. */
  ghost predicate OthersUnchanged(a: bv8, b: bv8, pin: bv8)
  {
    forall q :: q <= 7 && q != pin ==> BitOf(a, q) == BitOf(b, q)
  }

  /** `1 << pin`: the mask that selects one pin and no other. */
  function Mask(pin: bv8): (m: bv8)
    requires pin <= 7
    ensures forall q :: q <= 7 ==> (BitOf(m, q) == 1 <==> q == pin)
  {
    1 << pin
  }

  /** `d | (1 << pin)`: raise one pin, keep the others. */
  function SetBit(d: bv8, pin: bv8): (r: bv8)
    requires pin <= 7
    ensures BitOf(r, pin) == 1
    ensures OthersUnchanged(r, d, pin)
  {
    d | Mask(pin)
  }

  /** `d & ~(1 << pin)`: lower one pin, keep the others. */
  function ClearBit(d: bv8, pin: bv8): (r: bv8)
    requires pin <= 7
    ensures BitOf(r, pin) == 0
    ensures OthersUnchanged(r, d, pin)
  {
    d & !Mask(pin)
  }

  /** Raise the pin when `high` holds, lower it otherwise. */
  function WithBit(d: bv8, pin: bv8, high: bool): (r: bv8)
    requires pin <= 7
    ensures BitOf(r, pin) == if high then 1 else 0
    ensures OthersUnchanged(r, d, pin)
  {
    if high then SetBit(d, pin) else ClearBit(d, pin)
  }

  /** A register value is determined by its eight pin bits. */
  lemma BitsDetermineByte(a: bv8, b: bv8)
    requires forall q :: q <= 7 ==> BitOf(a, q) == BitOf(b, q)
    ensures a == b
  {
    assert BitOf(a, 0) == BitOf(b, 0) && BitOf(a, 1) == BitOf(b, 1);
    assert BitOf(a, 2) == BitOf(b, 2) && BitOf(a, 3) == BitOf(b, 3);
    assert BitOf(a, 4) == BitOf(b, 4) && BitOf(a, 5) == BitOf(b, 5);
    assert BitOf(a, 6) == BitOf(b, 6) && BitOf(a, 7) == BitOf(b, 7);
  }
}
