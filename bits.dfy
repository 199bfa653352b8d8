/** Single-bit and whole-byte operations on the 8-bit AVR I/O registers the
    driver drives (UK_lcd.h:51-67). Bit numbers are the pin numbers of the
    port: RS, RW and En on the control port; DB0..DB7 on the data port. */
module Bits {

  // Control port (PORTC) pins.
  const RS: nat := 5
  const RW: nat := 4
  const EN: nat := 3

  // Data port (PORTA) pins.
  const DB0: nat := 0
  const DB1: nat := 1
  const DB2: nat := 2
  const DB3: nat := 3
  const DB4: nat := 4
  const DB5: nat := 5
  const DB6: nat := 6
  const DB7: nat := 7

  /** `1 << k` as a register value, written out so that the bit-vector
      reasoning never needs to convert the shift amount. */
  function Mask(k: nat): (m: bv8)
    requires k < 8
    ensures m == (1 as bv8) << k
  {
    match k
    case 0 => 0x01
    case 1 => 0x02
    case 2 => 0x04
    case 3 => 0x08
    case 4 => 0x10
    case 5 => 0x20
    case 6 => 0x40
    case 7 => 0x80
  }

  /** The three control lines RS, RW and En together. */
  const ControlMask: bv8 := 0x38

  /** Pin k of register value b is high. */
  predicate Bit(b: bv8, k: nat)
    requires k < 8
  {
    b & Mask(k) != 0
  }

  /** a and b agree on every bit outside `changed`. */
  predicate AgreeExcept(a: bv8, b: bv8, changed: bv8) {
    a & !changed == b & !changed
  }

  /** Agreement outside a mask carries over from a to b to c. */
  lemma AgreeTrans(a: bv8, b: bv8, c: bv8, changed: bv8)
    requires AgreeExcept(a, b, changed) && AgreeExcept(b, c, changed)
    ensures AgreeExcept(a, c, changed)
  {
  }

  /** `b |= (1 << k)`: pin k goes high, every other pin keeps its value. */
  function SetBit(b: bv8, k: nat): (r: bv8)
    requires k < 8
    ensures Bit(r, k)
    ensures AgreeExcept(r, b, Mask(k))
  {
    b | Mask(k)
  }

  /** `b &= ~(1 << k)`: pin k goes low, every other pin keeps its value. */
  function ClearBit(b: bv8, k: nat): (r: bv8)
    requires k < 8
    ensures !Bit(r, k)
    ensures AgreeExcept(r, b, Mask(k))
  {
    b & !Mask(k)
  }

  /** A C `int` of the AVR toolchain: 16 bits, two's complement, with
      wrap-around arithmetic. */
  type CInt = bv16

  /** The byte an 8-bit register keeps when a C `int` is stored into it or
      OR-ed into it: its low eight bits. */
  function LowByte(x: CInt): bv8 {
    (x & 0xFF) as bv8
  }

  /** OR-ing an int into a register whose bit 7 is set keeps only the low
      seven bits of the int, whatever its sign. */
  lemma HighBitAbsorbs(x: CInt)
    ensures Mask(DB7) | LowByte(x) == Mask(DB7) | LowByte(x & 0x7F)
  {
  }
}
