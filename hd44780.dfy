/** The HD44780 instruction-register byte: the instruction table of the
    Hitachi HD44780U datasheet (Table 6, "Instructions"). The class of an
    instruction is its highest set bit; the bits below it are its flags or
    its address. The driver's command functions each build one of these
    bytes (UK_lcd.h:144-153, 164-174, 182-189, 197-207, 215-222, 230, 238). */
module Hd44780 {
  import opened Bits

  datatype Option<T> = None | Some(value: T)

  datatype Instruction =
    | ClearDisplay
    | ReturnHome
    | EntryModeSet(increment: bool, shiftDisplay: bool)
    | DisplayControl(displayOn: bool, cursorOn: bool, blinkOn: bool)
    | CursorDisplayShift(shiftScreen: bool, right: bool)
    | FunctionSet(eightBit: bool, twoLines: bool, font5x10: bool)
    | SetCgramAddress(cgAddress: bv8)
    | SetDdramAddress(ddAddress: bv8)

  /** The address fields are 6 (CGRAM) and 7 (DDRAM) bits wide. */
  predicate WellFormed(i: Instruction) {
    match i
    case SetCgramAddress(a) => a < 0x40
    case SetDdramAddress(a) => a < 0x80
    case _ => true
  }

  /** Bit k of an instruction byte when flag f is on, else nothing. */
  function Flag(f: bool, k: nat): bv8
    requires k < 8
  {
    if f then Mask(k) else 0
  }

  /** The instruction byte, with every don't-care bit written as 0. */
  function Encode(i: Instruction): bv8 {
    match i
    case ClearDisplay => Mask(DB0)
    case ReturnHome => Mask(DB1)
    case EntryModeSet(id, s) => Mask(DB2) | Flag(id, DB1) | Flag(s, DB0)
    case DisplayControl(d, c, b) => Mask(DB3) | Flag(d, DB2) | Flag(c, DB1) | Flag(b, DB0)
    case CursorDisplayShift(sc, rl) => Mask(DB4) | Flag(sc, DB3) | Flag(rl, DB2)
    case FunctionSet(dl, n, f) => Mask(DB5) | Flag(dl, DB4) | Flag(n, DB3) | Flag(f, DB2)
    case SetCgramAddress(a) => Mask(DB6) | a
    case SetDdramAddress(a) => Mask(DB7) | a
  }

  /** How the controller reads an instruction byte: the highest set bit
      selects the instruction; the zero byte is no instruction. */
  function Decode(b: bv8): (r: Option<Instruction>)
    ensures r.Some? <==> b != 0
    ensures r.Some? ==> WellFormed(r.value)
  {
    if Bit(b, DB7) then Some(SetDdramAddress(b & 0x7F))
    else if Bit(b, DB6) then Some(SetCgramAddress(b & 0x3F))
    else if Bit(b, DB5) then Some(FunctionSet(Bit(b, DB4), Bit(b, DB3), Bit(b, DB2)))
    else if Bit(b, DB4) then Some(CursorDisplayShift(Bit(b, DB3), Bit(b, DB2)))
    else if Bit(b, DB3) then Some(DisplayControl(Bit(b, DB2), Bit(b, DB1), Bit(b, DB0)))
    else if Bit(b, DB2) then Some(EntryModeSet(Bit(b, DB1), Bit(b, DB0)))
    else if Bit(b, DB1) then Some(ReturnHome)
    else if Bit(b, DB0) then Some(ClearDisplay)
    else None
  }

  /** The bits the datasheet marks "-" (don't care) for an instruction. */
  function DontCare(i: Instruction): bv8 {
    match i
    case ReturnHome => Mask(DB0)
    case CursorDisplayShift(_, _) => Mask(DB1) | Mask(DB0)
    case FunctionSet(_, _, _) => Mask(DB1) | Mask(DB0)
    case _ => 0
  }

  /** The controller reads back exactly the instruction that was encoded. */
  lemma DecodeEncode(i: Instruction)
    requires WellFormed(i)
    ensures Decode(Encode(i)) == Some(i)
  {
    match i
    case ClearDisplay =>
    case ReturnHome =>
    case EntryModeSet(id, s) =>
    case DisplayControl(d, c, b) =>
    case CursorDisplayShift(sc, rl) =>
    case FunctionSet(dl, n, f) =>
    case SetCgramAddress(a) =>
    case SetDdramAddress(a) =>
  }

  /** Every non-zero byte is the encoding of the instruction it decodes to,
      up to that instruction's don't-care bits. */
  lemma EncodeDecode(b: bv8)
    requires b != 0
    ensures Encode(Decode(b).value) == b & !DontCare(Decode(b).value)
  {
  }

  /** Different well-formed instructions have different bytes. */
  lemma EncodeInjective(i: Instruction, j: Instruction)
    requires WellFormed(i) && WellFormed(j)
    requires Encode(i) == Encode(j)
    ensures i == j
  {
    DecodeEncode(i);
    DecodeEncode(j);
  }
}
