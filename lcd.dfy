/** The driver of UK_lcd.h: an HD44780 character LCD in 8-bit mode, wired to
    two AVR ports. The control port (`ISPORT`, direction register `ISDDR`)
    carries RS, RW and En; the data port (`DTPORT`, direction register
    `DTDDR`, input pins `DTPIN`) carries DB0..DB7. Every function of the
    header is a method of `Lcd` that changes these registers the way the C
    code does, and logs what the controller sees on the bus. */
module UkLcd {
  import opened Bits
  import opened Protocol
  import Hd44780

  /** Length of a NUL-terminated string: the index of its first 0 byte. */
  function CStrLen(s: seq<bv8>): (n: nat)
    requires 0 in s
    ensures n < |s| && s[n] == 0
    ensures forall k :: 0 <= k < n ==> s[k] != 0
  {
    if s[0] == 0 then 0 else 1 + CStrLen(s[1..])
  }

  /** The DDRAM address `cursorPosLCD(add, n)` selects: `add - 1`, moved up
      by 64 unless `n` is exactly 1, in 16-bit arithmetic, kept to the 7
      address bits that remain once bit 7 of the instruction is set
      (UK_lcd.h:148-153). */
  function DdramAddress(add: CInt, n: CInt): (a: bv8)
    ensures Hd44780.WellFormed(Hd44780.SetDdramAddress(a))
  {
    LowByte((add - 1 + (if n == 1 then 0 else 64)) & 0x7F)
  }

  /** The byte cursorPosLCD builds from `lines = n - 1` and `a = add - 1`,
      bit 7 OR-ed with the low byte of a, plus 64 unless lines is 0, is the
      "set DDRAM address" instruction for the address it selects. */
  lemma AddressByte(add: CInt, n: CInt, lines: CInt, a: CInt)
    requires lines == n - 1 && a == add - 1
    ensures Mask(DB7) | LowByte(if lines == 0 then a else a + 64)
         == Hd44780.Encode(Hd44780.SetDdramAddress(DdramAddress(add, n)))
  {
    assert lines == 0 <==> n == 1;
    HighBitAbsorbs(if lines == 0 then a else a + 64);
  }

  /** In 1-line mode, columns 1..80 are DDRAM addresses 0x00..0x4F, and the
      instruction byte is 0x80 + add - 1. */
  lemma CursorLine1(add: CInt)
    requires 1 <= add <= 80
    ensures DdramAddress(add, 1) as CInt == add - 1
    ensures Hd44780.Encode(Hd44780.SetDdramAddress(DdramAddress(add, 1))) as CInt == 0x80 + add - 1
  {
  }

  /** With any other line count, 1..64 are DDRAM addresses 0x40..0x7F, and
      the instruction byte is 0xC0 + add - 1. */
  lemma CursorLine2(add: CInt, n: CInt)
    requires n != 1 && 1 <= add <= 64
    ensures DdramAddress(add, n) as CInt == add - 1 + 64
    ensures Hd44780.Encode(Hd44780.SetDdramAddress(DdramAddress(add, n))) as CInt == 0xC0 + add - 1
  {
  }

  /** Past 64 with the 64 offset the address wraps to the start of DDRAM:
      no bounds are checked. */
  lemma CursorWraps(add: CInt, n: CInt)
    requires n != 1 && 65 <= add <= 192
    ensures DdramAddress(add, n) as CInt == add - 65
  {
  }

  /** What `printStrLCD` puts on the bus for the characters cs when the
      pins will show p: per character a busy check, the 5 us wait and one
      data-register write; then a final busy check and wait. */
  function StringTrace(cs: seq<bv8>, p: seq<bv8>): (t: seq<Event>)
    requires ReadyCount(p) > |cs|
    ensures |t| == 3 * |cs| + 2
    ensures IsReadyCheck(t[|t| - 2]) && t[|t| - 1] == Delay(5)
  {
    if cs == [] then [BusyEvent(p), Delay(5)]
    else [BusyEvent(p), Delay(5), Transfer(true, false, true, 0xFF, cs[0])] + StringTrace(cs[1..], AfterBusy(p))
  }

  /** Every write of a string goes to the data register, in write mode,
      with the data bus driven. */
  lemma {:induction false} StringTraceWrites(cs: seq<bv8>, p: seq<bv8>)
    requires ReadyCount(p) > |cs|
    ensures forall k :: 0 <= k < |StringTrace(cs, p)| && StringTrace(cs, p)[k].Transfer? ==>
      StringTrace(cs, p)[k] == Transfer(true, false, true, 0xFF, StringTrace(cs, p)[k].data)
  {
    if cs != [] {
      StringTraceWrites(cs[1..], AfterBusy(p));
    }
  }

  /** A log that ends with what is left of a string's log from position i
      ends, after the write of character i, with what is left from i + 1. */
  lemma StringTraceAdvance(whole: seq<Event>, t: seq<Event>, str: seq<bv8>, len: nat, i: nat, p: seq<bv8>)
    requires i < len <= |str| && ReadyCount(p) > len - i
    requires whole == t + StringTrace(str[..len][i..], p)
    ensures whole == t + [BusyEvent(p)] + [Delay(5)] + [Transfer(true, false, true, 0xFF, str[i])]
                     + StringTrace(str[..len][i + 1..], AfterBusy(p))
  {
    StringTraceStep(str[..len], i, p);
    SplitThree(t, BusyEvent(p), Delay(5), Transfer(true, false, true, 0xFF, str[i]), StringTrace(str[..len][i + 1..], AfterBusy(p)));
  }

  /** Three events in front of the rest of a log, one at a time. */
  lemma NestThree(a: Event, b: Event, c: Event, r: seq<Event>)
    ensures [a, b, c] + r == [a] + ([b] + ([c] + r))
  {
  }

  /** Three events in front of the rest of a log, regrouped. */
  lemma SplitThree(t: seq<Event>, a: Event, b: Event, c: Event, r: seq<Event>)
    ensures t + ([a, b, c] + r) == t + [a] + [b] + [c] + r
  {
    assert [a, b, c] == [a] + [b] + [c];
  }

  /** What is left of a string's log once all its characters are written
      is the final check and wait. */
  lemma StringTraceEnd(whole: seq<Event>, t: seq<Event>, cs: seq<bv8>, i: nat, p: seq<bv8>)
    requires i == |cs| && ReadyCount(p) > 0
    requires whole == t + StringTrace(cs[i..], p)
    ensures whole == t + [BusyEvent(p)] + [Delay(5)]
  {
    assert cs[i..] == [];
    assert t + [BusyEvent(p), Delay(5)] == t + [BusyEvent(p)] + [Delay(5)];
  }

  /** StringTrace unfolded at position i of the characters. */
  lemma StringTraceStep(cs: seq<bv8>, i: nat, p: seq<bv8>)
    requires i < |cs| && ReadyCount(p) > |cs| - i
    ensures StringTrace(cs[i..], p)
         == [BusyEvent(p), Delay(5), Transfer(true, false, true, 0xFF, cs[i])] + StringTrace(cs[i + 1..], AfterBusy(p))
  {
    assert cs[i..][1..] == cs[i + 1..];
  }

  /** The string's characters reach the data register once each, in index order. */
  lemma {:induction false} StringTraceData(cs: seq<bv8>, p: seq<bv8>)
    requires ReadyCount(p) > |cs|
    ensures DataOf(StringTrace(cs, p)) == cs
  {
    if cs == [] {
      DataOfCons(Delay(5), []);
      DataOfCons(BusyEvent(p), [Delay(5)]);
      assert [BusyEvent(p)] + ([Delay(5)] + []) == StringTrace(cs, p);
    } else {
      var rest := StringTrace(cs[1..], AfterBusy(p));
      var w := Transfer(true, false, true, 0xFF, cs[0]);
      NestThree(BusyEvent(p), Delay(5), w, rest);
      DataOfCons(w, rest);
      DataOfCons(Delay(5), [w] + rest);
      DataOfCons(BusyEvent(p), [Delay(5)] + ([w] + rest));
      StringTraceData(cs[1..], AfterBusy(p));
      var none: seq<bv8> := [];
      assert none + (none + ([cs[0]] + cs[1..])) == [cs[0]] + cs[1..];
      HeadTail(cs);
    }
  }

  lemma HeadTail(s: seq<bv8>)
    requires |s| > 0
    ensures s == [s[0]] + s[1..]
  {
  }

  /** Every character write of a string is preceded by its own busy check. */
  lemma {:induction false} StringTraceSynchronized(cs: seq<bv8>, p: seq<bv8>)
    requires ReadyCount(p) > |cs|
    ensures Synchronized(StringTrace(cs, p), false)
  {
    if cs == [] {
      CheckOnly(p, [Delay(5)]);
      assert [BusyEvent(p)] + [Delay(5)] == [BusyEvent(p), Delay(5)];
    } else {
      var head := [BusyEvent(p), Delay(5), Transfer(true, false, true, 0xFF, cs[0])];
      CheckedWrite(p, [Delay(5)], true, cs[0], []);
      assert [BusyEvent(p)] + ([Delay(5)] + ([Transfer(true, false, true, 0xFF, cs[0])] + [])) == head;
      StringTraceSynchronized(cs[1..], AfterBusy(p));
      SynchronizedAppend(head, StringTrace(cs[1..], AfterBusy(p)), false);
    }
  }

  /** The control port after a busy check (`checked`), the register
      selection of a write (`selected`) and its Enable pulse (`after`): RS as
      selected, RW and En low, every other pin as it was `before`. */
  lemma ControlAfterWrite(before: bv8, checked: bv8, selected: bv8, after: bv8, rs: bool)
    requires AgreeExcept(checked, before, ControlMask)
    requires Bit(selected, RS) == rs && !Bit(selected, RW)
    requires AgreeExcept(selected, checked, Mask(RS) | Mask(RW))
    requires !Bit(after, EN) && AgreeExcept(after, selected, Mask(EN))
    ensures Bit(after, RS) == rs && !Bit(after, RW) && !Bit(after, EN)
    ensures AgreeExcept(after, before, ControlMask)
  {
  }

  class Lcd {
    var isPort: bv8   // ISPORT (PORTC)
    var isDdr: bv8    // ISDDR (DDRC)
    var dtPort: bv8   // DTPORT (PORTA)
    var dtDdr: bv8    // DTDDR (DDRA)
    /** The values successive reads of DTPIN (PINA) will return. */
    var pins: seq<bv8>
    /** Everything the controller has seen on the bus so far. */
    ghost var trace: seq<Event>

    /** The handshake discipline has been kept so far. */
    ghost predicate Valid()
      reads this
    {
      Synchronized(trace, false)
    }

    /** The control lines and data bus just after a write of `data` to the
        register RS selects; `before` is the control port before the call. */
    ghost predicate AfterWrite(rs: bool, data: bv8, before: bv8)
      reads this
    {
      Bit(isPort, RS) == rs && !Bit(isPort, RW) && !Bit(isPort, EN)
      && AgreeExcept(isPort, before, ControlMask)
      && dtDdr == 0xFF && dtPort == data
    }

    /** The control lines and data bus just after a busy check. */
    ghost predicate AfterCheck(before: bv8)
      reads this
    {
      !Bit(isPort, RS) && Bit(isPort, RW) && !Bit(isPort, EN)
      && AgreeExcept(isPort, before, ControlMask)
      && dtDdr == 0x00 && dtPort == 0x00
    }

    /** The four registers at their AVR reset value 0x00. */
    constructor (pinValues: seq<bv8>)
      ensures Valid()
      ensures isPort == 0 && isDdr == 0 && dtPort == 0 && dtDdr == 0
      ensures pins == pinValues && trace == []
    {
      isPort, isDdr, dtPort, dtDdr := 0, 0, 0, 0;
      pins := pinValues;
      trace := [];
    }

    /** enableLCD: En low when i is 0, high otherwise; nothing else changes. */
    method Enable(i: CInt)
      modifies this`isPort
      ensures Bit(isPort, EN) <==> i != 0
      ensures AgreeExcept(isPort, old(isPort), Mask(EN))
    {
      if i == 0 {
        isPort := ClearBit(isPort, EN);
      } else {
        isPort := SetBit(isPort, EN);
      }
    }

    /** shortEnLCD: one Enable pulse, during which the controller takes the
        transfer RS, RW and the data port describe. */
    method ShortEnable()
      modifies this`isPort, this`trace
      ensures !Bit(isPort, EN) && AgreeExcept(isPort, old(isPort), Mask(EN))
      ensures trace == old(trace) + [Transfer(Bit(old(isPort), RS), Bit(old(isPort), RW), true, dtDdr, dtPort)]
    {
      Enable(1);
      trace := trace + [Transfer(Bit(isPort, RS), Bit(isPort, RW), Bit(isPort, EN), dtDdr, dtPort)];
      Enable(0);
    }

    /** dataBusRWLCD: i == 0 drives all eight data pins; anything else makes
        them inputs with the pull-ups off. */
    method DataBusRW(i: CInt)
      modifies this`dtDdr, this`dtPort
      ensures dtDdr == if i == 0 then 0xFF else 0x00
      ensures dtPort == if i == 0 then old(dtPort) else 0x00
    {
      if i == 0 {
        dtDdr := 0xFF;
      } else {
        dtDdr := 0x00;
        dtPort := 0x00;
      }
    }

    /** instructLCD: RS low iff vRS is 0, RW low iff vRW is 0, the data bus
        turned to match RW; the other control-port bits stay. */
    method Instruct(vRS: CInt, vRW: CInt)
      modifies this`isPort, this`dtDdr, this`dtPort
      ensures Bit(isPort, RS) <==> vRS != 0
      ensures Bit(isPort, RW) <==> vRW != 0
      ensures AgreeExcept(isPort, old(isPort), Mask(RS) | Mask(RW))
      ensures dtDdr == if vRW == 0 then 0xFF else 0x00
      ensures dtPort == if vRW == 0 then old(dtPort) else 0x00
    {
      if vRS == 0 {
        isPort := ClearBit(isPort, RS);
      } else {
        isPort := SetBit(isPort, RS);
      }
      if vRW == 0 {
        isPort := ClearBit(isPort, RW);
        DataBusRW(0);
      } else {
        isPort := SetBit(isPort, RW);
        DataBusRW(1);
      }
    }

    /** cursorPosLCD's data byte: bit 7 set, then the column OR-ed in,
        shifted by 64 for any line count but one. The byte is the "set DDRAM
        address" instruction for DdramAddress(add, n). */
    method SetAddress(add: CInt, n: CInt)
      modifies this`dtPort
      ensures dtPort == Hd44780.Encode(Hd44780.SetDdramAddress(DdramAddress(add, n)))
    {
      dtPort := Mask(DB7);
      var lines := n - 1;
      var a := add - 1;
      if lines == 0 {
        dtPort := dtPort | LowByte(a);
      } else {
        dtPort := dtPort | LowByte(a + 64);
      }
      AddressByte(add, n, lines, a);
    }

    /** The command functions' `if (X == 1) DTPORT |= (1 << DBk);`: bit k
        of the data port goes high exactly when the flag is 1. */
    method SetFlag(x: CInt, k: nat)
      requires k < 8
      modifies this`dtPort
      ensures dtPort == old(dtPort) | Hd44780.Flag(x == 1, k)
    {
      if x == 1 {
        dtPort := dtPort | Mask(k);
      }
    }

    /** checkBFLCD: select the instruction register in read mode, raise
        Enable and read DTPIN until DB7 is low, then drop Enable. */
    method CheckBusy()
      requires ReadyCount(pins) > 0
      modifies this`isPort, this`dtDdr, this`dtPort, this`pins, this`trace
      ensures AfterCheck(old(isPort))
      ensures pins == AfterBusy(old(pins))
      ensures trace == old(trace) + [BusyEvent(old(pins))]
    {
      Instruct(0, 1);
      Enable(1);
      ghost var rs, rw, en, dir := Bit(isPort, RS), Bit(isPort, RW), Bit(isPort, EN), dtDdr;
      ghost var p0 := pins;
      ghost var k := FirstReady(p0);
      var pin := pins[0];
      pins := pins[1..];
      ghost var read := [pin];
      while Bit(pin, DB7)
        modifies this`pins
        invariant 1 <= |read| <= k + 1
        invariant read == p0[..|read|] && pins == p0[|read|..]
        invariant pin == read[|read| - 1]
        decreases |pins|
      {
        pin := pins[0];
        pins := pins[1..];
        read := read + [pin];
      }
      assert |read| == k + 1;
      Enable(0);
      trace := trace + [BusyCheck(rs, rw, en, dir, read)];
    }

    /** cursorPosLCD: one instruction write of "set DDRAM address". */
    method CursorPos(add: CInt, n: CInt)
      requires Valid() && ReadyCount(pins) > 0
      modifies this`isPort, this`dtDdr, this`dtPort, this`pins, this`trace
      ensures Valid()
      ensures trace == old(trace) + [BusyEvent(old(pins))]
        + [Transfer(false, false, true, 0xFF, Hd44780.Encode(Hd44780.SetDdramAddress(DdramAddress(add, n))))]
      ensures pins == AfterBusy(old(pins))
      ensures AfterWrite(false, Hd44780.Encode(Hd44780.SetDdramAddress(DdramAddress(add, n))), old(isPort))
    {
      CheckBusy();
      ghost var checked := isPort;
      Instruct(0, 0);
      ghost var selected := isPort;
      SetAddress(add, n);
      ShortEnable();
      ControlAfterWrite(old(isPort), checked, selected, isPort, false);
      AppendWrite(old(trace), old(pins), false, dtPort);
    }

    /** functionSetLCD: control pins made outputs, the power-on wait, then
        one "function set" instruction write. */
    method FunctionSet(dl: CInt, n: CInt, f: CInt)
      requires Valid() && ReadyCount(pins) > 0
      modifies this`isPort, this`isDdr, this`dtDdr, this`dtPort, this`pins, this`trace
      ensures Valid()
      ensures Bit(isDdr, EN) && Bit(isDdr, RW) && Bit(isDdr, RS)
      ensures AgreeExcept(isDdr, old(isDdr), ControlMask)
      ensures trace == old(trace) + [Delay(50000)] + [BusyEvent(old(pins))]
        + [Transfer(false, false, true, 0xFF, Hd44780.Encode(Hd44780.FunctionSet(dl == 1, n == 1, f == 1)))]
      ensures pins == AfterBusy(old(pins))
      ensures AfterWrite(false, Hd44780.Encode(Hd44780.FunctionSet(dl == 1, n == 1, f == 1)), old(isPort))
    {
      isDdr := isDdr | Mask(EN) | Mask(RW) | Mask(RS);
      trace := trace + [Delay(50000)];
      CheckBusy();
      ghost var checked := isPort;
      Instruct(0, 0);
      ghost var selected := isPort;
      dtPort := Mask(DB5);
      SetFlag(dl, DB4);
      SetFlag(n, DB3);
      SetFlag(f, DB2);
      assert dtPort == Hd44780.Encode(Hd44780.FunctionSet(dl == 1, n == 1, f == 1));
      ShortEnable();
      ControlAfterWrite(old(isPort), checked, selected, isPort, false);
      AppendDelay(old(trace), 50000, false);
      AppendWrite(old(trace) + [Delay(50000)], old(pins), false, dtPort);
    }

    /** cursorMovLCD: one "cursor or display shift" instruction write. */
    method CursorMov(sc: CInt, rl: CInt)
      requires Valid() && ReadyCount(pins) > 0
      modifies this`isPort, this`dtDdr, this`dtPort, this`pins, this`trace
      ensures Valid()
      ensures trace == old(trace) + [BusyEvent(old(pins))]
        + [Transfer(false, false, true, 0xFF, Hd44780.Encode(Hd44780.CursorDisplayShift(sc == 1, rl == 1)))]
      ensures pins == AfterBusy(old(pins))
      ensures AfterWrite(false, Hd44780.Encode(Hd44780.CursorDisplayShift(sc == 1, rl == 1)), old(isPort))
    {
      CheckBusy();
      ghost var checked := isPort;
      Instruct(0, 0);
      ghost var selected := isPort;
      dtPort := Mask(DB4);
      SetFlag(sc, DB3);
      SetFlag(rl, DB2);
      assert dtPort == Hd44780.Encode(Hd44780.CursorDisplayShift(sc == 1, rl == 1));
      ShortEnable();
      ControlAfterWrite(old(isPort), checked, selected, isPort, false);
      AppendWrite(old(trace), old(pins), false, dtPort);
    }

    /** dispContLCD: one "display on/off control" instruction write. */
    method DispCont(d: CInt, c: CInt, b: CInt)
      requires Valid() && ReadyCount(pins) > 0
      modifies this`isPort, this`dtDdr, this`dtPort, this`pins, this`trace
      ensures Valid()
      ensures trace == old(trace) + [BusyEvent(old(pins))]
        + [Transfer(false, false, true, 0xFF, Hd44780.Encode(Hd44780.DisplayControl(d == 1, c == 1, b == 1)))]
      ensures pins == AfterBusy(old(pins))
      ensures AfterWrite(false, Hd44780.Encode(Hd44780.DisplayControl(d == 1, c == 1, b == 1)), old(isPort))
    {
      CheckBusy();
      ghost var checked := isPort;
      Instruct(0, 0);
      ghost var selected := isPort;
      dtPort := Mask(DB3);
      SetFlag(d, DB2);
      SetFlag(c, DB1);
      SetFlag(b, DB0);
      assert dtPort == Hd44780.Encode(Hd44780.DisplayControl(d == 1, c == 1, b == 1));
      ShortEnable();
      ControlAfterWrite(old(isPort), checked, selected, isPort, false);
      AppendWrite(old(trace), old(pins), false, dtPort);
    }

    /** entryModeLCD: one "entry mode set" instruction write. */
    method EntryMode(id: CInt, s: CInt)
      requires Valid() && ReadyCount(pins) > 0
      modifies this`isPort, this`dtDdr, this`dtPort, this`pins, this`trace
      ensures Valid()
      ensures trace == old(trace) + [BusyEvent(old(pins))]
        + [Transfer(false, false, true, 0xFF, Hd44780.Encode(Hd44780.EntryModeSet(id == 1, s == 1)))]
      ensures pins == AfterBusy(old(pins))
      ensures AfterWrite(false, Hd44780.Encode(Hd44780.EntryModeSet(id == 1, s == 1)), old(isPort))
    {
      CheckBusy();
      ghost var checked := isPort;
      Instruct(0, 0);
      ghost var selected := isPort;
      dtPort := Mask(DB2);
      SetFlag(id, DB1);
      SetFlag(s, DB0);
      assert dtPort == Hd44780.Encode(Hd44780.EntryModeSet(id == 1, s == 1));
      ShortEnable();
      ControlAfterWrite(old(isPort), checked, selected, isPort, false);
      AppendWrite(old(trace), old(pins), false, dtPort);
    }

    /** returnHomeLCD: one "return home" instruction write. */
    method ReturnHome()
      requires Valid() && ReadyCount(pins) > 0
      modifies this`isPort, this`dtDdr, this`dtPort, this`pins, this`trace
      ensures Valid()
      ensures trace == old(trace) + [BusyEvent(old(pins))]
        + [Transfer(false, false, true, 0xFF, Hd44780.Encode(Hd44780.ReturnHome))]
      ensures pins == AfterBusy(old(pins))
      ensures AfterWrite(false, Hd44780.Encode(Hd44780.ReturnHome), old(isPort))
    {
      CheckBusy();
      ghost var checked := isPort;
      Instruct(0, 0);
      ghost var selected := isPort;
      dtPort := Mask(DB1);
      assert dtPort == Hd44780.Encode(Hd44780.ReturnHome);
      ShortEnable();
      ControlAfterWrite(old(isPort), checked, selected, isPort, false);
      AppendWrite(old(trace), old(pins), false, dtPort);
    }

    /** clearScrLCD: one "clear display" instruction write, then 50 ms. */
    method ClearScr()
      requires Valid() && ReadyCount(pins) > 0
      modifies this`isPort, this`dtDdr, this`dtPort, this`pins, this`trace
      ensures Valid()
      ensures trace == old(trace) + [BusyEvent(old(pins))]
        + [Transfer(false, false, true, 0xFF, Hd44780.Encode(Hd44780.ClearDisplay))] + [Delay(50000)]
      ensures pins == AfterBusy(old(pins))
      ensures AfterWrite(false, Hd44780.Encode(Hd44780.ClearDisplay), old(isPort))
    {
      CheckBusy();
      ghost var checked := isPort;
      Instruct(0, 0);
      ghost var selected := isPort;
      dtPort := Mask(DB0);
      assert dtPort == Hd44780.Encode(Hd44780.ClearDisplay);
      ShortEnable();
      ControlAfterWrite(old(isPort), checked, selected, isPort, false);
      AppendWrite(old(trace), old(pins), false, dtPort);
      AppendDelay(trace, 50000, false);
      trace := trace + [Delay(50000)];
    }

    /** printChLCD: one data-register write of ch, then a busy check and 5 us. */
    method PrintCh(ch: bv8)
      requires Valid() && ReadyCount(pins) > 1
      modifies this`isPort, this`dtDdr, this`dtPort, this`pins, this`trace
      ensures Valid()
      ensures trace == old(trace) + [BusyEvent(old(pins))] + [Transfer(true, false, true, 0xFF, ch)]
        + [BusyEvent(AfterBusy(old(pins)))] + [Delay(5)]
      ensures pins == AfterBusy(AfterBusy(old(pins)))
      ensures AfterCheck(old(isPort))
    {
      CheckBusy();
      ghost var checked := isPort;
      Instruct(1, 0);
      ghost var selected := isPort;
      dtPort := ch;
      ShortEnable();
      ControlAfterWrite(old(isPort), checked, selected, isPort, true);
      AppendWrite(old(trace), old(pins), true, ch);
      AppendCheck(trace, pins);
      CheckBusy();
      AppendDelay(trace, 5, false);
      trace := trace + [Delay(5)];
    }

    /** One pass of printStrLCD's loop: a busy check, 5 us, and a
        data-register write of c. `before` is any earlier control-port value
        the current one agrees with outside RS, RW and En, such as the one
        before the loop. */
    method WriteChar(c: bv8, ghost before: bv8)
      requires ReadyCount(pins) > 0
      requires AgreeExcept(isPort, before, ControlMask)
      modifies this`isPort, this`dtDdr, this`dtPort, this`pins, this`trace
      ensures trace == old(trace) + [BusyEvent(old(pins))] + [Delay(5)] + [Transfer(true, false, true, 0xFF, c)]
      ensures pins == AfterBusy(old(pins))
      ensures AfterWrite(true, c, old(isPort))
      ensures AfterWrite(true, c, before)
    {
      CheckBusy();
      ghost var checked := isPort;
      trace := trace + [Delay(5)];
      Instruct(1, 0);
      ghost var selected := isPort;
      dtPort := c;
      ShortEnable();
      ControlAfterWrite(old(isPort), checked, selected, isPort, true);
      AgreeTrans(isPort, old(isPort), before, ControlMask);
    }

    /** printStrLCD's loop: the characters of str before its first 0 byte,
        each one after a busy check and a 5 us wait. What is left of the
        string's log is its final check and wait. */
    method WriteChars(str: seq<bv8>)
      requires 0 in str && ReadyCount(pins) > CStrLen(str)
      modifies this`isPort, this`dtDdr, this`dtPort, this`pins, this`trace
      ensures pins == AfterChecks(old(pins), CStrLen(str))
      ensures old(trace) + StringTrace(str[..CStrLen(str)], old(pins)) == trace + [BusyEvent(pins)] + [Delay(5)]
      ensures AgreeExcept(isPort, old(isPort), ControlMask)
      ensures CStrLen(str) == 0 ==> isPort == old(isPort) && dtDdr == old(dtDdr) && dtPort == old(dtPort)
      ensures CStrLen(str) > 0 ==> AfterWrite(true, str[CStrLen(str) - 1], old(isPort))
    {
      ghost var len := CStrLen(str);
      ghost var whole := old(trace) + StringTrace(str[..len], old(pins));
      var i := 0;
      while str[i] != 0
        invariant 0 <= i <= len
        invariant pins == AfterChecks(old(pins), i)
        invariant whole == trace + StringTrace(str[..len][i..], pins)
        invariant i == 0 ==> isPort == old(isPort) && dtDdr == old(dtDdr) && dtPort == old(dtPort)
        invariant i > 0 ==> AfterWrite(true, str[i - 1], old(isPort))
        decreases len - i
      {
        ghost var t, p := trace, pins;
        StringTraceAdvance(whole, t, str, len, i, p);
        WriteChar(str[i], old(isPort));
        AfterChecksStep(old(pins), i);
        i := i + 1;
      }
      StringTraceEnd(whole, trace, str[..len], i, pins);
    }

    /** printStrLCD: the characters of str before its first 0 byte, each one
        after a busy check and a 5 us wait, and a final check and wait. */
    method PrintStr(str: seq<bv8>)
      requires Valid() && 0 in str && ReadyCount(pins) > CStrLen(str)
      modifies this`isPort, this`dtDdr, this`dtPort, this`pins, this`trace
      ensures Valid()
      ensures trace == old(trace) + StringTrace(str[..CStrLen(str)], old(pins))
      ensures pins == AfterChecks(old(pins), CStrLen(str) + 1)
      ensures AfterCheck(old(isPort))
    {
      WriteChars(str);
      ghost var c := isPort;
      CheckBusy();
      AgreeTrans(isPort, c, old(isPort), ControlMask);
      trace := trace + [Delay(5)];
      AfterChecksStep(old(pins), CStrLen(str));
      StringTraceSynchronized(str[..CStrLen(str)], old(pins));
      SynchronizedAppend(old(trace), StringTrace(str[..CStrLen(str)], old(pins)), false);
    }
  }
}
