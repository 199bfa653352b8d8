# UK_lcd.h in Dafny

A model of `UK_lcd.h`, an AVR driver for an HD44780 character LCD used in
8-bit mode. The driver drives four 8-bit I/O registers:

- the control port `ISPORT` (PORTC), carrying RS on bit 5, RW on bit 4 and
  En on bit 3;
- its direction register `ISDDR`;
- the data port `DTPORT` (PORTA), carrying DB0..DB7;
- its direction register `DTDDR`.

It also reads the data pins `DTPIN` to poll the controller's busy flag (DB7).

The project has four modules:

- `Bits` (bits.dfy): the bit positions, single-bit set and clear, and the
  way a 16-bit C `int` lands in an 8-bit register.
- `Hd44780` (hd44780.dfy): the instruction byte of the Hitachi HD44780U
  datasheet (Table 6, "Instructions") as a datatype. `Encode` builds the
  byte and `Decode` reads it as the controller does. `Decode` undoes
  `Encode` on well-formed instructions; `Encode` undoes `Decode` up to the
  datasheet's don't-care bits.
- `Protocol` (protocol.dfy): what the controller sees on the bus, as a log
  of events: busy checks, transfers (one per Enable pulse) and standalone
  waits. It also holds the busy-flag input, given as the sequence of values
  successive `DTPIN` reads return. `Synchronized` is the handshake
  discipline: every transfer has a busy check before it that ended on a
  ready sample, and it is latched while En is high with the data bus pointing
  the way RW says.
- `UkLcd` (lcd.dfy): class `Lcd`, whose fields are the four registers, the
  pin values still to be read and the ghost log. Every function of the
  header is a method that updates the registers with the same `&=`, `|=`
  and `=` steps as the C code. Its contract states the registers it leaves
  behind and the exact events it adds to the log. `Valid()`, meaning the log
  is `Synchronized`, holds from construction on and is preserved by every
  user-level command (the helpers reserved for the header's own use do not
  promise it; see "## Left out").

C `int` parameters are `Bits.CInt`, a 16-bit bit-vector. That is the width
of `int` in the AVR toolchain, so `add - 1 + 64` in `cursorPosLCD` wraps as
it does on the target. Only the low byte reaches `DTPORT`. A flag parameter
counts only when it is exactly 1, as in `if (DL == 1)`.

The comment beside `cursorPosLCD` (UK_lcd.h:146-147) disagrees with the code:

- The comment reads N as the number of display lines, with columns 1-40 on
  line 1 and 41-80 on line 2.
- The code adds 64 to `add - 1` whenever N is not 1.

So with N = 2, columns 1-40 land on line 2 (DDRAM 0x40-0x67), 41-64 go past
it, and 65-104 wrap to line 1. The model does what the code does.
`UkLcd.CursorLine1`, `UkLcd.CursorLine2` and `UkLcd.CursorWraps` state these
outcomes. Read as "N selects the line", the code is consistent; the comment
is not.

The address instruction is marked by DB7 of the data byte; RS stays low
(UK_lcd.h:143-144). It is an instruction-register write like the other
commands, and the model follows the code in this.

## Model

| member | source | states |
|---|---|---|
| Bits.Mask | UK_lcd.h:89-91 | the mask for pin k is `1 << k` |
| Bits.SetBit | UK_lcd.h:91 | `b \|= (1 << k)` makes bit k high and keeps every other bit |
| Bits.ClearBit | UK_lcd.h:89 | `b &= ~(1 << k)` makes bit k low and keeps every other bit |
| Bits.HighBitAbsorbs | UK_lcd.h:144-153 | OR-ing an int into a byte with bit 7 set leaves only the int's low seven bits, for any 16-bit value |
| Hd44780.Decode | UK_lcd.h:144-238 | every non-zero byte decodes to exactly one instruction, with an address in range; the zero byte is none |
| Hd44780.DecodeEncode | UK_lcd.h:144-238 | decoding the byte of any well-formed instruction gives that instruction back |
| Hd44780.EncodeDecode | UK_lcd.h:144-238 | every non-zero byte is the encoding of its decoded instruction, up to that instruction's don't-care bits |
| Hd44780.EncodeInjective | UK_lcd.h:144-238 | different well-formed instructions have different bytes |
| Protocol.FirstReady | UK_lcd.h:105-106 | the poll stops at the first sample with DB7 low; every earlier sample has DB7 high |
| Protocol.Polled | UK_lcd.h:105-106 | one busy check reads a non-empty run of samples that ends on the only ready one |
| Protocol.AfterBusy | UK_lcd.h:105-106 | a busy check consumes exactly one ready sample and leaves fewer values to read |
| Protocol.AfterChecks | UK_lcd.h:257-266 | n busy checks consume n ready samples |
| Protocol.AfterChecksStep | UK_lcd.h:257-266 | n checks followed by one more are n + 1 checks |
| Protocol.BusyEvent | UK_lcd.h:101-108 | the logged busy check selects the instruction register in read mode, with En high and the bus released, and ends on a ready sample |
| Protocol.CheckedWrite | UK_lcd.h:259-263 | a busy check, waits and one driven write form a synchronized block |
| Protocol.AppendWrite | UK_lcd.h:142-155 | appending a busy check and one driven write keeps a log synchronized |
| Protocol.AppendCheck | UK_lcd.h:250 | appending a busy check keeps a log synchronized |
| Protocol.AppendDelay | UK_lcd.h:240 | appending a wait keeps a log synchronized |
| Protocol.SynchronizedAppend | UK_lcd.h:254-268 | two synchronized logs joined are synchronized |
| UkLcd.CStrLen | UK_lcd.h:257 | the loop stops at the first 0 byte of the string: a 0 there and none before it |
| UkLcd.DdramAddress | UK_lcd.h:148-153 | the address cursorPosLCD selects always fits the 7-bit DDRAM address field |
| UkLcd.AddressByte | UK_lcd.h:144-154 | `0x80` OR-ed with the low byte of `add - 1`, plus 64 unless N is 1, is the set-DDRAM-address instruction for that address |
| UkLcd.CursorLine1 | UK_lcd.h:148-151 | with N = 1, columns 1..80 give address `add - 1` and byte `0x80 + add - 1` |
| UkLcd.CursorLine2 | UK_lcd.h:152-154 | with N other than 1, columns 1..64 give address `add - 1 + 64` and byte `0xC0 + add - 1` |
| UkLcd.CursorWraps | UK_lcd.h:152-154 | with N other than 1, columns 65..192 wrap to address `add - 65`: nothing is checked |
| UkLcd.StringTrace | UK_lcd.h:254-268 | the log of a string has three events per character and ends with a ready busy check and a 5 us wait |
| UkLcd.StringTraceStep | UK_lcd.h:257-265 | the unfolding lemma the loop proof uses: the log from character i on is a busy check, the wait and the write of character i, then the log from i + 1 on |
| UkLcd.StringTraceWrites | UK_lcd.h:261-263 | every transfer of a string goes to the data register in write mode with the bus driven: no instruction writes |
| UkLcd.StringTraceData | UK_lcd.h:257-264 | the data written are exactly the characters before the first 0 byte, once each, in index order |
| UkLcd.StringTraceSynchronized | UK_lcd.h:257-267 | every character write of a string has its own ready busy check before it |
| UkLcd.ControlAfterWrite | UK_lcd.h:142-155 | after check, register select and pulse, RS is as selected, RW and En are low, and the other control bits are as before |
| UkLcd.Lcd.Enable | UK_lcd.h:86-92 | En is high iff i is not 0; no other bit of ISPORT changes |
| UkLcd.Lcd.ShortEnable | UK_lcd.h:94-99 | one pulse: exactly one transfer, latched with En high, with the current RS, RW, bus direction and data; En left low |
| UkLcd.Lcd.DataBusRW | UK_lcd.h:129-138 | i = 0 sets DTDDR to 0xFF; otherwise DTDDR and DTPORT become 0x00 |
| UkLcd.Lcd.Instruct | UK_lcd.h:110-127 | RS high iff vRS is not 0, RW high iff vRW is not 0, the other ISPORT bits unchanged, and the bus turned to match RW |
| UkLcd.Lcd.SetAddress | UK_lcd.h:144-154 | the byte left in DTPORT is the set-DDRAM-address instruction for `DdramAddress(add, n)` |
| UkLcd.Lcd.SetFlag | UK_lcd.h:167-174 | bit k of DTPORT is added exactly when the flag is 1 |
| UkLcd.Lcd.CheckBusy | UK_lcd.h:101-108 | the poll runs with RS = 0, RW = 1 and En high, and afterwards En = 0 and the bus is an input; one ready busy check is logged and one ready sample is consumed |
| UkLcd.Lcd.CursorPos | UK_lcd.h:140-156 | one busy check, then one instruction write of `Encode(SetDdramAddress(DdramAddress(add, n)))`; Valid is kept |
| UkLcd.Lcd.FunctionSet | UK_lcd.h:158-176 | En, RW and RS of ISDDR set and the rest unchanged; a 50 ms wait, a busy check, then one instruction write of the function-set byte with DL, N and F counted only when 1 |
| UkLcd.Lcd.CursorMov | UK_lcd.h:178-191 | one busy check, then one instruction write of the cursor/display shift byte |
| UkLcd.Lcd.DispCont | UK_lcd.h:193-209 | one busy check, then one instruction write of the display-control byte |
| UkLcd.Lcd.EntryMode | UK_lcd.h:211-224 | one busy check, then one instruction write of the entry-mode byte |
| UkLcd.Lcd.ReturnHome | UK_lcd.h:226-232 | one busy check, then one instruction write of 0x02 |
| UkLcd.Lcd.ClearScr | UK_lcd.h:234-241 | one busy check, one instruction write of 0x01, then a 50 ms wait |
| UkLcd.Lcd.PrintCh | UK_lcd.h:243-252 | one busy check, one data write of ch, a second busy check and a 5 us wait; the bus is left as an input |
| UkLcd.Lcd.WriteChar | UK_lcd.h:259-263 | one loop pass: busy check, 5 us, data write of the character; afterwards RS high, RW and En low, DTDDR 0xFF, DTPORT the character, the other control bits as before |
| UkLcd.Lcd.WriteChars | UK_lcd.h:256-265 | the loop writes the characters before the first 0 byte, consuming one ready sample each; with no characters the registers are unchanged, otherwise they are as after the data write of the last character |
| UkLcd.Lcd.PrintStr | UK_lcd.h:254-268 | the log gains exactly `StringTrace` of the characters before the first 0 byte; the bus is left as after a busy check; Valid is kept |

## Left out

- Real time. `_delay_us` and `_delay_ms` take no time in the model. The
  waits that stand between two steps are logged as `Delay` markers
  (UK_lcd.h:161, 240, 251, 260, 267). The 50 us inside the Enable pulse
  (UK_lcd.h:97) and the 5 us between polls (UK_lcd.h:106) are not logged.
- UkLcd.Lcd.CheckBusy: the poll at UK_lcd.h:105-106 has no timeout and ends only when the controller reports ready. The model requires a ready sample still to come. Every command that checks requires as many ready samples as it makes checks. This is the model's termination argument, not a demand the C code makes.
- UkLcd.Lcd.CursorPos and the other user-level commands require `Valid()`. `Valid` is a fact about the ghost log that the constructor sets up and every user-level command (`CursorPos`, `FunctionSet`, `CursorMov`, `DispCont`, `EntryMode`, `ReturnHome`, `ClearScr`, `PrintCh`, `PrintStr`) keeps. A caller that uses only the constructor and these commands always meets it. The helpers `Enable`, `ShortEnable`, `CheckBusy`, `Instruct` and `DataBusRW` are public methods, as the C functions are, but the header reserves them for its own use (UK_lcd.h:15-43). They do not promise `Valid()`: a direct `ShortEnable` call can log a transfer with no busy check before it and so break it, for example straight after the constructor.
- UkLcd.Lcd.PrintStr: requires the string to contain a 0 byte. The C code reads past the end of an unterminated array with undefined behaviour.
- Signed overflow of C `int` is undefined behaviour in C. The model wraps at 16 bits, which is what the AVR toolchain does.
- `char` signedness. `printChLCD` and `printStrLCD` store the character's 8 bits into `DTPORT`; the model takes the characters as bytes.
- Electrical behaviour: pin levels, pull-ups, bus contention and the timing of the Enable edge. The `avr/io.h` register addresses behind `ISPORT`, `ISDDR`, `DTPORT`, `DTDDR` and `DTPIN` are also out; only the bit positions are kept.
- The controller's own state (DDRAM contents, cursor address, mode flags). The driver never tracks it. The model stops at the bytes on the bus. `Hd44780.Decode` says how the controller reads them.
- The include guard that closes at UK_lcd.h:68, before the function definitions.
