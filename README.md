# LCD_1602A in Dafny

A model of `LCD_1602A.py`, a MicroPython driver for the 1602A character LCD.
The display is built on the Hitachi HD44780 controller and is driven over an
8-bit parallel bus. The model has three modules.

- `Bits` (bits.dfy) gives Python's unbounded integers their own `>>`, `|` and
  `&`: `Shr`, `PyOr` and `PyAnd`, in two's complement, negative values
  included. It also holds the eight data lines D0..D7 as a `seq<bool>` and
  proves that the lines and the byte they carry determine each other.
- `Commands` (commands.dfy) holds the flag constants with their source names,
  and the pure command composition `FAMILY | command` and
  `SELECTOR | (address & mask)`. `Decode` is the controller's side of the
  instruction table in the HD44780U datasheet: the highest set bit selects the
  instruction, and the bits below it are its parameters. Composition is proved
  against it: every documented flag combination and every in-range address
  round-trips.
- `Driver` (driver.dfy) holds the class `Lcd`, with the RS and E levels and an
  `array<bool>` of the eight data lines. Its methods follow the source one for
  one. Two ghost histories record what happens on the bus:
  - `steps` is every pin write in order, with the enable delay as a `Hold` step.
  - `trace` is one `Pulse(rs, byte)` per falling edge of E, which is what the
    controller latches.

  Every public method states exactly what it appends to both histories and
  the line levels it leaves behind. The lemmas about `Transaction` and
  `TextSteps` show that RS and the data lines are always set before E rises,
  and that nothing is written while E is high.

In these cases the model follows the code as written:
- `read_flag` and `read_data` are `pass`. They change nothing and return Python's `None`, modelled as `Option.None`; they do not report "unsupported".
- `write_data` and `string` ignore values of any other type, as the code does. They are not restricted to a byte-or-character input type.
- `write_data` with a `str` whose length is not one reaches `ord`, which raises `TypeError`. It is modelled as the outcome `TypeError`, with nothing sent.
- The family operations (`entermode`, `display`, `shift`, `function`) do not validate or mask their options. `Commands.OptionsNotMasked` shows an out-of-family value turning an entry-mode command into a display-control command.

## Model

| member | source | states |
|---|---|---|
| Bits.OrBit | LCD_1602A.py:117 | bit i of Python's bitwise OR of a and b is set exactly when bit i is set in a or in b, for every pair of integers |
| Bits.AndBit | LCD_1602A.py:149 | bit i of `a & b` is set exactly when it is set in both |
| Bits.AndLowMask | LCD_1602A.py:149 | `a & (2^k - 1)` is `a mod 2^k` for every integer a, negative ones included, so the address masks keep the low 6 or 7 bits |
| Bits.OrDisjoint | LCD_1602A.py:99-101 | Python's OR of hi and lo is `hi + lo` when the low k bits of hi are clear and lo is below 2^k, which covers flags ORed from the highest down |
| Bits.AndDisjoint | LCD_1602A.py:6-38 | a one-bit selector shares no bit with any value below it |
| Bits.SelectorAdds | LCD_1602A.py:117 | a selector 2^k ORed with an option below 2^k is their sum |
| Bits.SetBit | LCD_1602A.py:117 | ORing 2^k into c sets bit k and leaves every other bit of c as it was |
| Bits.OrModulo | LCD_1602A.py:64-70 | the low k bits of the OR of a and b depend only on the low k bits of a and b |
| Bits.AndOne | LCD_1602A.py:67 | `x & 1` is the parity of x, the test `_DATA_PIN_SET` makes for each line |
| Bits.ValueOfLevels | LCD_1602A.py:64-70 | the levels driven from v carry the number v mod 2^k |
| Bits.LevelsOfValue | LCD_1602A.py:64-70 | driving the lines from the number they carry reproduces them |
| Bits.BusRoundTrip | LCD_1602A.py:64-70 | the bus carries v mod 256, and its levels are exactly those of that byte |
| Bits.SameBusLevels | LCD_1602A.py:64-70 | two integers drive the same levels exactly when they agree modulo 256 |
| Commands.EntryModeCommand | LCD_1602A.py:111-117 | ENTER ORed with the command has bit 2 set and the command's other bits, for any integer; for a 2-bit option it is `0x04 + command` and decodes to entry-mode set with increment = bit 1 and shift = bit 0 |
| Commands.DisplayCommand | LCD_1602A.py:119-125 | DISPLAY ORed with the command has bit 3 set and the command's other bits; for a 3-bit option it is `0x08 + command` and decodes to display control with on, cursor and blink from bits 2, 1 and 0 |
| Commands.ShiftCommand | LCD_1602A.py:127-133 | SHIFT ORed with the command has bit 4 set and the command's other bits; for a 4-bit option it is `0x10 + command` and decodes to a cursor/display shift with display from bit 3 and direction from bit 2 |
| Commands.FunctionCommand | LCD_1602A.py:135-141 | FUNCTION ORed with the command has bit 5 set and the command's other bits; for a 5-bit option it is `0x20 + command` and decodes to function set with bus width, line count and font from bits 4, 3 and 2 |
| Commands.CgramAddressCommand | LCD_1602A.py:143-150 | the CGRAM command is `0x40 + address mod 64` for every integer address and decodes to "set CGRAM address" with that 6-bit address |
| Commands.DdramAddressCommand | LCD_1602A.py:152-159 | the DDRAM command is `0x80 + address mod 128` and decodes to "set DDRAM address" with that 7-bit address |
| Commands.CgramAliasing | LCD_1602A.py:149-150 | two CGRAM addresses give the same command exactly when they agree modulo 64; 0 and 64 both give 0x40 |
| Commands.DdramAliasing | LCD_1602A.py:152-159 | two DDRAM addresses give the same command exactly when they agree modulo 128; 0 and 128 both give 0x80; the line starts 0x00 and 0x40 give 0x80 and 0xC0, and both lines lie within 7 bits |
| Commands.OptionsBeyondByteIgnored | LCD_1602A.py:111-141 | the byte of a family command depends only on the option's low byte |
| Commands.SelectorsDisjointFromOptions | LCD_1602A.py:6-38 | in every family the selector ANDed with any option value built from the family's flags is 0, and so is the CGRAM or DDRAM selector ANDed with any masked address |
| Commands.OptionsNotMasked | LCD_1602A.py:111-117 | `entermode(DISPLAY)` sends 0x0C, which the controller reads as display control |
| Commands.EntryOptions | LCD_1602A.py:9-13 | ORing one entry-mode flag per choice gives a 2-bit value whose bits are the choices |
| Commands.DisplayOptions | LCD_1602A.py:15-21 | the three display-control flags ORed give a 3-bit value whose bits are the choices |
| Commands.ShiftOptions | LCD_1602A.py:23-27 | the two shift flags ORed give bits 3 and 2 of a 4-bit value |
| Commands.FunctionOptions | LCD_1602A.py:29-35 | the three function-set flags ORed give bits 4, 3 and 2 of a 5-bit value |
| Commands.DecodeEncode | LCD_1602A.py:103-159 | every instruction with an in-range address, composed from its flags as the driver does, is a byte the controller decodes back to that instruction |
| Commands.EncodeInjective | LCD_1602A.py:103-159 | distinct in-range instructions give distinct command bytes |
| Commands.InitCommands | LCD_1602A.py:96-101 | the default initialisation sends 0x01, 0x38, 0x0F, 0x06: clear; 8-bit bus, two lines, 5x8 font; display, cursor and blink on; increment without shift |
| Driver.BusSteps | LCD_1602A.py:64-70 | the eight writes, D0 to D7 in order, leave the lines carrying v mod 256, and v and v mod 256 give the same writes |
| Driver.BusStepsModulo | LCD_1602A.py:64-70 | v and v mod 256 give the same eight bus writes |
| Driver.CharPulse | LCD_1602A.py:188-198 | a character's pulse has RS high and the byte the data lines carry once driven from `ord(c)` |
| Driver.TextPulses | LCD_1602A.py:188-198 | one data pulse per character, in order, with RS high and the byte the data lines carry once driven from `ord(c)` |
| Driver.TransactionShape | LCD_1602A.py:72-94 | a write cycle is 12 writes: RS first, then D0..D7 from the value, then E high, the hold and E low; nothing is written while E is high |
| Driver.StableAppend | LCD_1602A.py:72-94 | write cycles run back to back keep "nothing is written while E is high" |
| Driver.TextStepsShape | LCD_1602A.py:188-198 | writing a string is 12 writes per character and keeps E stable throughout |
| Driver.TextRoundTrip | LCD_1602A.py:188-198 | every pulse of a string has RS high; a pulse carries the character's code exactly when the code is below 256; a string of such characters arrives as itself |
| Driver.Lcd.constructor | LCD_1602A.py:50-62 | the pins are kept as RS, E and D0..D7 in order; both histories start empty |
| Driver.Lcd.SetRs | LCD_1602A.py:78 | RS takes the level and the write is logged |
| Driver.Lcd.SetDataLine | LCD_1602A.py:67-70 | one data line takes the level; the others keep theirs |
| Driver.Lcd.SetEnable | LCD_1602A.py:80-82 | E takes the level; a falling edge latches RS and the byte on D0..D7 into the trace |
| Driver.Lcd.Wait | LCD_1602A.py:81 | the enable delay is a logged hold step |
| Driver.Lcd.SetDataBus | LCD_1602A.py:64-70 | afterwards line i is high exactly when bit i of the value is set; the writes are D0..D7 in order; RS, E and the trace are untouched |
| Driver.Lcd.Send | LCD_1602A.py:72-94 | one write cycle: exactly one pulse (RS level, value mod 256) is latched, the log grows by the cycle, E ends low |
| Driver.Lcd.SendCommand | LCD_1602A.py:72-82 | one write cycle with RS low |
| Driver.Lcd.SendData | LCD_1602A.py:84-94 | one write cycle with RS high |
| Driver.Lcd.Clear | LCD_1602A.py:103-105 | one instruction pulse 0x01 |
| Driver.Lcd.Home | LCD_1602A.py:107-109 | one instruction pulse 0x02 |
| Driver.Lcd.EnterMode | LCD_1602A.py:111-117 | one instruction pulse carrying ENTER ORed with the command |
| Driver.Lcd.Display | LCD_1602A.py:119-125 | one instruction pulse carrying DISPLAY ORed with the command |
| Driver.Lcd.Shift | LCD_1602A.py:127-133 | one instruction pulse carrying SHIFT ORed with the command |
| Driver.Lcd.Function | LCD_1602A.py:135-141 | one instruction pulse carrying FUNCTION ORed with the command |
| Driver.Lcd.SetCgramAddr | LCD_1602A.py:143-150 | one instruction pulse carrying CGRAM ORed with `address & 0x3F` |
| Driver.Lcd.SetDdramAddr | LCD_1602A.py:152-159 | one instruction pulse carrying DDRAM ORed with `address & 0x7F` |
| Driver.Lcd.ReadFlag | LCD_1602A.py:161-167 | nothing changes and the result is None |
| Driver.Lcd.ReadData | LCD_1602A.py:182-186 | nothing changes and the result is None |
| Driver.Lcd.Init | LCD_1602A.py:96-101 | exactly four instruction pulses 0x01, 0x38, 0x0F, 0x06 in that order, i.e. four write cycles |
| Driver.Lcd.WriteData | LCD_1602A.py:169-180 | an int is sent as it is, a one-character str as its code, each in one data cycle; a str of another length is a TypeError and other values are ignored, with nothing sent in either case |
| Driver.Lcd.String | LCD_1602A.py:188-198 | a str adds one data pulse per character with its code's low byte, in order, and no instruction, and leaves RS high with the last character on the bus; the empty str and any other value change nothing |
| Driver.HelloScenario | LCD_1602A.py:201-208 | with the usage text's pins (RS 0, E 1, D0..D7 on 2..9), init followed by "Hello World" latches the four init instructions 0x01, 0x38, 0x0F, 0x06, then one RS-high pulse per character of "Hello World" |

## Left out

- `machine.Pin` construction, `on()` and `off()` are hardware calls. Each is modelled as a write to a boolean field, logged as a `Step`. The pin identifiers are kept as integers, and claiming a pin cannot fail in the model.
- `utime.sleep(ENABLE_DELAY)` and the 5 ms float constant are real time. The sleep is the abstract `Hold` step between E high and E low.
- The levels of the pins right after construction are unknown in the model, as on the hardware.
- The ten pin numbers are taken to be ten distinct lines. The constructor does not check this, as the code does not. With a repeated number, two `Pin` objects drive one physical line, and `trace` no longer says what the controller latches.
- `isinstance` dispatch is modelled by the `PyValue` variant `PyInt`, `PyStr`, `PyOther`. A Python `bool` is an `int` and is passed as `PyInt(0)` or `PyInt(1)`. A `str` is a Dafny `string`, whose characters are Unicode scalar values, so a lone surrogate code point is not representable.
- `main()` prints usage text; console output is not modelled.
- `LCD_Test.py` and `LCD_Test_pattern.py` are demo scripts with endless loops and sleeps. They are not part of this model.
- The controller's own behaviour after it latches a pulse (cursor movement, display RAM contents) is outside the driver and is not modelled. `Commands.Decode` covers only how an instruction byte is read.
- Concurrent use of one driver object is not modelled; every method runs to completion on its own.
