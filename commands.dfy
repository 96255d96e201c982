/**
 * The HD44780 instruction bytes the driver composes: one selector bit per
 * command family, ORed with that family's option flags, or with an address
 * masked to the width of the controller's address register. Every value here
 * is a Python integer, combined with Python's own `|` and `&`.
 *
 * `Decode` is the controller's side of the instruction table in the Hitachi
 * HD44780U datasheet: an instruction is identified by its highest set bit and
 * the bits below it are its parameters. It is the reference against which the
 * composition is proved.
 */
module Commands {
  import opened Bits

  const CLEAR                    := 0x01
  const HOME                     := 0x02

  const ENTER                    := 0x04
  const ENTER_INC                := 0x02
  const ENTER_DEC                := 0x00
  const ENTER_SHIFT              := 0x01
  const ENTER_NOT_SHIFT          := 0x00

  const DISPLAY                  := 0x08
  const DISPLAY_ON               := 0x04
  const DISPLAY_OFF              := 0x00
  const DISPLAY_CURSOR_ON        := 0x02
  const DISPLAY_CURSOR_OFF       := 0x00
  const DISPLAY_CURSOR_BLINK     := 0x01
  const DISPLAY_CURSOR_NOT_BLINK := 0x00

  const SHIFT                    := 0x10
  const SHIFT_DISPLAY            := 0x08
  const SHIFT_CURSOR             := 0x00
  const SHIFT_RIGHT              := 0x04
  const SHIFT_LEFT               := 0x00

  const FUNCTION                 := 0x20
  const FUNC_8_BIT               := 0x10
  const FUNC_4_BIT               := 0x00
  const FUNC_2_LINE              := 0x08
  const FUNC_1_LINE              := 0x00
  const FUNC_5X10                := 0x04
  const FUNC_5X8                 := 0x00

  const CGRAM                    := 0x40
  const DDRAM                    := 0x80

  /** DDRAM addresses of the first and last cell of each display line. */
  const DDRAM_1_LINE_START       := 0x00
  const DDRAM_1_LINE_END         := 0x27
  const DDRAM_2_LINE_START       := 0x40
  const DDRAM_2_LINE_END         := 0x67

  datatype Option<T> = None | Some(value: T)

  /** An instruction as the controller understands it. */
  datatype Instruction =
    | ClearDisplay
    | ReturnHome
    | EntryModeSet(increment: bool, shift: bool)
    | DisplayControl(displayOn: bool, cursorOn: bool, blink: bool)
    | CursorDisplayShift(display: bool, right: bool)
    | FunctionSet(eightBit: bool, twoLines: bool, font5x10: bool)
    | SetCgramAddress(address: nat)
    | SetDdramAddress(address: nat)

  /** Addresses fit the controller's registers: 6 bits of CGRAM, 7 of DDRAM. */
  predicate InRange(ins: Instruction)
  {
    match ins
    case SetCgramAddress(a) => a < 64
    case SetDdramAddress(a) => a < 128
    case _ => true
  }

  /** How the controller reads an instruction byte; 0x00 is no instruction. */
  function Decode(b: Byte): Option<Instruction>
  {
    if b >= 0x80 then Some(SetDdramAddress(b - 0x80))
    else if b >= 0x40 then Some(SetCgramAddress(b - 0x40))
    else if b >= 0x20 then Some(FunctionSet(PyBit(b, 4), PyBit(b, 3), PyBit(b, 2)))
    else if b >= 0x10 then Some(CursorDisplayShift(PyBit(b, 3), PyBit(b, 2)))
    else if b >= 0x08 then Some(DisplayControl(PyBit(b, 2), PyBit(b, 1), PyBit(b, 0)))
    else if b >= 0x04 then Some(EntryModeSet(PyBit(b, 1), PyBit(b, 0)))
    else if b >= 0x02 then Some(ReturnHome)
    else if b >= 0x01 then Some(ClearDisplay)
    else None
  }

  lemma Pow2Values()
    ensures Pow2(0) == 1 && Pow2(1) == 2 && Pow2(2) == 4 && Pow2(3) == 8 && Pow2(4) == 16
    ensures Pow2(5) == 32 && Pow2(6) == 64 && Pow2(7) == 128 && Pow2(8) == 256
  {
  }

  /** `ENTER | command`. For every integer the selector bit 2 is set and every
      other bit is the command's; for a command made of the family's flags the
      OR is an addition and the controller reads back increment from bit 1 and
      shift from bit 0. */
  function EntryModeCommand(command: int): (r: int)
    ensures forall i: nat :: PyBit(r, i) <==> i == 2 || PyBit(command, i)
    ensures 0 <= command < 4 ==>
      r == ENTER + command && Decode(r) == Some(EntryModeSet(PyBit(command, 1), PyBit(command, 0)))
  {
    Pow2Values();
    SetBit(2, command);
    SelectorAdds(2, command);
    PyOr(ENTER, command)
  }

  /** `DISPLAY | command`: display on (bit 2), cursor on (bit 1), blink (bit 0). */
  function DisplayCommand(command: int): (r: int)
    ensures forall i: nat :: PyBit(r, i) <==> i == 3 || PyBit(command, i)
    ensures 0 <= command < 8 ==>
      r == DISPLAY + command &&
      Decode(r) == Some(DisplayControl(PyBit(command, 2), PyBit(command, 1), PyBit(command, 0)))
  {
    Pow2Values();
    SetBit(3, command);
    SelectorAdds(3, command);
    PyOr(DISPLAY, command)
  }

  /** `SHIFT | command`: display rather than cursor (bit 3), to the right (bit 2). */
  function ShiftCommand(command: int): (r: int)
    ensures forall i: nat :: PyBit(r, i) <==> i == 4 || PyBit(command, i)
    ensures 0 <= command < 16 ==>
      r == SHIFT + command && Decode(r) == Some(CursorDisplayShift(PyBit(command, 3), PyBit(command, 2)))
  {
    Pow2Values();
    SetBit(4, command);
    SelectorAdds(4, command);
    PyOr(SHIFT, command)
  }

  /** `FUNCTION | command`: 8-bit bus (bit 4), two lines (bit 3), 5x10 font (bit 2). */
  function FunctionCommand(command: int): (r: int)
    ensures forall i: nat :: PyBit(r, i) <==> i == 5 || PyBit(command, i)
    ensures 0 <= command < 32 ==>
      r == FUNCTION + command &&
      Decode(r) == Some(FunctionSet(PyBit(command, 4), PyBit(command, 3), PyBit(command, 2)))
  {
    Pow2Values();
    SetBit(5, command);
    SelectorAdds(5, command);
    PyOr(FUNCTION, command)
  }

  /** `CGRAM | (address & 0x3F)`. The mask keeps the low six bits, which for a
      Python integer (negative ones too) is the address modulo 64. */
  function CgramAddressCommand(address: int): (r: int)
    ensures r == CGRAM + address % 64
    ensures Decode(r) == Some(SetCgramAddress(address % 64))
  {
    Pow2Values();
    AndLowMask(address, 6);
    OrDisjoint(CGRAM, address % 64, 6);
    PyOr(CGRAM, PyAnd(address, 0x3F))
  }

  /** `DDRAM | (address & 0x7F)`: the address modulo 128. */
  function DdramAddressCommand(address: int): (r: int)
    ensures r == DDRAM + address % 128
    ensures Decode(r) == Some(SetDdramAddress(address % 128))
  {
    Pow2Values();
    AndLowMask(address, 7);
    OrDisjoint(DDRAM, address % 128, 7);
    PyOr(DDRAM, PyAnd(address, 0x7F))
  }

  /** CGRAM addresses alias exactly when they agree modulo 64; in particular
      0 and 64 both give 0x40. */
  lemma CgramAliasing(a: int, b: int)
    ensures CgramAddressCommand(a) == CgramAddressCommand(b) <==> a % 64 == b % 64
    ensures CgramAddressCommand(0) == CgramAddressCommand(64) == 0x40
  {
  }

  /** DDRAM addresses alias exactly when they agree modulo 128; in particular
      0 and 128 both give 0x80. Both display lines lie inside the 7-bit range,
      so their start addresses give 0x80 and 0xC0. */
  lemma DdramAliasing(a: int, b: int)
    ensures DdramAddressCommand(a) == DdramAddressCommand(b) <==> a % 128 == b % 128
    ensures DdramAddressCommand(0) == DdramAddressCommand(128) == 0x80
    ensures DdramAddressCommand(DDRAM_1_LINE_START) == 0x80
    ensures DdramAddressCommand(DDRAM_2_LINE_START) == 0xC0
    ensures DDRAM_1_LINE_END < DDRAM_2_LINE_START && DDRAM_2_LINE_END < 128
  {
  }

  /** Bits of a command above the byte never reach the controller: the bus
      carries `FAMILY | (command mod 256)` whatever integer the caller passes. */
  lemma OptionsBeyondByteIgnored(command: int)
    ensures EntryModeCommand(command) % 256 == EntryModeCommand(command % 256)
    ensures DisplayCommand(command) % 256 == DisplayCommand(command % 256)
    ensures ShiftCommand(command) % 256 == ShiftCommand(command % 256)
    ensures FunctionCommand(command) % 256 == FunctionCommand(command % 256)
  {
    var c := command % 256;
    assert EntryModeCommand(command) % 256 == EntryModeCommand(c) by {
      OrModuloByte(ENTER, command);
    }
    assert DisplayCommand(command) % 256 == DisplayCommand(c) by {
      OrModuloByte(DISPLAY, command);
    }
    assert ShiftCommand(command) % 256 == ShiftCommand(c) by {
      OrModuloByte(SHIFT, command);
    }
    assert FunctionCommand(command) % 256 == FunctionCommand(c) by {
      OrModuloByte(FUNCTION, command);
    }
  }

  /** Within each family the selector bit shares no bit with any option value
      built from that family's flags, nor the CGRAM and DDRAM selectors with
      any masked address: `FAMILY & options == 0`, so the OR keeps both. */
  lemma SelectorsDisjointFromOptions()
    ensures forall inc, sh :: PyAnd(ENTER, EntryOptions(inc, sh)) == 0
    ensures forall on, cur, bl :: PyAnd(DISPLAY, DisplayOptions(on, cur, bl)) == 0
    ensures forall d, r :: PyAnd(SHIFT, ShiftOptions(d, r)) == 0
    ensures forall e, t, f :: PyAnd(FUNCTION, FunctionOptions(e, t, f)) == 0
    ensures forall a: int :: PyAnd(CGRAM, PyAnd(a, 0x3F)) == 0
    ensures forall a: int :: PyAnd(DDRAM, PyAnd(a, 0x7F)) == 0
  {
    Pow2Values();
    forall inc, sh
      ensures PyAnd(ENTER, EntryOptions(inc, sh)) == 0
    {
      AndDisjoint(2, EntryOptions(inc, sh));
    }
    forall on, cur, bl
      ensures PyAnd(DISPLAY, DisplayOptions(on, cur, bl)) == 0
    {
      AndDisjoint(3, DisplayOptions(on, cur, bl));
    }
    forall d, r
      ensures PyAnd(SHIFT, ShiftOptions(d, r)) == 0
    {
      AndDisjoint(4, ShiftOptions(d, r));
    }
    forall e, t, f
      ensures PyAnd(FUNCTION, FunctionOptions(e, t, f)) == 0
    {
      AndDisjoint(5, FunctionOptions(e, t, f));
    }
    forall a: int
      ensures PyAnd(CGRAM, PyAnd(a, 0x3F)) == 0
    {
      AndLowMask(a, 6);
      AndDisjoint(6, a % 64);
    }
    forall a: int
      ensures PyAnd(DDRAM, PyAnd(a, 0x7F)) == 0
    {
      AndLowMask(a, 7);
      AndDisjoint(7, a % 128);
    }
  }

  /** The family functions do not mask their options: a value outside the
      family's field reaches the bus unchanged and may make a different
      instruction, such as `entermode(DISPLAY)` becoming a display control. */
  lemma OptionsNotMasked()
    ensures EntryModeCommand(DISPLAY) == 0x0C
    ensures Decode(EntryModeCommand(DISPLAY)) == Some(DisplayControl(true, false, false))
  {
  }

  /** A flag of weight 2^k when set, the family's 0 alternative when not. */
  function Flag(on: bool, k: nat): int
  {
    if on then Pow2(k) else 0
  }

  lemma FlagFacts(on: bool, k: nat)
    ensures 0 <= Flag(on, k) < Pow2(k + 1) && Flag(on, k) % Pow2(k) == 0
    ensures forall i: nat :: PyBit(Flag(on, k), i) <==> on && i == k
  {
    forall i: nat
      ensures PyBit(Flag(on, k), i) <==> on && i == k
    {
      PowBit(k, i);
      ShrZero(i);
    }
  }

  /** The option value a caller builds by ORing one flag per choice of the
      entry-mode family: it is a 2-bit value whose bits are the choices. */
  function EntryOptions(increment: bool, shift: bool): (o: int)
    ensures 0 <= o < 4 && PyBit(o, 1) == increment && PyBit(o, 0) == shift
  {
    Pow2Values();
    FlagFacts(increment, 1);
    FlagFacts(shift, 0);
    OrDisjoint(Flag(increment, 1), Flag(shift, 0), 1);
    OrBit(Flag(increment, 1), Flag(shift, 0), 1);
    OrBit(Flag(increment, 1), Flag(shift, 0), 0);
    PyOr(if increment then ENTER_INC else ENTER_DEC, if shift then ENTER_SHIFT else ENTER_NOT_SHIFT)
  }

  /** Display on, cursor on and blink, ORed: a 3-bit value. */
  function DisplayOptions(on: bool, cursor: bool, blink: bool): (o: int)
    ensures 0 <= o < 8 && PyBit(o, 2) == on && PyBit(o, 1) == cursor && PyBit(o, 0) == blink
  {
    Pow2Values();
    var a, b, c := Flag(on, 2), Flag(cursor, 1), Flag(blink, 0);
    FlagFacts(on, 2);
    FlagFacts(cursor, 1);
    FlagFacts(blink, 0);
    OrDisjoint(a, b, 2);
    OrDisjoint(a + b, c, 1);
    OrBit(a, b, 2);
    OrBit(a, b, 1);
    OrBit(a, b, 0);
    OrBit(a + b, c, 2);
    OrBit(a + b, c, 1);
    OrBit(a + b, c, 0);
    PyOr(PyOr(if on then DISPLAY_ON else DISPLAY_OFF,
              if cursor then DISPLAY_CURSOR_ON else DISPLAY_CURSOR_OFF),
         if blink then DISPLAY_CURSOR_BLINK else DISPLAY_CURSOR_NOT_BLINK)
  }

  /** Display-or-cursor and direction, ORed: bits 3 and 2 of a 4-bit value. */
  function ShiftOptions(display: bool, right: bool): (o: int)
    ensures 0 <= o < 16 && PyBit(o, 3) == display && PyBit(o, 2) == right
  {
    Pow2Values();
    FlagFacts(display, 3);
    FlagFacts(right, 2);
    OrDisjoint(Flag(display, 3), Flag(right, 2), 3);
    OrBit(Flag(display, 3), Flag(right, 2), 3);
    OrBit(Flag(display, 3), Flag(right, 2), 2);
    PyOr(if display then SHIFT_DISPLAY else SHIFT_CURSOR, if right then SHIFT_RIGHT else SHIFT_LEFT)
  }

  /** Bus width, line count and font, ORed: bits 4, 3 and 2 of a 5-bit value. */
  function FunctionOptions(eightBit: bool, twoLines: bool, font5x10: bool): (o: int)
    ensures 0 <= o < 32 && PyBit(o, 4) == eightBit && PyBit(o, 3) == twoLines && PyBit(o, 2) == font5x10
  {
    Pow2Values();
    var a, b, c := Flag(eightBit, 4), Flag(twoLines, 3), Flag(font5x10, 2);
    FlagFacts(eightBit, 4);
    FlagFacts(twoLines, 3);
    FlagFacts(font5x10, 2);
    OrDisjoint(a, b, 4);
    OrDisjoint(a + b, c, 3);
    OrBit(a, b, 4);
    OrBit(a, b, 3);
    OrBit(a, b, 2);
    OrBit(a + b, c, 4);
    OrBit(a + b, c, 3);
    OrBit(a + b, c, 2);
    PyOr(PyOr(if eightBit then FUNC_8_BIT else FUNC_4_BIT,
              if twoLines then FUNC_2_LINE else FUNC_1_LINE),
         if font5x10 then FUNC_5X10 else FUNC_5X8)
  }

  /** The command the driver sends for an instruction, built from its flags. */
  function Encode(ins: Instruction): int
  {
    match ins
    case ClearDisplay => CLEAR
    case ReturnHome => HOME
    case EntryModeSet(inc, sh) => EntryModeCommand(EntryOptions(inc, sh))
    case DisplayControl(on, cur, bl) => DisplayCommand(DisplayOptions(on, cur, bl))
    case CursorDisplayShift(d, r) => ShiftCommand(ShiftOptions(d, r))
    case FunctionSet(e, t, f) => FunctionCommand(FunctionOptions(e, t, f))
    case SetCgramAddress(a) => CgramAddressCommand(a)
    case SetDdramAddress(a) => DdramAddressCommand(a)
  }

  /** Every in-range instruction, composed from its documented flags, is a byte
      the controller reads back as that same instruction. */
  lemma DecodeEncode(ins: Instruction)
    requires InRange(ins)
    ensures 0 <= Encode(ins) < 256 && Decode(Encode(ins)) == Some(ins)
  {
    match ins
    case EntryModeSet(inc, sh) =>
      var o := EntryOptions(inc, sh);
      assert Encode(ins) == EntryModeCommand(o);
    case DisplayControl(on, cur, bl) =>
      var o := DisplayOptions(on, cur, bl);
      assert Encode(ins) == DisplayCommand(o);
    case CursorDisplayShift(d, r) =>
      var o := ShiftOptions(d, r);
      assert Encode(ins) == ShiftCommand(o);
    case FunctionSet(e, t, f) =>
      var o := FunctionOptions(e, t, f);
      assert Encode(ins) == FunctionCommand(o);
    case SetCgramAddress(a) =>
      assert a % 64 == a;
    case SetDdramAddress(a) =>
      assert a % 128 == a;
    case _ =>
  }

  /** Encoding loses nothing: distinct in-range instructions give distinct commands. */
  lemma EncodeInjective(a: Instruction, b: Instruction)
    requires InRange(a) && InRange(b)
    ensures Encode(a) == Encode(b) <==> a == b
  {
    DecodeEncode(a);
    DecodeEncode(b);
  }

  /** The four commands of the driver's default initialisation, in order:
      clear, 8-bit bus with two lines and the 5x8 font, display and cursor on
      with blinking, increment without shift. */
  function InitCommands(): (cs: seq<int>)
    ensures cs == [0x01, 0x38, 0x0F, 0x06]
    ensures Decode(cs[0]) == Some(ClearDisplay)
    ensures Decode(cs[1]) == Some(FunctionSet(true, true, false))
    ensures Decode(cs[2]) == Some(DisplayControl(true, true, true))
    ensures Decode(cs[3]) == Some(EntryModeSet(true, false))
  {
    Pow2Values();
    OrDisjoint(FUNC_8_BIT, FUNC_2_LINE, 4);
    OrZero(FUNC_8_BIT + FUNC_2_LINE);
    OrDisjoint(DISPLAY_ON, DISPLAY_CURSOR_ON, 2);
    OrDisjoint(DISPLAY_ON + DISPLAY_CURSOR_ON, DISPLAY_CURSOR_BLINK, 1);
    OrZero(ENTER_INC);
    [CLEAR,
     FunctionCommand(PyOr(PyOr(FUNC_8_BIT, FUNC_2_LINE), FUNC_5X8)),
     DisplayCommand(PyOr(PyOr(DISPLAY_ON, DISPLAY_CURSOR_ON), DISPLAY_CURSOR_BLINK)),
     EntryModeCommand(PyOr(ENTER_INC, ENTER_NOT_SHIFT))]
  }
}
