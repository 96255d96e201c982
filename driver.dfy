/**
 * The LCD_1602A driver object: a register-select line RS, an enable line E and
 * eight data lines D0..D7, all outputs, driven in the HD44780 write cycle.
 *
 * Every pin write is recorded, in order, in the ghost log `steps`; the ghost
 * `trace` holds what the controller latches, one `Pulse` per falling edge of
 * E, made of the RS level and the number on D0..D7 at that moment (the ten
 * pin numbers being ten distinct lines).
 */
module Driver {
  import opened Bits
  import opened Commands

  /** One transfer as the controller latches it: RS low for an instruction,
      RS high for a character code, and the byte on the data lines. */
  datatype Pulse = Pulse(rs: bool, bus: Byte)

  /** One write to the hardware, or the enable hold time between two. */
  datatype Step =
    | RsLine(high: bool)
    | DataLine(index: nat, high: bool)
    | EnableLine(high: bool)
    | Hold

  /** The Python values the driver distinguishes with isinstance. A bool is
      an int in Python and is passed as PyInt(0) or PyInt(1). */
  datatype PyValue = PyInt(n: int) | PyStr(s: string) | PyOther

  /** How write_data ends: normally, or with the TypeError `ord` raises when a
      str is not exactly one character long. */
  datatype Outcome = Completed | TypeError

  /** The writes _DATA_PIN_SET makes: D0 first, line i high when bit i of v is set. */
  function BusSteps(v: int): (s: seq<Step>)
    ensures |s| == 8
    ensures forall i :: 0 <= i < 8 ==> s[i] == DataLine(i, BusLevels(v)[i])
    ensures ValueOf(seq(8, i requires 0 <= i < 8 => s[i].high)) == v % 256
  {
    BusRoundTrip(v);
    var s := seq(8, i requires 0 <= i < 8 => DataLine(i, PyBit(v, i)));
    assert seq(8, i requires 0 <= i < 8 => s[i].high) == BusLevels(v);
    s
  }

  /** Only the low byte of the value decides the bus writes. */
  lemma BusStepsModulo(v: int)
    ensures BusSteps(v) == BusSteps(v % 256)
  {
    BusRoundTrip(v);
  }

  /** One write cycle: RS, then the data lines, then E high, the enable delay
      and E low. */
  function Transaction(rs: bool, v: int): seq<Step>
  {
    [RsLine(rs)] + BusSteps(v) + [EnableLine(true), Hold, EnableLine(false)]
  }

  /** The write cycles of a sequence of character codes, one per character. */
  function TextSteps(s: string): seq<Step>
  {
    if |s| == 0 then [] else TextSteps(s[..|s| - 1]) + Transaction(true, s[|s| - 1] as int)
  }

  /** The pulse a character code makes: `ord(c)` goes out whole, so only its
      low eight bits reach the controller. */
  function CharPulse(c: char): (p: Pulse)
    ensures p == Pulse(true, OnBus(BusLevels(c as int)))
  {
    BusRoundTrip(c as int);
    Pulse(true, (c as int) % 256)
  }

  /** The pulses of a string: for each character, in order, RS high and the
      byte the data lines carry once driven from `ord(c)`. */
  function TextPulses(s: string): (ps: seq<Pulse>)
    ensures |ps| == |s|
    ensures forall k :: 0 <= k < |s| ==> ps[k] == Pulse(true, OnBus(BusLevels(s[k] as int)))
  {
    seq(|s|, k requires 0 <= k < |s| => CharPulse(s[k]))
  }

  /** The byte eight data lines stand for: a checked conversion, since the
      number eight lines carry always fits a Byte. */
  function OnBus(lines: seq<bool>): (b: Byte)
    requires |lines| == 8
    ensures b == ValueOf(lines)
  {
    ValueOfBound(lines);
    assert Pow2(8) == 256 by {
      assert Pow2(4) == 16;
    }
    ValueOf(lines)
  }

  lemma AppendTransaction(log: seq<Step>, rs: bool, v: int)
    ensures log + [RsLine(rs)] + BusSteps(v) + [EnableLine(true), Hold, EnableLine(false)]
         == log + Transaction(rs, v)
  {
  }

  lemma AppendText(log: seq<Step>, s: string, k: nat)
    requires k < |s|
    ensures log + TextSteps(s[..k]) + Transaction(true, s[k] as int) == log + TextSteps(s[..k + 1])
  {
    assert s[..k + 1][..k] == s[..k];
  }

  lemma AppendFour<T>(log: seq<T>, a: T, b: T, c: T, d: T)
    ensures log + [a] + [b] + [c] + [d] == log + [a, b, c, d]
  {
  }

  /** While E is high nothing else is written: each rising edge of E is
      followed by the hold time and then the falling edge. */
  ghost predicate StableWhileEnabled(steps: seq<Step>)
  {
    forall j :: 0 <= j < |steps| && steps[j] == EnableLine(true) ==>
      j + 2 < |steps| && steps[j + 1] == Hold && steps[j + 2] == EnableLine(false)
  }

  lemma StableAppend(a: seq<Step>, b: seq<Step>)
    requires StableWhileEnabled(a) && StableWhileEnabled(b)
    ensures StableWhileEnabled(a + b)
  {
    forall j | 0 <= j < |a + b| && (a + b)[j] == EnableLine(true)
      ensures j + 2 < |a + b| && (a + b)[j + 1] == Hold && (a + b)[j + 2] == EnableLine(false)
    {
      if j < |a| {
        assert a[j] == EnableLine(true);
      } else {
        assert b[j - |a|] == EnableLine(true);
      }
    }
  }

  /** A write cycle sets up RS and the data lines before E rises, holds E high
      for the enable delay and changes nothing until E falls. */
  lemma TransactionShape(rs: bool, v: int)
    ensures |Transaction(rs, v)| == 12
    ensures Transaction(rs, v)[0] == RsLine(rs)
    ensures forall i :: 0 <= i < 8 ==> Transaction(rs, v)[1 + i] == DataLine(i, BusLevels(v)[i])
    ensures Transaction(rs, v)[9..] == [EnableLine(true), Hold, EnableLine(false)]
    ensures StableWhileEnabled(Transaction(rs, v))
  {
    var t := Transaction(rs, v);
    forall j | 0 <= j < |t| && t[j] == EnableLine(true)
      ensures j == 9
    {
      assert j == 9;
    }
  }

  /** Writing a string is one write cycle per character, with the protocol
      kept throughout. */
  lemma {:induction false} TextStepsShape(s: string)
    ensures |TextSteps(s)| == 12 * |s|
    ensures StableWhileEnabled(TextSteps(s))
    decreases |s|
  {
    if |s| > 0 {
      TextStepsShape(s[..|s| - 1]);
      TransactionShape(true, s[|s| - 1] as int);
      StableAppend(TextSteps(s[..|s| - 1]), Transaction(true, s[|s| - 1] as int));
    }
  }

  /** The controller receives the text itself when every character has a code
      below 256; a wider code arrives as its low byte. */
  lemma TextRoundTrip(s: string)
    ensures forall k :: 0 <= k < |s| ==> TextPulses(s)[k].rs
    ensures forall k :: 0 <= k < |s| ==>
      (TextPulses(s)[k].bus == s[k] as int <==> (s[k] as int) < 256)
    ensures (forall k :: 0 <= k < |s| ==> (s[k] as int) < 256) ==>
      seq(|s|, k requires 0 <= k < |s| => TextPulses(s)[k].bus as char) == s
  {
  }

  class Lcd {
    const rsPin: int
    const ePin: int
    const dataPins: seq<int>

    /** Output levels of RS, E and D0..D7. */
    var rs: bool
    var e: bool
    const data: array<bool>

    ghost var steps: seq<Step>
    ghost var trace: seq<Pulse>

    ghost predicate Valid()
      reads this
    {
      data.Length == 8 && |dataPins| == 8
    }

    /** Configures the ten pins as outputs; their initial levels are whatever
        the hardware had, so nothing is promised about them. */
    constructor (rsPin: int, ePin: int, d0: int, d1: int, d2: int, d3: int,
                 d4: int, d5: int, d6: int, d7: int)
      ensures Valid() && fresh(data)
      ensures this.rsPin == rsPin && this.ePin == ePin
      ensures dataPins == [d0, d1, d2, d3, d4, d5, d6, d7]
      ensures steps == [] && trace == []
    {
      this.rsPin := rsPin;
      this.ePin := ePin;
      dataPins := [d0, d1, d2, d3, d4, d5, d6, d7];
      data := new bool[8];
      steps := [];
      trace := [];
    }

    method SetRs(high: bool)
      modifies this`rs, this`steps
      ensures rs == high && steps == old(steps) + [RsLine(high)]
    {
      rs := high;
      steps := steps + [RsLine(high)];
    }

    method SetDataLine(index: nat, high: bool)
      requires Valid() && index < 8
      modifies this`steps, data
      ensures data[..] == old(data[..])[index := high]
      ensures steps == old(steps) + [DataLine(index, high)]
    {
      data[index] := high;
      steps := steps + [DataLine(index, high)];
    }

    /** The controller latches RS and D0..D7 on the falling edge of E. */
    method SetEnable(high: bool)
      requires Valid()
      modifies this`e, this`steps, this`trace
      ensures e == high && steps == old(steps) + [EnableLine(high)]
      ensures trace == if old(e) && !high then old(trace) + [Pulse(rs, OnBus(data[..]))] else old(trace)
    {
      if e && !high {
        trace := trace + [Pulse(rs, OnBus(data[..]))];
      }
      e := high;
      steps := steps + [EnableLine(high)];
    }

    /** The ENABLE_DELAY sleep between raising and lowering E. */
    method Wait()
      modifies this`steps
      ensures steps == old(steps) + [Hold]
    {
      steps := steps + [Hold];
    }

    /** D0..D7 take the low eight bits of `value`, line i from `(value >> i) & 1`. */
    method SetDataBus(value: int)
      requires Valid()
      modifies this`steps, data
      ensures data[..] == BusLevels(value)
      ensures steps == old(steps) + BusSteps(value)
    {
      for index := 0 to 8
        invariant data[..index] == BusLevels(value)[..index]
        invariant steps == old(steps) + BusSteps(value)[..index]
      {
        AndOne(Shr(value, index));
        ghost var before := data[..];
        if PyAnd(Shr(value, index), 1) != 0 {
          SetDataLine(index, true);
        } else {
          SetDataLine(index, false);
        }
        assert data[..index] == before[..index];
        assert BusSteps(value)[..index + 1] == BusSteps(value)[..index] + [BusSteps(value)[index]];
      }
    }

    /** After one write cycle with RS at `level` carrying v: the controller
        latched exactly one more pulse, the log grew by the cycle's writes,
        and E is low again with RS and the data lines left as written. */
    twostate predicate Sent(level: bool, v: int)
      reads this, data
    {
      trace == old(trace) + [Pulse(level, v % 256)] &&
      steps == old(steps) + Transaction(level, v) &&
      rs == level && !e && data[..] == BusLevels(v)
    }

    method Send(level: bool, v: int)
      requires Valid()
      modifies this, data
      ensures Sent(level, v)
    {
      BusRoundTrip(v);
      SetRs(level);
      SetDataBus(v);
      SetEnable(true);
      Wait();
      SetEnable(false);
      assert OnBus(data[..]) == v % 256;
      AppendTransaction(old(steps), level, v);
    }

    /** An instruction write: RS low. */
    method SendCommand(command: int)
      requires Valid()
      modifies this, data
      ensures Sent(false, command)
    {
      Send(false, command);
    }

    /** A data write: RS high. */
    method SendData(value: int)
      requires Valid()
      modifies this, data
      ensures Sent(true, value)
    {
      Send(true, value);
    }

    method Clear()
      requires Valid()
      modifies this, data
      ensures Sent(false, CLEAR)
    {
      SendCommand(CLEAR);
    }

    method Home()
      requires Valid()
      modifies this, data
      ensures Sent(false, HOME)
    {
      SendCommand(HOME);
    }

    method EnterMode(command: int)
      requires Valid()
      modifies this, data
      ensures Sent(false, EntryModeCommand(command))
    {
      SendCommand(PyOr(ENTER, command));
    }

    method Display(command: int)
      requires Valid()
      modifies this, data
      ensures Sent(false, DisplayCommand(command))
    {
      SendCommand(PyOr(DISPLAY, command));
    }

    method Shift(command: int)
      requires Valid()
      modifies this, data
      ensures Sent(false, ShiftCommand(command))
    {
      SendCommand(PyOr(SHIFT, command));
    }

    method Function(command: int)
      requires Valid()
      modifies this, data
      ensures Sent(false, FunctionCommand(command))
    {
      SendCommand(PyOr(FUNCTION, command));
    }

    method SetCgramAddr(address: int)
      requires Valid()
      modifies this, data
      ensures Sent(false, CgramAddressCommand(address))
    {
      var masked := PyAnd(address, 0x3F);
      SendCommand(PyOr(CGRAM, masked));
    }

    method SetDdramAddr(address: int)
      requires Valid()
      modifies this, data
      ensures Sent(false, DdramAddressCommand(address))
    {
      var masked := PyAnd(address, 0x7F);
      SendCommand(PyOr(DDRAM, masked));
    }

    /** Reading the busy flag is not implemented: nothing happens and the
        method returns None. */
    method ReadFlag(address: int) returns (r: Option<int>)
      ensures r == None
    {
      r := None;
    }

    /** Reading data is not implemented either. */
    method ReadData() returns (r: Option<int>)
      ensures r == None
    {
      r := None;
    }

    /** The default initialisation: four instruction cycles. */
    method Init()
      requires Valid()
      modifies this, data
      ensures trace == old(trace) + [Pulse(false, 0x01), Pulse(false, 0x38), Pulse(false, 0x0F), Pulse(false, 0x06)]
      ensures steps == old(steps) + Transaction(false, 0x01) + Transaction(false, 0x38)
                                  + Transaction(false, 0x0F) + Transaction(false, 0x06)
      ensures !rs && !e && data[..] == BusLevels(0x06)
    {
      ghost var cs := InitCommands();
      var func := PyOr(PyOr(FUNC_8_BIT, FUNC_2_LINE), FUNC_5X8);
      var display := PyOr(PyOr(DISPLAY_ON, DISPLAY_CURSOR_ON), DISPLAY_CURSOR_BLINK);
      var entry := PyOr(ENTER_INC, ENTER_NOT_SHIFT);
      assert cs == [CLEAR, FunctionCommand(func), DisplayCommand(display), EntryModeCommand(entry)];
      assert FunctionCommand(func) == 0x38 && DisplayCommand(display) == 0x0F && EntryModeCommand(entry) == 0x06;
      Clear();
      ghost var t1 := trace;
      Function(func);
      assert trace == t1 + [Pulse(false, 0x38)];
      ghost var t2 := trace;
      Display(display);
      assert trace == t2 + [Pulse(false, 0x0F)];
      ghost var t3 := trace;
      EnterMode(entry);
      assert trace == t3 + [Pulse(false, 0x06)];
      AppendFour(old(trace), Pulse(false, 0x01), Pulse(false, 0x38), Pulse(false, 0x0F), Pulse(false, 0x06));
    }

    /** An int goes out as it is, a one-character str as its code; a str of
        any other length makes `ord` raise, and other values are ignored. */
    method WriteData(value: PyValue) returns (outcome: Outcome)
      requires Valid()
      modifies this, data
      ensures outcome == TypeError <==> value.PyStr? && |value.s| != 1
      ensures value.PyInt? ==> Sent(true, value.n)
      ensures value.PyStr? && |value.s| == 1 ==> Sent(true, value.s[0] as int)
      ensures outcome == TypeError || value.PyOther? ==>
        trace == old(trace) && steps == old(steps) && rs == old(rs) && e == old(e) &&
        data[..] == old(data[..])
    {
      match value
      case PyInt(n) =>
        SendData(n);
        outcome := Completed;
      case PyStr(s) =>
        if |s| == 1 {
          SendData(s[0] as int);
          outcome := Completed;
        } else {
          outcome := TypeError;
        }
      case PyOther =>
        outcome := Completed;
    }

    /** Each character of a str goes out as a data write, in order; any other
        value is ignored. */
    method String(value: PyValue)
      requires Valid()
      modifies this, data
      ensures value.PyStr? ==>
        trace == old(trace) + TextPulses(value.s) && steps == old(steps) + TextSteps(value.s)
      ensures value.PyStr? && |value.s| > 0 ==>
        rs && !e && data[..] == BusLevels(value.s[|value.s| - 1] as int)
      ensures value.PyStr? && |value.s| == 0 ==> rs == old(rs) && e == old(e) && data[..] == old(data[..])
      ensures !value.PyStr? ==>
        trace == old(trace) && steps == old(steps) && rs == old(rs) && e == old(e) &&
        data[..] == old(data[..])
    {
      if value.PyStr? {
        var s := value.s;
        for k := 0 to |s|
          invariant trace == old(trace) + TextPulses(s[..k])
          invariant steps == old(steps) + TextSteps(s[..k])
          invariant k > 0 ==> rs && !e && data[..] == BusLevels(s[k - 1] as int)
          invariant k == 0 ==> rs == old(rs) && e == old(e) && data[..] == old(data[..])
        {
          SendData(s[k] as int);
          AppendText(old(steps), s, k);
          assert TextPulses(s[..k + 1]) == TextPulses(s[..k]) + [CharPulse(s[k])];
        }
        assert s[..|s|] == s;
      }
    }
  }

  /** The usage the module's own help text shows: RS on pin 0, E on pin 1,
      D0..D7 on pins 2..9, the default initialisation, then "Hello World".
      Fifteen pulses reach the controller: the four initialisation
      instructions, then one RS-high pulse per character code. */
  method HelloScenario() returns (lcd: Lcd)
    ensures fresh(lcd) && lcd.Valid()
    ensures lcd.rsPin == 0 && lcd.ePin == 1
    ensures lcd.dataPins == [2, 3, 4, 5, 6, 7, 8, 9]
    ensures lcd.trace == [Pulse(false, 0x01), Pulse(false, 0x38), Pulse(false, 0x0F), Pulse(false, 0x06)] +
                         TextPulses("Hello World")
  {
    lcd := new Lcd(0, 1, 2, 3, 4, 5, 6, 7, 8, 9);
    lcd.Init();
    lcd.String(PyStr("Hello World"));
  }
}
