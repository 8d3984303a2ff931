// The HD44780 character LCD: the display class, which turns cursor, print
// and control requests into command and data bytes for a driver, and the two
// 4-bit drivers whose code is shown (GPIO and MCP23017), which put one byte
// on the RS, EN and D4-D7 lines as two nibbles.
module Hd44780 {

  import opened Gnublin
  import opened Seqs

  /** RS levels: command mode and data mode. */
  const LCD_CMD: int := 0
  const LCD_DATA: int := 1

  /** The "set DDRAM address" commands that put the cursor at the start of rows 1 to 4. */
  const LCD_ROWS: seq<bv8> := [0x80, 0xC0, 0x94, 0xD4]

  const LCD_CLEAR: bv8 := 0x01
  const LCD_HOME: bv8 := 0x02
  const LCD_CTRL: bv8 := 0x08
  const LCD_ONOFF: bv8 := 0x0C
  const LCD_CURSOR: bv8 := 0x0A
  const LCD_BLINK: bv8 := 0x09

  /**
   * init's commands: the 4-bit initialisation sequence (0x33, 0x32), 4-bit
   * interface with 2 lines, display on, cursor moving right, clear.
   */
  const INIT_BYTES: seq<bv8> := [0x33, 0x32, 0x28, 0x0C, 0x06, 0x01]

  /** The byte `' '`, used to move the cursor and to pad a line. */
  const SPACE: bv8 := 0x20

  // ---------------------------------------------------------------------
  // The 4-bit drivers: one byte as a sequence of pin writes.
  // ---------------------------------------------------------------------

  /** The lines wired to the LCD: RS, EN and the data lines D4 to D7. */
  datatype Pins = Pins(rs: int, en: int, d4: int, d5: int, d6: int, d7: int)

  /** The MCP23017 driver's default wiring: expander pins 0 to 5. */
  const MCP23017_PINS: Pins := Pins(0, 1, 2, 3, 4, 5)

  /** Six different lines. */
  predicate Distinct(p: Pins)
  {
    p.rs != p.en && p.rs != p.d4 && p.rs != p.d5 && p.rs != p.d6 && p.rs != p.d7
    && p.en != p.d4 && p.en != p.d5 && p.en != p.d6 && p.en != p.d7
    && p.d4 != p.d5 && p.d4 != p.d6 && p.d4 != p.d7
    && p.d5 != p.d6 && p.d5 != p.d7
    && p.d6 != p.d7
  }

  /** One `digitalWrite(pin, level)`. */
  datatype PinWrite = PinWrite(pin: int, level: int)

  /** A write made only when `c` holds. */
  function When(c: bool, w: PinWrite): seq<PinWrite>
  {
    if c then [w] else []
  }

  /** D4 to D7 driven low. */
  function ClearData(p: Pins): seq<PinWrite>
  {
    [PinWrite(p.d4, LOW), PinWrite(p.d5, LOW), PinWrite(p.d6, LOW), PinWrite(p.d7, LOW)]
  }

  /** D4 to D7 raised where bits 0 to 3 of the nibble `n` are set. */
  function RaiseData(p: Pins, n: bv8): seq<PinWrite>
  {
    When(n & 0x01 == 0x01, PinWrite(p.d4, HIGH)) + When(n & 0x02 == 0x02, PinWrite(p.d5, HIGH))
    + When(n & 0x04 == 0x04, PinWrite(p.d6, HIGH)) + When(n & 0x08 == 0x08, PinWrite(p.d7, HIGH))
  }

  /** The EN pulse that makes the LCD read the data lines. */
  function Pulse(p: Pins): seq<PinWrite>
  {
    [PinWrite(p.en, HIGH), PinWrite(p.en, LOW)]
  }

  /** One nibble: the data lines cleared, raised where `n` has a 1, then a pulse. */
  function NibbleWrites(p: Pins, n: bv8): seq<PinWrite>
  {
    ClearData(p) + RaiseData(p, n) + Pulse(p)
  }

  /** writeByte's pin writes: RS, then the high nibble, then the low nibble. */
  function ByteWrites(p: Pins, b: bv8, mode: int): seq<PinWrite>
  {
    [PinWrite(p.rs, mode)] + NibbleWrites(p, b >> 4) + NibbleWrites(p, b & 0x0F)
  }

  /** The levels of the six lines as the LCD sees them. */
  datatype Levels = Levels(rs: int, en: int, d4: int, d5: int, d6: int, d7: int)

  /** What the LCD reads when EN falls: RS and the nibble on D4 (bit 0) to D7 (bit 3). */
  datatype Latch = Latch(rs: int, nibble: bv8)

  /** The lines, and what the LCD has read so far. */
  datatype Lcd = Lcd(lines: Levels, latched: seq<Latch>)

  /** The nibble on the data lines. */
  function Nibble(l: Levels): bv8
  {
    (if l.d4 == HIGH then 0x01 else 0x00) | (if l.d5 == HIGH then 0x02 else 0x00)
    | (if l.d6 == HIGH then 0x04 else 0x00) | (if l.d7 == HIGH then 0x08 else 0x00)
  }

  /** The lines after one write; a write to a line not wired to the LCD changes none. */
  function Drive(p: Pins, l: Levels, w: PinWrite): Levels
  {
    if w.pin == p.rs then l.(rs := w.level)
    else if w.pin == p.en then l.(en := w.level)
    else if w.pin == p.d4 then l.(d4 := w.level)
    else if w.pin == p.d5 then l.(d5 := w.level)
    else if w.pin == p.d6 then l.(d6 := w.level)
    else if w.pin == p.d7 then l.(d7 := w.level)
    else l
  }

  /** One pin write as the LCD sees it: EN going from high to low latches RS and the data lines. */
  function Step(p: Pins, s: Lcd, w: PinWrite): Lcd
  {
    var l := Drive(p, s.lines, w);
    if w.pin == p.en && w.level == LOW && s.lines.en == HIGH then
      Lcd(l, s.latched + [Latch(l.rs, Nibble(l))])
    else Lcd(l, s.latched)
  }

  /** A sequence of pin writes as the LCD sees it. */
  function Run(p: Pins, s: Lcd, ws: seq<PinWrite>): Lcd
    decreases |ws|
  {
    if |ws| == 0 then s else Run(p, Step(p, s, ws[0]), ws[1..])
  }

  /** Running two sequences of writes is running one after the other. */
  lemma {:induction false} RunAppend(p: Pins, s: Lcd, a: seq<PinWrite>, b: seq<PinWrite>)
    ensures Run(p, s, a + b) == Run(p, Run(p, s, a), b)
    decreases |a|
  {
    if |a| == 0 {
      assert a + b == b;
    } else {
      assert (a + b)[0] == a[0];
      assert (a + b)[1..] == a[1..] + b;
      RunAppend(p, Step(p, s, a[0]), a[1..], b);
    }
  }

  /** A single write is one step. */
  lemma RunOne(p: Pins, s: Lcd, w: PinWrite)
    ensures Run(p, s, [w]) == Step(p, s, w)
  {
    assert [w][1..] == [];
  }

  /** A conditional write is one step when made and nothing otherwise. */
  lemma RunWhen(p: Pins, s: Lcd, c: bool, w: PinWrite)
    ensures Run(p, s, When(c, w)) == if c then Step(p, s, w) else s
  {
    if c {
      RunOne(p, s, w);
    }
  }

  /** Clearing the data lines latches nothing and leaves RS and EN alone. */
  lemma RunClear(p: Pins, s: Lcd)
    requires Distinct(p)
    ensures Run(p, s, ClearData(p)) == Lcd(s.lines.(d4 := LOW, d5 := LOW, d6 := LOW, d7 := LOW), s.latched)
  {
    var w := ClearData(p);
    assert w == [w[0]] + [w[1]] + [w[2]] + [w[3]];
    RunAppend(p, s, [w[0]] + [w[1]] + [w[2]], [w[3]]);
    RunAppend(p, s, [w[0]] + [w[1]], [w[2]]);
    RunAppend(p, s, [w[0]], [w[1]]);
    RunOne(p, s, w[0]);
    var s1 := Step(p, s, w[0]);
    RunOne(p, s1, w[1]);
    var s2 := Step(p, s1, w[1]);
    RunOne(p, s2, w[2]);
    var s3 := Step(p, s2, w[2]);
    RunOne(p, s3, w[3]);
  }

  /** Raising the data lines of a cleared bus leaves the nibble `n` on them and latches nothing. */
  lemma RunRaise(p: Pins, s: Lcd, n: bv8)
    requires Distinct(p) && n < 0x10
    requires s.lines.d4 == LOW && s.lines.d5 == LOW && s.lines.d6 == LOW && s.lines.d7 == LOW
    ensures var t := Run(p, s, RaiseData(p, n));
      t.latched == s.latched && t.lines.rs == s.lines.rs && t.lines.en == s.lines.en && Nibble(t.lines) == n
  {
    var w1 := When(n & 0x01 == 0x01, PinWrite(p.d4, HIGH));
    var w2 := When(n & 0x02 == 0x02, PinWrite(p.d5, HIGH));
    var w3 := When(n & 0x04 == 0x04, PinWrite(p.d6, HIGH));
    var w4 := When(n & 0x08 == 0x08, PinWrite(p.d7, HIGH));
    RunAppend(p, s, w1 + w2 + w3, w4);
    RunAppend(p, s, w1 + w2, w3);
    RunAppend(p, s, w1, w2);
    RunWhen(p, s, n & 0x01 == 0x01, PinWrite(p.d4, HIGH));
    var s1 := Run(p, s, w1);
    RunWhen(p, s1, n & 0x02 == 0x02, PinWrite(p.d5, HIGH));
    var s2 := Run(p, s1, w2);
    RunWhen(p, s2, n & 0x04 == 0x04, PinWrite(p.d6, HIGH));
    var s3 := Run(p, s2, w3);
    RunWhen(p, s3, n & 0x08 == 0x08, PinWrite(p.d7, HIGH));
    var t := Run(p, s3, w4);
    assert t.lines.d4 == (if n & 0x01 == 0x01 then HIGH else LOW);
    assert t.lines.d5 == (if n & 0x02 == 0x02 then HIGH else LOW);
    assert t.lines.d6 == (if n & 0x04 == 0x04 then HIGH else LOW);
    assert t.lines.d7 == (if n & 0x08 == 0x08 then HIGH else LOW);
    NibbleBits(n, Nibble(t.lines));
  }

  /** A nibble is the OR of its four bits. */
  lemma NibbleBits(n: bv8, m: bv8)
    requires n < 0x10
    requires m == (if n & 0x01 == 0x01 then 0x01 else 0x00) | (if n & 0x02 == 0x02 then 0x02 else 0x00)
      | (if n & 0x04 == 0x04 then 0x04 else 0x00) | (if n & 0x08 == 0x08 then 0x08 else 0x00)
    ensures m == n
  {
  }

  /** The EN pulse latches RS and the data lines once and leaves EN low. */
  lemma RunPulse(p: Pins, s: Lcd)
    requires Distinct(p)
    ensures Run(p, s, Pulse(p)) == Lcd(s.lines.(en := LOW), s.latched + [Latch(s.lines.rs, Nibble(s.lines))])
  {
    assert Pulse(p) == [PinWrite(p.en, HIGH)] + [PinWrite(p.en, LOW)];
    RunAppend(p, s, [PinWrite(p.en, HIGH)], [PinWrite(p.en, LOW)]);
    RunOne(p, s, PinWrite(p.en, HIGH));
    RunOne(p, Step(p, s, PinWrite(p.en, HIGH)), PinWrite(p.en, LOW));
  }

  /** One nibble's writes make the LCD read that nibble, with RS as it stands. */
  lemma RunNibble(p: Pins, s: Lcd, n: bv8)
    requires Distinct(p) && n < 0x10
    ensures var t := Run(p, s, NibbleWrites(p, n));
      t.latched == s.latched + [Latch(s.lines.rs, n)] && t.lines.rs == s.lines.rs && t.lines.en == LOW
  {
    RunAppend(p, s, ClearData(p) + RaiseData(p, n), Pulse(p));
    RunAppend(p, s, ClearData(p), RaiseData(p, n));
    RunClear(p, s);
    var s1 := Run(p, s, ClearData(p));
    RunRaise(p, s1, n);
    var s2 := Run(p, s1, RaiseData(p, n));
    RunPulse(p, s2);
  }

  /**
   * writeByte hands the LCD the byte as two nibbles, high first, both read
   * with RS at `mode`; put back together they are `b`.
   */
  lemma ByteLatches(p: Pins, s: Lcd, b: bv8, mode: int)
    requires Distinct(p)
    ensures var t := Run(p, s, ByteWrites(p, b, mode));
      t.latched == s.latched + [Latch(mode, b >> 4), Latch(mode, b & 0x0F)]
      && ((b >> 4) << 4) | (b & 0x0F) == b
      && t.lines.en == LOW && t.lines.rs == mode
  {
    var rs := [PinWrite(p.rs, mode)];
    RunAppend(p, s, rs + NibbleWrites(p, b >> 4), NibbleWrites(p, b & 0x0F));
    RunAppend(p, s, rs, NibbleWrites(p, b >> 4));
    RunOne(p, s, PinWrite(p.rs, mode));
    var s0 := Run(p, s, rs);
    RunNibble(p, s0, b >> 4);
    var s1 := Run(p, s0, NibbleWrites(p, b >> 4));
    RunNibble(p, s1, b & 0x0F);
  }

  /** The pin-level side of the GPIO and MCP23017 drivers. */
  class PinDriver {
    const pins: Pins
    /** The lines configured as outputs, in the order the constructor configures them. */
    var outputs: seq<int>
    /** Every digitalWrite so far, oldest first. */
    var writes: seq<PinWrite>

    /** The constructor: remembers the wiring and makes the six lines outputs. */
    constructor(pins: Pins)
      ensures this.pins == pins && writes == []
      ensures outputs == [pins.rs, pins.en, pins.d4, pins.d5, pins.d6, pins.d7]
    {
      this.pins := pins;
      outputs := [];
      writes := [];
      new;
      PinMode(pins.rs);
      PinMode(pins.en);
      PinMode(pins.d4);
      PinMode(pins.d5);
      PinMode(pins.d6);
      PinMode(pins.d7);
    }

    /** `pinMode(pin, OUTPUT)`. */
    method PinMode(pin: int)
      modifies this
      ensures outputs == old(outputs) + [pin] && writes == old(writes)
    {
      outputs := outputs + [pin];
    }

    /** `digitalWrite(pin, level)`; the drivers ignore its result. */
    method DigitalWrite(pin: int, level: int)
      modifies this
      ensures writes == old(writes) + [PinWrite(pin, level)] && outputs == old(outputs)
    {
      writes := writes + [PinWrite(pin, level)];
    }

    /** `digitalWrite(pin, HIGH)` when `c` holds. */
    method RaiseWhen(c: bool, pin: int)
      modifies this
      ensures writes == old(writes) + When(c, PinWrite(pin, HIGH)) && outputs == old(outputs)
    {
      if c {
        DigitalWrite(pin, HIGH);
      }
    }

    /** D4 to D7 driven low. */
    method ClearLines()
      modifies this
      ensures writes == old(writes) + ClearData(pins) && outputs == old(outputs)
    {
      DigitalWrite(pins.d4, LOW);
      DigitalWrite(pins.d5, LOW);
      DigitalWrite(pins.d6, LOW);
      DigitalWrite(pins.d7, LOW);
    }

    /** D4 to D7 driven high where the nibble `n` has a 1. */
    method RaiseLines(n: bv8)
      modifies this
      ensures writes == old(writes) + RaiseData(pins, n) && outputs == old(outputs)
    {
      ghost var w0 := writes;
      var b4, b5, b6, b7 := n & 0x01 == 0x01, n & 0x02 == 0x02, n & 0x04 == 0x04, n & 0x08 == 0x08;
      ghost var h4, h5 := When(b4, PinWrite(pins.d4, HIGH)), When(b5, PinWrite(pins.d5, HIGH));
      ghost var h6, h7 := When(b6, PinWrite(pins.d6, HIGH)), When(b7, PinWrite(pins.d7, HIGH));
      RaiseWhen(b4, pins.d4);
      RaiseWhen(b5, pins.d5);
      RaiseWhen(b6, pins.d6);
      RaiseWhen(b7, pins.d7);
      AppendAssoc(w0, h4, h5);
      AppendAssoc(w0, h4 + h5, h6);
      AppendAssoc(w0, h4 + h5 + h6, h7);
    }

    /** The EN pulse: high, then low. */
    method PulseEnable()
      modifies this
      ensures writes == old(writes) + Pulse(pins) && outputs == old(outputs)
    {
      DigitalWrite(pins.en, HIGH);
      DigitalWrite(pins.en, LOW);
    }

    /**
     * One half of writeByte: D4 to D7 low, then high where the nibble `n`
     * has a 1 (the driver tests bits 4-7 of the byte for the high half and
     * bits 0-3 for the low half), then the EN pulse.
     */
    method PutNibble(n: bv8)
      modifies this
      ensures writes == old(writes) + NibbleWrites(pins, n) && outputs == old(outputs)
    {
      ClearLines();
      RaiseLines(n);
      PulseEnable();
      AppendAssoc(old(writes), ClearData(pins), RaiseData(pins, n));
      AppendAssoc(old(writes), ClearData(pins) + RaiseData(pins, n), Pulse(pins));
    }

    /** writeByte: RS := mode, the high nibble, the low nibble; always 1. */
    method WriteByte(b: bv8, mode: int) returns (r: int)
      modifies this
      ensures r == 1
      ensures writes == old(writes) + ByteWrites(pins, b, mode) && outputs == old(outputs)
    {
      DigitalWrite(pins.rs, mode);
      ghost var w0 := writes;
      PutNibble(b >> 4);
      ghost var w1 := writes;
      PutNibble(b & 0x0F);
      AppendAssoc(w0, NibbleWrites(pins, b >> 4), NibbleWrites(pins, b & 0x0F));
      AppendAssoc(old(writes), [PinWrite(pins.rs, mode)], NibbleWrites(pins, b >> 4));
      AppendAssoc(old(writes), [PinWrite(pins.rs, mode)] + NibbleWrites(pins, b >> 4), NibbleWrites(pins, b & 0x0F));
      r := 1;
    }
  }

  // ---------------------------------------------------------------------
  // The display: commands and data bytes handed to the driver.
  // ---------------------------------------------------------------------

  /** One writeByte(b, mode) request to the driver. */
  datatype Cmd = Cmd(b: bv8, mode: int)

  /** A request and whether the driver accepted it (returned a non-negative value). */
  datatype Call = Call(cmd: Cmd, ok: bool)

  /** The driver accepts calls `n` to `n + k - 1`. */
  predicate AllOk(fails: nat -> bool, n: nat, k: nat)
  {
    forall i :: n <= i < n + k ==> !fails(i)
  }

  /** Every request of `cs`, each accepted. */
  function Delivered(cs: seq<Cmd>): seq<Call>
  {
    seq(|cs|, i requires 0 <= i < |cs| => Call(cs[i], true))
  }

  /**
   * The driver calls made when `cs` is sent one request at a time, starting
   * with call number `n`, giving up after the first refusal.
   */
  function Attempt(fails: nat -> bool, n: nat, cs: seq<Cmd>): seq<Call>
    decreases |cs|
  {
    if |cs| == 0 then []
    else if fails(n) then [Call(cs[0], false)]
    else [Call(cs[0], true)] + Attempt(fails, n + 1, cs[1..])
  }

  /** The requests go out in order, each with the driver's answer, and no more calls than requests. */
  lemma {:induction false} AttemptCalls(fails: nat -> bool, n: nat, cs: seq<Cmd>)
    ensures var a := Attempt(fails, n, cs);
      |a| <= |cs| && forall i :: 0 <= i < |a| ==> a[i] == Call(cs[i], !fails(n + i))
    decreases |cs|
  {
    if |cs| > 0 && !fails(n) {
      AttemptCalls(fails, n + 1, cs[1..]);
      var a := Attempt(fails, n, cs);
      var t := Attempt(fails, n + 1, cs[1..]);
      assert a == [Call(cs[0], true)] + t;
      forall i | 0 <= i < |a|
        ensures a[i] == Call(cs[i], !fails(n + i))
      {
        if i > 0 {
          assert a[i] == t[i - 1];
        }
      }
    }
  }

  /** The calls stop after the first refusal and only there. */
  lemma {:induction false} AttemptStops(fails: nat -> bool, n: nat, cs: seq<Cmd>)
    ensures var a := Attempt(fails, n, cs);
      (forall k :: n <= k < n + |a| - 1 ==> !fails(k))
      && (|a| < |cs| ==> |a| > 0 && fails(n + |a| - 1))
    decreases |cs|
  {
    if |cs| > 0 && !fails(n) {
      AttemptStops(fails, n + 1, cs[1..]);
      var t := Attempt(fails, n + 1, cs[1..]);
      assert |Attempt(fails, n, cs)| == 1 + |t|;
    }
  }

  /** All of `cs` is delivered exactly when the driver accepts every call. */
  lemma {:induction false} AttemptDelivers(fails: nat -> bool, n: nat, cs: seq<Cmd>)
    ensures AllOk(fails, n, |cs|) <==> Attempt(fails, n, cs) == Delivered(cs)
    decreases |cs|
  {
    if |cs| > 0 && !fails(n) {
      AttemptDelivers(fails, n + 1, cs[1..]);
      AllOkSplit(fails, n, 1, |cs| - 1);
      var t := Attempt(fails, n + 1, cs[1..]);
      assert Attempt(fails, n, cs) == [Call(cs[0], true)] + t;
      assert Delivered(cs) == [Call(cs[0], true)] + Delivered(cs[1..]);
      if Attempt(fails, n, cs) == Delivered(cs) {
        assert t == Attempt(fails, n, cs)[1..] == Delivered(cs)[1..] == Delivered(cs[1..]);
      }
    } else if |cs| > 0 {
      var a := Attempt(fails, n, cs);
      assert a[0] == Call(cs[0], false);
      assert a != Delivered(cs);
    }
  }

  /** One more request, after a run of acceptances, adds its call with the driver's answer. */
  lemma AttemptStep(fails: nat -> bool, n: nat, cs: seq<Cmd>, i: nat)
    requires i < |cs| && AllOk(fails, n, i)
    ensures Attempt(fails, n, cs[..i + 1]) == Attempt(fails, n, cs[..i]) + [Call(cs[i], !fails(n + i))]
    ensures AllOk(fails, n, i + 1) == !fails(n + i)
  {
    AttemptAppend(fails, n, cs[..i], [cs[i]]);
    AllOkSplit(fails, n, i, 1);
    assert cs[..i + 1] == cs[..i] + [cs[i]];
  }

  /** Sending `a` then `b` is sending `a + b`: `b` goes out only when all of `a` was accepted. */
  lemma {:induction false} AttemptAppend(fails: nat -> bool, n: nat, a: seq<Cmd>, b: seq<Cmd>)
    ensures Attempt(fails, n, a + b)
      == if AllOk(fails, n, |a|) then Attempt(fails, n, a) + Attempt(fails, n + |a|, b) else Attempt(fails, n, a)
    decreases |a|
  {
    if |a| == 0 {
      assert a + b == b;
    } else {
      assert (a + b)[0] == a[0];
      assert (a + b)[1..] == a[1..] + b;
      AttemptAppend(fails, n + 1, a[1..], b);
      if !fails(n) && !AllOk(fails, n + 1, |a| - 1) {
        assert !AllOk(fails, n, |a|);
      }
    }
  }

  /** A run of acceptances splits at any point. */
  lemma AllOkSplit(fails: nat -> bool, n: nat, j: nat, k: nat)
    ensures AllOk(fails, n, j + k) <==> AllOk(fails, n, j) && AllOk(fails, n + j, k)
  {
  }

  /** `k` spaces. */
  function Spaces(k: nat): seq<bv8>
  {
    seq(k, _ => SPACE)
  }

  /** The bytes as data requests. */
  function DataCmds(bs: seq<bv8>): seq<Cmd>
  {
    seq(|bs|, i requires 0 <= i < |bs| => Cmd(bs[i], LCD_DATA))
  }

  lemma DataCmdsAppend(a: seq<bv8>, b: seq<bv8>)
    ensures DataCmds(a + b) == DataCmds(a) + DataCmds(b)
  {
  }

  /** The cursor command of row `row` (1-based). */
  function RowCmd(row: int): Cmd
    requires 1 <= row <= |LCD_ROWS|
  {
    Cmd(LCD_ROWS[row - 1], LCD_CMD)
  }

  /** The first DDRAM address of each row of a 4-line module. */
  const ROW_STARTS: seq<bv8> := [0x00, 0x40, 0x14, 0x54]

  /**
   * Each row command is "set DDRAM address" (bit 7) with the row's first
   * address; rows 3 and 4 continue rows 1 and 2 after 20 characters.
   */
  lemma RowAddresses(row: int)
    requires 1 <= row <= |LCD_ROWS|
    ensures RowCmd(row).b == 0x80 | ROW_STARTS[row - 1] && RowCmd(row).mode == LCD_CMD
    ensures ROW_STARTS[2] == ROW_STARTS[0] + 20 && ROW_STARTS[3] == ROW_STARTS[1] + 20
  {
  }

  /** How much of a `len`-byte text fits in `room` columns. */
  function Fit(len: nat, room: nat): nat
  {
    if len > room then room else len
  }

  /**
   * The data bytes of a print from column `crtCol`: the text cut to the
   * rest of the line, then spaces to the end of the line.
   */
  function LineBytes(text: seq<bv8>, cols: nat, crtCol: nat): seq<bv8>
    requires crtCol <= cols
  {
    var l := Fit(|text|, cols - crtCol);
    text[..l] + Spaces(cols - crtCol - l)
  }

  /**
   * The data bytes of _print as written: its pad loop counts from the text
   * length up to the pad length, so it sends the pad length minus the text
   * length spaces, or none.
   */
  function LineBytesAsWritten(text: seq<bv8>, cols: nat, crtCol: nat): seq<bv8>
    requires crtCol <= cols
  {
    var l := Fit(|text|, cols - crtCol);
    var pad := cols - crtCol - l;
    text[..l] + Spaces(if pad > l then pad - l else 0)
  }

  /** A row of `cols` characters whose first `|data|` are overwritten by `data`, the rest left as they were. */
  function Overwrite(line: seq<bv8>, data: seq<bv8>): seq<bv8>
  {
    if |data| >= |line| then data[..|line|] else data + line[|data|..]
  }

  /** What a row should show after printing `text` at column `col`: the text from there, cut at the edge, blanks elsewhere. */
  function Shown(text: seq<bv8>, col: nat, cols: nat): seq<bv8>
  {
    seq(cols, j requires 0 <= j < cols => if col <= j < col + |text| then text[j - col] else SPACE)
  }

  /**
   * Moving the cursor `col` spaces and printing fills the row exactly:
   * whatever it showed before, it then shows `text` from column `col`,
   * truncated at the edge, with blanks everywhere else.
   */
  lemma PrintFillsRow(line: seq<bv8>, text: seq<bv8>, col: nat, cols: nat)
    requires col <= cols && |line| == cols
    ensures |LineBytes(text, cols, col)| == cols - col
    ensures Overwrite(line, Spaces(col) + LineBytes(text, cols, col)) == Shown(text, col, cols)
  {
    var l := Fit(|text|, cols - col);
    var d := Spaces(col) + LineBytes(text, cols, col);
    assert |d| == cols;
    forall j | 0 <= j < cols
      ensures d[j] == Shown(text, col, cols)[j]
    {
      if j < col {
        assert d[j] == SPACE;
      } else if j < col + l {
        assert d[j] == LineBytes(text, cols, col)[j - col] == text[j - col];
      } else {
        assert d[j] == LineBytes(text, cols, col)[j - col] == SPACE;
      }
    }
  }

  /**
   * As written, printing "AB" on an empty 16-column row sends 14 data bytes
   * instead of 16, so the last two columns keep what they showed before.
   */
  lemma PrintLeavesStaleColumns(line: seq<bv8>)
    requires |line| == 16 && line[15] != SPACE
    ensures |LineBytesAsWritten([0x41, 0x42], 16, 0)| == 14
    ensures Overwrite(line, LineBytesAsWritten([0x41, 0x42], 16, 0))[15] == line[15]
    ensures Shown([0x41, 0x42], 0, 16)[15] == SPACE
  {
    var d := LineBytesAsWritten([0x41, 0x42], 16, 0);
    assert |d| == 14;
    assert Overwrite(line, d) == d + line[14..];
  }

  /** The display-control command byte of controlDisplay. */
  function ControlByte(power: int, cursor: int, blink: int): bv8
  {
    LCD_CTRL | (if power != 0 then LCD_ONOFF else 0x00) | (if cursor != 0 then LCD_CURSOR else 0x00)
    | (if blink != 0 then LCD_BLINK else 0x00)
  }

  /**
   * The byte is the HD44780 "display on/off control" instruction 0b00001DCB:
   * D set iff `power`, C iff `cursor`, B iff `blink`.
   */
  lemma ControlByteBits(power: int, cursor: int, blink: int)
    ensures ControlByte(power, cursor, blink)
      == 0x08 | (if power != 0 then 0x04 else 0x00) | (if cursor != 0 then 0x02 else 0x00) | (if blink != 0 then 0x01 else 0x00)
  {
  }

  /** init's requests. */
  function InitCmds(): seq<Cmd>
  {
    seq(|INIT_BYTES|, i requires 0 <= i < |INIT_BYTES| => Cmd(INIT_BYTES[i], LCD_CMD))
  }

  /**
   * When the driver refuses init's first request, init stops there: one
   * call, refused, and not every request went out.
   */
  lemma InitFirstRefused(fails: nat -> bool, n: nat)
    requires fails(n)
    ensures Attempt(fails, n, InitCmds()) == [Call(Cmd(0x33, LCD_CMD), false)]
    ensures !AllOk(fails, n, |InitCmds()|)
  {
  }

  /** The requests of print(buffer, row): the row command, then the whole line. */
  function PrintRowCmds(text: seq<bv8>, row: int, rows: nat, cols: nat): seq<Cmd>
    requires rows <= |LCD_ROWS|
  {
    if 1 <= row <= rows then [RowCmd(row)] + DataCmds(LineBytes(text, cols, 0)) else []
  }

  /**
   * The requests of print(buffer, row, col): the row command, then (when
   * the column is in range) `col` spaces and the rest of the line.
   */
  function PrintAtCmds(text: seq<bv8>, row: int, col: int, rows: nat, cols: nat): seq<Cmd>
    requires rows <= |LCD_ROWS|
  {
    if !(1 <= row <= rows) then []
    else if !(1 <= col <= cols) then [RowCmd(row)]
    else [RowCmd(row)] + DataCmds(Spaces(col) + LineBytes(text, cols, col))
  }

  /** The requests of print(buffer, row, col) after the row command: none for a column out of range. */
  function ColumnCmds(text: seq<bv8>, col: int, cols: nat): seq<Cmd>
  {
    if 1 <= col <= cols then DataCmds(Spaces(col) + LineBytes(text, cols, col)) else []
  }

  /**
   * A print request is the row command followed by one full row of data:
   * after the driver accepts it all, the row shows `text` from column `col`
   * whatever it showed before (column 0 for print(buffer, row)).
   */
  lemma PrintAtShows(line: seq<bv8>, text: seq<bv8>, row: int, col: int, rows: nat, cols: nat)
    requires rows <= |LCD_ROWS| && 1 <= row <= rows && 1 <= col <= cols && |line| == cols
    ensures var cs := PrintAtCmds(text, row, col, rows, cols);
      |cs| == 1 + cols && cs[0] == RowCmd(row)
      && cs[1..] == DataCmds(Spaces(col) + LineBytes(text, cols, col))
      && Overwrite(line, Spaces(col) + LineBytes(text, cols, col)) == Shown(text, col, cols)
    ensures var cs := PrintRowCmds(text, row, rows, cols);
      |cs| == 1 + cols && cs[0] == RowCmd(row) && cs[1..] == DataCmds(LineBytes(text, cols, 0))
      && Overwrite(line, LineBytes(text, cols, 0)) == Shown(text, 0, cols)
  {
    PrintFillsRow(line, text, col, cols);
    PrintFillsRow(line, text, 0, cols);
    assert Spaces(0) + LineBytes(text, cols, 0) == LineBytes(text, cols, 0);
  }

  /**
   * The display module, over a driver that accepts or refuses each
   * writeByte call; call number `i` is refused when `fails(i)` (the GPIO and
   * MCP23017 drivers above never refuse).
   */
  class Display {
    const rows: nat
    const cols: nat
    const fails: nat -> bool
    /** The column the cursor was last put at. */
    var crtCol: nat
    var errorFlag: bool
    /** Every writeByte call to the driver so far, oldest first. */
    var calls: seq<Call>

    predicate Valid()
      reads this
    {
      rows <= |LCD_ROWS| && crtCol <= cols
    }

    /** The constructor with the default geometry: 2 rows of 16 characters. */
    constructor Default(fails: nat -> bool)
      ensures Valid() && rows == 2 && cols == 16 && this.fails == fails
      ensures crtCol == 0 && !errorFlag && calls == []
    {
      this.fails := fails;
      rows := 2;
      cols := 16;
      crtCol := 0;
      errorFlag := false;
      calls := [];
    }

    /** The constructor with a given geometry. */
    constructor(fails: nat -> bool, rows: nat, cols: nat)
      requires rows <= |LCD_ROWS|
      ensures Valid() && this.rows == rows && this.cols == cols && this.fails == fails
      ensures crtCol == 0 && !errorFlag && calls == []
    {
      this.fails := fails;
      this.rows := rows;
      this.cols := cols;
      crtCol := 0;
      errorFlag := false;
      calls := [];
    }

    /** The driver's writeByte: -1 when it refuses the call, 1 otherwise. */
    method WriteByte(c: Cmd) returns (r: int)
      modifies this
      ensures r == (if fails(|old(calls)|) then -1 else 1)
      ensures calls == old(calls) + [Call(c, r == 1)]
      ensures crtCol == old(crtCol) && errorFlag == old(errorFlag)
    {
      r := if fails(|calls|) then -1 else 1;
      calls := calls + [Call(c, r == 1)];
    }

    /** The loops of the class: send each request, stopping at the first refusal. */
    method SendAll(cs: seq<Cmd>) returns (ok: bool)
      modifies this
      ensures calls == old(calls) + Attempt(fails, |old(calls)|, cs)
      ensures ok == AllOk(fails, |old(calls)|, |cs|)
      ensures ok ==> |calls| == |old(calls)| + |cs|
      ensures crtCol == old(crtCol) && errorFlag == old(errorFlag)
    {
      ghost var n := |calls|;
      var i := 0;
      ok := true;
      while i < |cs| && ok
        invariant 0 <= i <= |cs|
        invariant ok == AllOk(fails, n, i)
        invariant calls == old(calls) + Attempt(fails, n, cs[..i])
        invariant |calls| == n + i
        invariant crtCol == old(crtCol) && errorFlag == old(errorFlag)
      {
        var r := WriteByte(cs[i]);
        AttemptStep(fails, n, cs, i);
        AppendAssoc(old(calls), Attempt(fails, n, cs[..i]), [Call(cs[i], r == 1)]);
        ok := r == 1;
        i := i + 1;
      }
      AttemptAppend(fails, n, cs[..i], cs[i..]);
      assert cs[..i] + cs[i..] == cs;
    }

    /** _setRow: the row's cursor command; -1 for a row outside 1..rows or a refused call. */
    method SetRow(row: int) returns (r: int)
      requires Valid()
      modifies this
      ensures Valid() && crtCol == old(crtCol)
      ensures calls == old(calls) + Attempt(fails, |old(calls)|, if 1 <= row <= rows then [RowCmd(row)] else [])
      ensures r == (if 1 <= row <= rows && !fails(|old(calls)|) then 1 else -1)
      ensures errorFlag == (r == -1)
    {
      errorFlag := false;
      if row < 1 || row > rows {
        errorFlag := true;
        return -1;
      }
      var w := WriteByte(RowCmd(row));
      if w < 0 {
        errorFlag := true;
        return -1;
      }
      return 1;
    }

    /**
     * _setCol: `col` spaces from the cursor; the column becomes `col` on
     * success and 0 otherwise.
     */
    method SetCol(col: int) returns (r: int)
      requires Valid()
      modifies this
      ensures Valid()
      ensures calls == old(calls) + Attempt(fails, |old(calls)|, if 1 <= col <= cols then DataCmds(Spaces(col)) else [])
      ensures r == (if 1 <= col <= cols && AllOk(fails, |old(calls)|, col) then 1 else -1)
      ensures crtCol == (if r == 1 then col else 0) && errorFlag == (r == -1)
      ensures r == 1 ==> |calls| == |old(calls)| + col
    {
      errorFlag := false;
      crtCol := 0;
      if col < 1 || col > cols {
        errorFlag := true;
        return -1;
      }
      var ok := SendAll(DataCmds(Spaces(col)));
      if !ok {
        errorFlag := true;
        return -1;
      }
      crtCol := col;
      return 1;
    }

    /** offset: _setCol. */
    method Offset(col: int) returns (r: int)
      requires Valid()
      modifies this
      ensures Valid()
      ensures calls == old(calls) + Attempt(fails, |old(calls)|, if 1 <= col <= cols then DataCmds(Spaces(col)) else [])
      ensures r == (if 1 <= col <= cols && AllOk(fails, |old(calls)|, col) then 1 else -1)
      ensures crtCol == (if r == 1 then col else 0) && errorFlag == (r == -1)
    {
      r := SetCol(col);
    }

    /**
     * _print: the text cut to the rest of the line, then spaces up to the
     * end of the line (the pad loop as evidently intended; see
     * LineBytesAsWritten); the column is left as it was.
     */
    method PrintText(text: seq<bv8>) returns (r: int)
      requires Valid()
      modifies this
      ensures Valid() && crtCol == old(crtCol)
      ensures calls == old(calls) + Attempt(fails, |old(calls)|, DataCmds(LineBytes(text, cols, crtCol)))
      ensures r == (if AllOk(fails, |old(calls)|, cols - crtCol) then 1 else -1)
      ensures errorFlag == (r == -1)
    {
      errorFlag := false;
      var length := |text|;
      if length > cols - crtCol {
        length := cols - crtCol;
      }
      ghost var n := |calls|;
      ghost var c0 := calls;
      PrintTextSplit(fails, n, text, crtCol, length);
      var textCmds := DataCmds(text[..length]);
      ghost var a := Attempt(fails, n, textCmds);
      var ok := SendAll(textCmds);
      assert calls == c0 + a && ok == AllOk(fails, n, length);
      if ok {
        ghost var c1 := calls;
        assert |c1| == n + length;
        var padLength := cols - crtCol - length;
        var padCmds := DataCmds(Spaces(padLength));
        ghost var b := Attempt(fails, n + length, padCmds);
        ok := SendAll(padCmds);
        assert calls == c1 + b && ok == AllOk(fails, n + length, padLength);
        AppendAssoc(c0, a, b);
      }
      errorFlag := !ok;
      r := if ok then 1 else -1;
    }

    /** How _print's requests split into the text and the padding. */
    lemma PrintTextSplit(fails: nat -> bool, n: nat, text: seq<bv8>, crtCol: nat, length: nat)
      requires crtCol <= cols && length == Fit(|text|, cols - crtCol)
      ensures Attempt(fails, n, DataCmds(LineBytes(text, cols, crtCol)))
        == if !AllOk(fails, n, length) then Attempt(fails, n, DataCmds(text[..length]))
           else Attempt(fails, n, DataCmds(text[..length])) + Attempt(fails, n + length, DataCmds(Spaces(cols - crtCol - length)))
      ensures AllOk(fails, n, cols - crtCol) <==> AllOk(fails, n, length) && AllOk(fails, n + length, cols - crtCol - length)
    {
      DataCmdsAppend(text[..length], Spaces(cols - crtCol - length));
      AttemptAppend(fails, n, DataCmds(text[..length]), DataCmds(Spaces(cols - crtCol - length)));
      AllOkSplit(fails, n, length, cols - crtCol - length);
    }

    /** print(buffer, row): the row command, then the whole line from column 0. */
    method PrintRow(text: seq<bv8>, row: int) returns (r: int)
      requires Valid()
      modifies this
      ensures Valid()
      ensures calls == old(calls) + Attempt(fails, |old(calls)|, PrintRowCmds(text, row, rows, cols))
      ensures r == (if 1 <= row <= rows && AllOk(fails, |old(calls)|, 1 + cols) then 1 else -1)
      ensures crtCol == (if 1 <= row <= rows && !fails(|old(calls)|) then 0 else old(crtCol))
      ensures errorFlag == (r == -1)
    {
      ghost var n := |calls|;
      ghost var c0 := calls;
      errorFlag := false;
      var w := SetRow(row);
      if w < 0 {
        errorFlag := true;
        return -1;
      }
      PrintRowSplit(fails, n, text, row);
      ghost var c1 := calls;
      assert c1 == c0 + Attempt(fails, n, [RowCmd(row)]) && |c1| == n + 1;
      crtCol := 0;
      r := PrintText(text);
      AppendAssoc(c0, Attempt(fails, n, [RowCmd(row)]), Attempt(fails, n + 1, DataCmds(LineBytes(text, cols, 0))));
    }

    /** How print(buffer, row) splits into the row command and the line. */
    lemma PrintRowSplit(fails: nat -> bool, n: nat, text: seq<bv8>, row: int)
      requires rows <= |LCD_ROWS| && 1 <= row <= rows
      ensures Attempt(fails, n, PrintRowCmds(text, row, rows, cols))
        == if fails(n) then Attempt(fails, n, [RowCmd(row)])
           else Attempt(fails, n, [RowCmd(row)]) + Attempt(fails, n + 1, DataCmds(LineBytes(text, cols, 0)))
      ensures AllOk(fails, n, 1 + cols) <==> !fails(n) && AllOk(fails, n + 1, cols)
    {
      AttemptAppend(fails, n, [RowCmd(row)], DataCmds(LineBytes(text, cols, 0)));
      AllOkSplit(fails, n, 1, cols);
    }

    /** print(buffer): print on row 1. */
    method Print(text: seq<bv8>) returns (r: int)
      requires Valid()
      modifies this
      ensures Valid()
      ensures calls == old(calls) + Attempt(fails, |old(calls)|, PrintRowCmds(text, 1, rows, cols))
      ensures r == (if 1 <= rows && AllOk(fails, |old(calls)|, 1 + cols) then 1 else -1)
      ensures crtCol == (if 1 <= rows && !fails(|old(calls)|) then 0 else old(crtCol))
      ensures errorFlag == (r == -1)
    {
      r := PrintRow(text, 1);
    }

    /** print(buffer, row, col): the row command, `col` spaces, then the rest of the line. */
    method PrintAt(text: seq<bv8>, row: int, col: int) returns (r: int)
      requires Valid()
      modifies this
      ensures Valid()
      ensures calls == old(calls) + Attempt(fails, |old(calls)|, PrintAtCmds(text, row, col, rows, cols))
      ensures r == (if 1 <= row <= rows && 1 <= col <= cols && AllOk(fails, |old(calls)|, 1 + cols) then 1 else -1)
      ensures crtCol == (if !(1 <= row <= rows) || fails(|old(calls)|) then old(crtCol)
        else if 1 <= col <= cols && AllOk(fails, |old(calls)| + 1, col) then col else 0)
      ensures errorFlag == (r == -1)
    {
      ghost var n := |calls|;
      ghost var c0 := calls;
      errorFlag := false;
      var w := SetRow(row);
      if w < 0 {
        errorFlag := true;
        return -1;
      }
      PrintAtSplit(fails, n, text, row, col);
      ghost var c1 := calls;
      assert c1 == c0 + Attempt(fails, n, [RowCmd(row)]) && |c1| == n + 1;
      r := PrintColumn(text, col);
      AppendAssoc(c0, Attempt(fails, n, [RowCmd(row)]), Attempt(fails, n + 1, ColumnCmds(text, col, cols)));
    }

    /** What print(buffer, row, col) does once the row command is accepted: _setCol, then _print. */
    method PrintColumn(text: seq<bv8>, col: int) returns (r: int)
      requires Valid()
      modifies this
      ensures Valid()
      ensures calls == old(calls) + Attempt(fails, |old(calls)|, ColumnCmds(text, col, cols))
      ensures r == (if 1 <= col <= cols && AllOk(fails, |old(calls)|, cols) then 1 else -1)
      ensures crtCol == (if 1 <= col <= cols && AllOk(fails, |old(calls)|, col) then col else 0)
      ensures errorFlag == (r == -1)
    {
      ghost var n := |calls|;
      ghost var c0 := calls;
      var w := SetCol(col);
      if w < 0 {
        if 1 <= col <= cols {
          ColumnSplit(fails, n, text, col);
        }
        errorFlag := true;
        return -1;
      }
      ColumnSplit(fails, n, text, col);
      ghost var c1 := calls;
      assert |c1| == n + col;
      r := PrintText(text);
      AppendAssoc(c0, Attempt(fails, n, DataCmds(Spaces(col))), Attempt(fails, n + col, DataCmds(LineBytes(text, cols, col))));
    }

    /** How print(buffer, row, col) splits into the row command and the rest. */
    lemma PrintAtSplit(fails: nat -> bool, n: nat, text: seq<bv8>, row: int, col: int)
      requires rows <= |LCD_ROWS| && 1 <= row <= rows
      ensures Attempt(fails, n, PrintAtCmds(text, row, col, rows, cols))
        == if fails(n) then Attempt(fails, n, [RowCmd(row)])
           else Attempt(fails, n, [RowCmd(row)]) + Attempt(fails, n + 1, ColumnCmds(text, col, cols))
      ensures AllOk(fails, n, 1 + cols) <==> !fails(n) && AllOk(fails, n + 1, cols)
    {
      assert PrintAtCmds(text, row, col, rows, cols) == [RowCmd(row)] + ColumnCmds(text, col, cols);
      AttemptAppend(fails, n, [RowCmd(row)], ColumnCmds(text, col, cols));
      AllOkSplit(fails, n, 1, cols);
    }

    /** How the requests after the row command split into the spaces and the line. */
    lemma ColumnSplit(fails: nat -> bool, n: nat, text: seq<bv8>, col: int)
      requires 1 <= col <= cols
      ensures Attempt(fails, n, ColumnCmds(text, col, cols))
        == if !AllOk(fails, n, col) then Attempt(fails, n, DataCmds(Spaces(col)))
           else Attempt(fails, n, DataCmds(Spaces(col))) + Attempt(fails, n + col, DataCmds(LineBytes(text, cols, col)))
      ensures AllOk(fails, n, cols) <==> AllOk(fails, n, col) && AllOk(fails, n + col, cols - col)
    {
      DataCmdsAppend(Spaces(col), LineBytes(text, cols, col));
      AttemptAppend(fails, n, DataCmds(Spaces(col)), DataCmds(LineBytes(text, cols, col)));
      AllOkSplit(fails, n, col, cols - col);
    }

    /** init, as written: the six initialisation commands, and 1 whether or not the driver accepted them. */
    method InitAsWritten() returns (r: int)
      modifies this
      ensures calls == old(calls) + Attempt(fails, |old(calls)|, InitCmds())
      ensures r == 1
      ensures crtCol == old(crtCol) && errorFlag == old(errorFlag)
    {
      var ok := SendAll(InitCmds());
      return 1;
    }

    /** init: the six initialisation commands; -1 when the driver refuses one. The error flag is left alone. */
    method Init() returns (r: int)
      modifies this
      ensures calls == old(calls) + Attempt(fails, |old(calls)|, InitCmds())
      ensures r == (if AllOk(fails, |old(calls)|, |INIT_BYTES|) then 1 else -1)
      ensures crtCol == old(crtCol) && errorFlag == old(errorFlag)
    {
      var ok := SendAll(InitCmds());
      r := if ok then 1 else -1;
    }

    /** One command; -1 when the driver refuses it. */
    method Command(b: bv8) returns (r: int)
      modifies this
      ensures calls == old(calls) + [Call(Cmd(b, LCD_CMD), !fails(|old(calls)|))]
      ensures r == (if fails(|old(calls)|) then -1 else 1)
      ensures crtCol == old(crtCol) && errorFlag == (r == -1)
    {
      errorFlag := false;
      var w := WriteByte(Cmd(b, LCD_CMD));
      if w < 0 {
        errorFlag := true;
        return -1;
      }
      return 1;
    }

    /** clear: the clear-display command. */
    method Clear() returns (r: int)
      modifies this
      ensures calls == old(calls) + [Call(Cmd(LCD_CLEAR, LCD_CMD), !fails(|old(calls)|))]
      ensures r == (if fails(|old(calls)|) then -1 else 1)
      ensures crtCol == old(crtCol) && errorFlag == (r == -1)
    {
      r := Command(0x01);
    }

    /** controlDisplay: the display-control command with the requested bits. */
    method ControlDisplay(power: int, cursor: int, blink: int) returns (r: int)
      modifies this
      ensures calls == old(calls) + [Call(Cmd(ControlByte(power, cursor, blink), LCD_CMD), !fails(|old(calls)|))]
      ensures r == (if fails(|old(calls)|) then -1 else 1)
      ensures crtCol == old(crtCol) && errorFlag == (r == -1)
    {
      var ctrlByte := LCD_CTRL;
      if power != 0 {
        ctrlByte := ctrlByte | LCD_ONOFF;
      }
      if cursor != 0 {
        ctrlByte := ctrlByte | LCD_CURSOR;
      }
      if blink != 0 {
        ctrlByte := ctrlByte | LCD_BLINK;
      }
      r := Command(ctrlByte);
    }

    /** returnHome: the home command; the column becomes 0 only when it was accepted. */
    method ReturnHome() returns (r: int)
      requires Valid()
      modifies this
      ensures Valid()
      ensures calls == old(calls) + [Call(Cmd(LCD_HOME, LCD_CMD), !fails(|old(calls)|))]
      ensures r == (if fails(|old(calls)|) then -1 else 1)
      ensures crtCol == (if r == 1 then 0 else old(crtCol)) && errorFlag == (r == -1)
    {
      r := Command(LCD_HOME);
      if r == 1 {
        crtCol := 0;
      }
    }
  }
}
