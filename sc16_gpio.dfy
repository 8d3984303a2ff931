// The GPIO half of the split SC16IS750 driver: eight I/O pins behind the
// IODIR, IOSTATE and IOINTEN registers, and a software latch `ioLatch` of
// the pin levels last seen, against which pin changes are detected. The
// class extends the UART driver, whose error flag, callbacks and events it
// shares; the model holds the UART as `uart`.
module Sc16Gpio {
  import opened Bytes
  import opened Gnublin
  import opened I2c
  import opened Sc16Registers
  import opened Sc16Bus
  import opened Sc16Encodings
  import opened Sc16Scripts
  import opened Sc16Uart

  /** Or-ing in `1 << pin` sets bit `pin`; and-ing with `~(0 << pin)` changes nothing. */
  lemma LatchShifts(latch: bv8, pin: nat)
    requires pin < 8
    ensures latch | ((1 as bv8) << pin) == SetBit(latch, pin)
    ensures latch & !((0 as bv8) << pin) == latch
  {
    MaskIsShift(pin);
  }

  /** The pins a read of IODIR or IOINTEN reports are the stored ones; a read of IOSTATE reports the pin levels. */
  lemma IoReads(h: Regs, hw: bv8)
    ensures ReadValue(h, IODIR, hw) == h.ioDir && ReadValue(h, IOINTEN, hw) == h.ioIntEn
    ensures ReadValue(h, IOSTATE, hw) == hw
  {
  }

  /** The GPIO register at one of the three pin sub-addresses. */
  function IoRegister(h: Regs, addr: nat): bv8
    requires addr == IODIR || addr == IOSTATE || addr == IOINTEN
  {
    if addr == IODIR then h.ioDir else if addr == IOSTATE then h.ioState else h.ioIntEn
  }

  /**
   * A read-modify-write of one pin (pinMode on IODIR, digitalWrite on
   * IOSTATE, pinIntEnable on IOINTEN) that read `cur` leaves bit `pin` of
   * the register equal to `v` and every other bit equal to the bit read,
   * and changes no other register.
   */
  lemma PinUpdateEffect(f: Regs, log: Log, addr: nat, cur: bv8, pin: nat, v: bool, j: nat)
    requires addr == IODIR || addr == IOSTATE || addr == IOINTEN
    requires pin < 8 && j < 8
    ensures var h := Replay(f, log);
      var after := Replay(f, Then(Then(log, Receive(addr, cur, true)), Send(addr, WithBit(cur, pin, v), true)));
      after == AfterSend(h, addr, WithBit(cur, pin, v))
      && Bit(IoRegister(after, addr), j) == (if j == pin then v else Bit(cur, j))
  {
    WithBitSpec(cur, pin, v, j);
  }

  /**
   * The pin-change callbacks pollInt makes for the flags `flags` among
   * pins 0 .. n-1, in ascending pin order, each with the level of its pin in
   * the latch `latch`.
   */
  function PinEvents(flags: bv8, latch: bv8, n: nat): (es: seq<Event>)
    requires n <= 8
    ensures |es| == CountBelow(flags, n)
  {
    if n == 0 then []
    else PinEvents(flags, latch, n - 1) + (if Bit(flags, n - 1) then [PinChanged(n - 1, PinLevel(latch, n - 1))] else [])
  }

  /** Pin `pin` adds one callback and one count when it is flagged, and nothing otherwise. */
  lemma PinEventsStep(flags: bv8, latch: bv8, pin: nat)
    requires pin < 8
    ensures PinEvents(flags, latch, pin + 1)
      == PinEvents(flags, latch, pin) + (if Bit(flags, pin) then [PinChanged(pin, PinLevel(latch, pin))] else [])
    ensures CountBelow(flags, pin + 1) == CountBelow(flags, pin) + (if Bit(flags, pin) then 1 else 0)
  {
  }

  /** Each callback names a flagged pin below `n` and its latched level. */
  lemma {:induction false} PinEventsFlagged(flags: bv8, latch: bv8, n: nat)
    requires n <= 8
    ensures forall e :: e in PinEvents(flags, latch, n) ==>
      e.PinChanged? && e.pin < n && Bit(flags, e.pin) && e.value == PinLevel(latch, e.pin)
  {
    if n > 0 {
      PinEventsFlagged(flags, latch, n - 1);
    }
  }

  /** A pin below `n` has a callback exactly when its flag is set. */
  lemma {:induction false} PinEventsComplete(flags: bv8, latch: bv8, n: nat)
    requires n <= 8
    ensures forall p :: 0 <= p < n ==> (Bit(flags, p) <==> PinChanged(p, PinLevel(latch, p)) in PinEvents(flags, latch, n))
  {
    if n > 0 {
      PinEventsComplete(flags, latch, n - 1);
      PinEventsFlagged(flags, latch, n - 1);
      var es := PinEvents(flags, latch, n - 1);
      var tail: seq<Event> := if Bit(flags, n - 1) then [PinChanged(n - 1, PinLevel(latch, n - 1))] else [];
      assert PinEvents(flags, latch, n) == es + tail;
      forall p | 0 <= p < n
        ensures Bit(flags, p) <==> PinChanged(p, PinLevel(latch, p)) in es + tail
      {
        var e := PinChanged(p, PinLevel(latch, p));
        if p < n - 1 {
          assert e !in tail;
          assert e in es + tail <==> e in es;
        } else {
          assert e !in es;
          assert e in es + tail <==> e in tail;
        }
      }
    }
  }

  /** The callbacks come in strictly ascending pin order. */
  lemma {:induction false} PinEventsAscending(flags: bv8, latch: bv8, n: nat)
    requires n <= 8
    ensures forall i, j :: 0 <= i < j < |PinEvents(flags, latch, n)| ==>
      PinEvents(flags, latch, n)[i].PinChanged? && PinEvents(flags, latch, n)[j].PinChanged? &&
      PinEvents(flags, latch, n)[i].pin < PinEvents(flags, latch, n)[j].pin
  {
    if n > 0 {
      PinEventsAscending(flags, latch, n - 1);
      PinEventsFlagged(flags, latch, n - 1);
      var es := PinEvents(flags, latch, n - 1);
      var tail: seq<Event> := if Bit(flags, n - 1) then [PinChanged(n - 1, PinLevel(latch, n - 1))] else [];
      var all := PinEvents(flags, latch, n);
      assert all == es + tail;
      forall i, j | 0 <= i < j < |all|
        ensures all[i].PinChanged? && all[j].PinChanged? && all[i].pin < all[j].pin
      {
        assert i < |es|;
        assert all[i] == es[i] && es[i] in es;
        if j < |es| {
          assert all[j] == es[j];
        } else {
          assert all[j] == tail[0];
        }
      }
    } else {
      assert PinEvents(flags, latch, n) == [];
    }
  }

  /** What readIntFlagPort returns, the latch it leaves, and the log after its reads. */
  datatype FlagRead = FlagRead(flags: bv8, latch: bv8, log: Log)

  /**
   * readIntFlagPort from the log `log` and the latch `latch`: it reads
   * IOSTATE, IODIR and IOINTEN, stopping at the first read that fails, and
   * returns IntFlags of the three against the latch, leaving the latch equal
   * to the IOSTATE read. A failed read returns `(unsigned char)-1`, 0xFF,
   * and leaves the latch as it was.
   */
  function ReadFlags(o: Oracle, log: Log, latch: bv8): (fr: FlagRead)
    ensures fr.log.Then? && Size(log) < Size(fr.log) <= Size(log) + 3
    ensures FailedLast(fr.log) ==> fr.flags == 0xFF && fr.latch == latch
    ensures !FailedLast(fr.log) ==> Size(fr.log) == Size(log) + 3 && fr.latch == Next(o, log, 0)
  {
    var k := Size(log);
    var l1 := Then(log, Receive(IOSTATE, Next(o, log, 0), !o.fails(k)));
    if o.fails(k) then FlagRead(0xFF, latch, l1)
    else
      var l2 := Then(l1, Receive(IODIR, Next(o, log, 1), !o.fails(k + 1)));
      if o.fails(k + 1) then FlagRead(0xFF, latch, l2)
      else
        var l3 := Then(l2, Receive(IOINTEN, Next(o, log, 2), !o.fails(k + 2)));
        if o.fails(k + 2) then FlagRead(0xFF, latch, l3)
        else FlagRead(IntFlags(Next(o, log, 0), latch, Next(o, log, 1), Next(o, log, 2)), Next(o, log, 0), l3)
  }

  /**
   * When the three reads succeed, a pin is flagged exactly when it is an
   * input with its interrupt enabled whose level differs from the latch;
   * when one fails, all eight pins are flagged.
   */
  lemma ReadFlagsSpec(o: Oracle, log: Log, latch: bv8, pin: nat)
    requires pin < 8
    ensures var fr := ReadFlags(o, log, latch);
      !FailedLast(fr.log) ==>
        (Bit(fr.flags, pin) <==>
          !Bit(Next(o, log, 1), pin) && Bit(Next(o, log, 2), pin) && Bit(Next(o, log, 0), pin) != Bit(latch, pin))
    ensures FailedLast(ReadFlags(o, log, latch).log) ==> Bit(ReadFlags(o, log, latch).flags, pin)
  {
    IntFlagsSpec(Next(o, log, 0), latch, Next(o, log, 1), Next(o, log, 2), pin);
  }

  /**
   * How pinIntEnable folds a pin's level into the latch: level 0 clears
   * `0 << pin`, which changes nothing; level 1 sets bit `pin`.
   */
  method LatchLevel(latch: bv8, pin: nat, level: int) returns (l: bv8)
    requires pin < 8 && (level == 0 || level == 1)
    ensures l == if level == 1 then SetBit(latch, pin) else latch
  {
    LatchShifts(latch, pin);
    if level == 0 {
      l := latch & !((0 as bv8) << pin);
    } else {
      l := latch | ((1 as bv8) << pin);
    }
  }


  /**
   * The transactions of the GPIO driver's received-data case after `log`:
   * the RXLVL read, then read() with that level as an `unsigned int`, a
   * failed read's -1 included.
   */
  function GpioDataLog(o: Oracle, log: Log): Log
  {
    ReadLog(o, RxLevelRead(o, log), Unsigned32(Level(!o.fails(Size(log)), Next(o, log, 0))))
  }

  /** The GPIO driver's received-data case only reads: no stored register changes, and nothing goes to THR. */
  lemma GpioDataOnlyReads(f: Regs, o: Oracle, log: Log)
    ensures Replay(f, GpioDataLog(o, log)) == Replay(f, log) && Written(GpioDataLog(o, log)) == Written(log)
  {
    var first := RxLevelRead(o, log);
    ReadOnlyStep(f, log, first.last);
    ReadLogOnlyReads(f, o, first, Unsigned32(Level(!o.fails(Size(log)), Next(o, log, 0))));
  }

  /**
   * Reading the flags a second time, with the pin levels unchanged, reports
   * no pin: the first read latched those levels.
   */
  lemma ReadFlagsTwice(o: Oracle, log: Log, latch: bv8)
    requires !FailedLast(ReadFlags(o, log, latch).log)
    requires var first := ReadFlags(o, log, latch);
      !FailedLast(ReadFlags(o, first.log, first.latch).log) && Next(o, first.log, 0) == Next(o, log, 0)
    ensures var first := ReadFlags(o, log, latch);
      ReadFlags(o, first.log, first.latch).flags == 0x00
  {
    var first := ReadFlags(o, log, latch);
    var s := Next(o, first.log, 0);
    IntFlagsSame(s, Next(o, first.log, 1), Next(o, first.log, 2));
  }

  class Gpio {
    const uart: Uart
    var ioLatch: bv8
    var hasIoIsr: bool

    /** The pin state the UART methods leave alone. */
    twostate predicate KeepsPins()
      reads this
    {
      ioLatch == old(ioLatch) && hasIoIsr == old(hasIoIsr)
    }

    constructor(oracle: Oracle, intNone: bv8, intDisabled: bv8, flowDisabled: bv8)
      ensures fresh(uart) && fresh(uart.i2c) && uart.i2c.oracle == oracle && uart.i2c.log == Empty
      ensures ioLatch == 0x00 && !hasIoIsr
      ensures uart.config == Config(0x00, 0) && uart.handlers == Handlers(false, false) && uart.events == []
    {
      uart := new Uart(oracle, intNone, intDisabled, flowDisabled);
      ioLatch := 0x00;
      hasIoIsr := false;
    }

    /** initIO: writes `CONF_IO_DFLT | value` to IOCTRL. */
    method InitIO(value: bv8) returns (r: int)
      modifies uart, uart.i2c
      ensures uart.KeepsState()
      ensures uart.i2c.log == Then(old(uart.i2c.log), Send(IOCTRL, CONF_IO_DFLT | value, r == 1))
      ensures r == 1 <==> !uart.i2c.oracle.fails(Size(old(uart.i2c.log)))
      ensures r != 1 ==> r == -1
      ensures uart.errorFlag <==> r == -1
    {
      uart.errorFlag := false;
      var ok := uart.i2c.SendByte(IOCTRL, CONF_IO_DFLT | value);
      if !ok {
        uart.errorFlag := true;
        return -1;
      }
      return 1;
    }

    /**
     * pinMode: rejects a pin outside 0 .. 7 without bus traffic; reads
     * IODIR, sets bit `pin` for OUTPUT or clears it for INPUT (any other
     * direction is rejected after the read), and writes IODIR back.
     */
    method PinMode(pin: int, direction: string) returns (r: int)
      modifies uart, uart.i2c
      ensures uart.KeepsState()
      ensures r == 1 || r == -1
      ensures uart.errorFlag <==> r == -1
      ensures !(0 <= pin < 8) ==> r == -1 && uart.i2c.log == old(uart.i2c.log)
      ensures 0 <= pin < 8 ==>
        var o := uart.i2c.oracle;
        var k := Size(old(uart.i2c.log));
        var dir := Next(o, old(uart.i2c.log), 0);
        var read := Then(old(uart.i2c.log), Receive(IODIR, dir, !o.fails(k)));
        if o.fails(k) || (direction != OUTPUT && direction != INPUT) then
          r == -1 && uart.i2c.log == read
        else
          uart.i2c.log == Then(read, Send(IODIR, WithBit(dir, pin, direction == OUTPUT), r == 1))
          && (r == 1 <==> !o.fails(k + 1))
    {
      uart.errorFlag := false;
      if pin < 0 || pin > 7 {
        uart.errorFlag := true;
        return -1;
      }
      var ok, dir := uart.i2c.ReceiveByte(IODIR);
      if !ok {
        uart.errorFlag := true;
        return -1;
      }
      var v: bv8;
      if direction == OUTPUT {
        v := SetBit(dir, pin);
      } else if direction == INPUT {
        v := ClearBit(dir, pin);
      } else {
        uart.errorFlag := true;
        return -1;
      }
      ok := uart.i2c.SendByte(IODIR, v);
      if !ok {
        uart.errorFlag := true;
        return -1;
      }
      return 1;
    }

    /** portMode: writes IODIR = 0xFF for OUTPUT and 0x00 for INPUT; any other direction is rejected without bus traffic. */
    method PortMode(direction: string) returns (r: int)
      modifies uart, uart.i2c
      ensures uart.KeepsState()
      ensures r == 1 || r == -1
      ensures uart.errorFlag <==> r == -1
      ensures direction != OUTPUT && direction != INPUT ==> r == -1 && uart.i2c.log == old(uart.i2c.log)
      ensures direction == OUTPUT || direction == INPUT ==>
        uart.i2c.log == Then(old(uart.i2c.log), Send(IODIR, if direction == OUTPUT then 0xFF else 0x00, r == 1))
        && (r == 1 <==> !uart.i2c.oracle.fails(Size(old(uart.i2c.log))))
    {
      uart.errorFlag := false;
      var v: bv8;
      if direction == OUTPUT {
        v := 0xFF;
      } else if direction == INPUT {
        v := 0x00;
      } else {
        uart.errorFlag := true;
        return -1;
      }
      var ok := uart.i2c.SendByte(IODIR, v);
      if !ok {
        uart.errorFlag := true;
        return -1;
      }
      return 1;
    }

    /**
     * digitalWrite: rejects a pin outside 0 .. 7 without bus traffic; reads
     * IOSTATE (the pin levels), clears bit `pin` for 0 or sets it for 1 (any
     * other value is rejected after the read), and writes the byte to
     * IOSTATE, so the other output bits take the levels just read.
     */
    method DigitalWrite(pin: int, value: int) returns (r: int)
      modifies uart, uart.i2c
      ensures uart.KeepsState()
      ensures r == 1 || r == -1
      ensures uart.errorFlag <==> r == -1
      ensures !(0 <= pin < 8) ==> r == -1 && uart.i2c.log == old(uart.i2c.log)
      ensures 0 <= pin < 8 ==>
        var o := uart.i2c.oracle;
        var k := Size(old(uart.i2c.log));
        var levels := Next(o, old(uart.i2c.log), 0);
        var read := Then(old(uart.i2c.log), Receive(IOSTATE, levels, !o.fails(k)));
        if o.fails(k) || (value != 0 && value != 1) then
          r == -1 && uart.i2c.log == read
        else
          uart.i2c.log == Then(read, Send(IOSTATE, WithBit(levels, pin, value == 1), r == 1))
          && (r == 1 <==> !o.fails(k + 1))
    {
      uart.errorFlag := false;
      if pin < 0 || pin > 7 {
        uart.errorFlag := true;
        return -1;
      }
      var ok, levels := uart.i2c.ReceiveByte(IOSTATE);
      if !ok {
        uart.errorFlag := true;
        return -1;
      }
      var v: bv8;
      if value == 0 {
        v := ClearBit(levels, pin);
      } else if value == 1 {
        v := SetBit(levels, pin);
      } else {
        uart.errorFlag := true;
        return -1;
      }
      ok := uart.i2c.SendByte(IOSTATE, v);
      if !ok {
        uart.errorFlag := true;
        return -1;
      }
      return 1;
    }

    /**
     * digitalRead: rejects a pin outside 0 .. 7 without bus traffic; reads
     * IOSTATE and returns the level of the pin, 0 or 1, or -1 when the read fails.
     */
    method DigitalRead(pin: int) returns (r: int)
      modifies uart, uart.i2c
      ensures uart.KeepsState()
      ensures uart.errorFlag <==> r == -1
      ensures !(0 <= pin < 8) ==> r == -1 && uart.i2c.log == old(uart.i2c.log)
      ensures 0 <= pin < 8 ==>
        var levels := Next(uart.i2c.oracle, old(uart.i2c.log), 0);
        var ok := !uart.i2c.oracle.fails(Size(old(uart.i2c.log)));
        uart.i2c.log == Then(old(uart.i2c.log), Receive(IOSTATE, levels, ok))
        && r == (if ok then PinLevel(levels, pin) else -1)
    {
      uart.errorFlag := false;
      if pin < 0 || pin > 7 {
        uart.errorFlag := true;
        return -1;
      }
      var ok, levels := uart.i2c.ReceiveByte(IOSTATE);
      if !ok {
        uart.errorFlag := true;
        return -1;
      }
      r := ShiftLevel(levels, pin);
    }

    /** readState: digitalRead under another name. */
    method ReadState(pin: int) returns (r: int)
      modifies uart, uart.i2c
      ensures uart.KeepsState()
      ensures r == -1 || r == 0 || r == 1
      ensures 0 <= pin < 8 && r != -1 ==>
        uart.i2c.log == Then(old(uart.i2c.log), Receive(IOSTATE, Next(uart.i2c.oracle, old(uart.i2c.log), 0), true))
        && r == PinLevel(Next(uart.i2c.oracle, old(uart.i2c.log), 0), pin)
    {
      r := DigitalRead(pin);
    }

    /** writePort: writes `value` to IOSTATE unchanged. */
    method WritePort(value: bv8) returns (r: int)
      modifies uart, uart.i2c
      ensures uart.KeepsState()
      ensures uart.i2c.log == Then(old(uart.i2c.log), Send(IOSTATE, value, r == 1))
      ensures r == 1 <==> !uart.i2c.oracle.fails(Size(old(uart.i2c.log)))
      ensures r != 1 ==> r == -1
      ensures uart.errorFlag <==> r == -1
    {
      uart.errorFlag := false;
      var ok := uart.i2c.SendByte(IOSTATE, value);
      if !ok {
        uart.errorFlag := true;
        return -1;
      }
      return 1;
    }

    /** readPort: the pin levels read from IOSTATE, or `(unsigned char)-1`, 0xFF, when the read fails. */
    method ReadPort() returns (r: bv8)
      modifies uart, uart.i2c
      ensures uart.KeepsState()
      ensures var ok := !uart.i2c.oracle.fails(Size(old(uart.i2c.log)));
        uart.i2c.log == Then(old(uart.i2c.log), Receive(IOSTATE, Next(uart.i2c.oracle, old(uart.i2c.log), 0), ok))
        && r == (if ok then Next(uart.i2c.oracle, old(uart.i2c.log), 0) else 0xFF)
        && (uart.errorFlag <==> !ok)
    {
      uart.errorFlag := false;
      var ok, v := uart.i2c.ReceiveByte(IOSTATE);
      if !ok {
        uart.errorFlag := true;
        return 0xFF;
      }
      return v;
    }

    /**
     * The first half of pinIntEnable: reads IOINTEN, clears bit `pin` for 0
     * or sets it for 1 (any other value is rejected after the read), and
     * writes IOINTEN back.
     */
    method SetPinIntEnable(pin: nat, value: int) returns (r: int)
      requires pin < 8
      modifies uart, uart.i2c
      ensures uart.KeepsState()
      ensures r == 1 || r == -1
      ensures uart.errorFlag <==> r == -1
      ensures
        var o := uart.i2c.oracle;
        var k := Size(old(uart.i2c.log));
        var en := Next(o, old(uart.i2c.log), 0);
        var read := Then(old(uart.i2c.log), Receive(IOINTEN, en, !o.fails(k)));
        if o.fails(k) || (value != 0 && value != 1) then
          r == -1 && uart.i2c.log == read
        else
          uart.i2c.log == Then(read, Send(IOINTEN, WithBit(en, pin, value == 1), r == 1))
          && (r == 1 <==> !o.fails(k + 1))
    {
      uart.errorFlag := false;
      var ok, en := uart.i2c.ReceiveByte(IOINTEN);
      if !ok {
        uart.errorFlag := true;
        return -1;
      }
      var v: bv8;
      if value == 0 {
        v := ClearBit(en, pin);
      } else if value == 1 {
        v := SetBit(en, pin);
      } else {
        uart.errorFlag := true;
        return -1;
      }
      ok := uart.i2c.SendByte(IOINTEN, v);
      if !ok {
        uart.errorFlag := true;
        return -1;
      }
      return 1;
    }

    /**
     * The second half of pinIntEnable: reads the pin with digitalRead; a pin
     * at 1 sets its latch bit, and a pin at 0 leaves the latch as it was,
     * since `~(0 << pin)` has every bit set.
     */
    method LatchPin(pin: nat) returns (r: int)
      requires pin < 8
      modifies this, uart, uart.i2c
      ensures uart.KeepsState() && hasIoIsr == old(hasIoIsr)
      ensures r == 1 || r == -1
      ensures uart.errorFlag <==> r == -1
      ensures
        var levels := Next(uart.i2c.oracle, old(uart.i2c.log), 0);
        var ok := !uart.i2c.oracle.fails(Size(old(uart.i2c.log)));
        uart.i2c.log == Then(old(uart.i2c.log), Receive(IOSTATE, levels, ok))
        && (r == 1 <==> ok)
      ensures r == 1 && Bit(Next(uart.i2c.oracle, old(uart.i2c.log), 0), pin) ==> ioLatch == SetBit(old(ioLatch), pin)
      ensures !(r == 1 && Bit(Next(uart.i2c.oracle, old(uart.i2c.log), 0), pin)) ==> ioLatch == old(ioLatch)
    {
      var pinState := DigitalRead(pin);
      if pinState == -1 {
        return -1;
      }
      ioLatch := LatchLevel(ioLatch, pin, pinState);
      return 1;
    }

    /**
     * pinIntEnable: rejects a pin outside 0 .. 7 without bus traffic, then
     * SetPinIntEnable and, when its write is acknowledged, LatchPin.
     */
    method PinIntEnable(pin: int, value: int) returns (r: int)
      modifies this, uart, uart.i2c
      ensures uart.KeepsState() && hasIoIsr == old(hasIoIsr)
      ensures r == 1 || r == -1
      ensures uart.errorFlag <==> r == -1
      ensures !(0 <= pin < 8) ==> r == -1 && uart.i2c.log == old(uart.i2c.log) && ioLatch == old(ioLatch)
      ensures 0 <= pin < 8 ==>
        var o := uart.i2c.oracle;
        var k := Size(old(uart.i2c.log));
        var en := Next(o, old(uart.i2c.log), 0);
        var read := Then(old(uart.i2c.log), Receive(IOINTEN, en, !o.fails(k)));
        var written := Then(read, Send(IOINTEN, WithBit(en, pin, value == 1), !o.fails(k + 1)));
        var levels := Next(o, old(uart.i2c.log), 2);
        if o.fails(k) || (value != 0 && value != 1) then
          r == -1 && uart.i2c.log == read && ioLatch == old(ioLatch)
        else if o.fails(k + 1) then
          r == -1 && uart.i2c.log == written && ioLatch == old(ioLatch)
        else
          uart.i2c.log == Then(written, Receive(IOSTATE, levels, !o.fails(k + 2)))
          && (r == 1 <==> !o.fails(k + 2))
          && ioLatch == (if r == 1 && Bit(levels, pin) then SetBit(old(ioLatch), pin) else old(ioLatch))
    {
      uart.errorFlag := false;
      if pin < 0 || pin > 7 {
        uart.errorFlag := true;
        return -1;
      }
      r := SetPinIntEnable(pin, value);
      if r < 0 {
        return -1;
      }
      r := LatchPin(pin);
    }

    /**
     * portIntEnable: writes IOINTEN = 0x00 for 0 and 0xFF for 1 (any other
     * value is rejected without bus traffic), then reloads the latch with
     * readPort, or sets it to 0 when that read fails.
     */
    method PortIntEnable(value: int) returns (r: int)
      modifies this, uart, uart.i2c
      ensures uart.KeepsState() && hasIoIsr == old(hasIoIsr)
      ensures r == 1 || r == -1
      ensures uart.errorFlag <==> r == -1
      ensures value != 0 && value != 1 ==> r == -1 && uart.i2c.log == old(uart.i2c.log) && ioLatch == old(ioLatch)
      ensures value == 0 || value == 1 ==>
        var o := uart.i2c.oracle;
        var k := Size(old(uart.i2c.log));
        var written := Then(old(uart.i2c.log), Send(IOINTEN, if value == 1 then 0xFF else 0x00, !o.fails(k)));
        if o.fails(k) then
          r == -1 && uart.i2c.log == written && ioLatch == old(ioLatch)
        else
          uart.i2c.log == Then(written, Receive(IOSTATE, Next(o, old(uart.i2c.log), 1), !o.fails(k + 1)))
          && (r == 1 <==> !o.fails(k + 1))
          && ioLatch == (if r == 1 then Next(o, old(uart.i2c.log), 1) else 0x00)
    {
      uart.errorFlag := false;
      var v: bv8;
      if value == 0 {
        v := 0x00;
      } else if value == 1 {
        v := 0xFF;
      } else {
        uart.errorFlag := true;
        return -1;
      }
      var ok := uart.i2c.SendByte(IOINTEN, v);
      if !ok {
        uart.errorFlag := true;
        return -1;
      }
      ioLatch := ReadPort();
      if uart.errorFlag {
        ioLatch := 0x00;
        return -1;
      }
      return 1;
    }

    /**
     * readIntFlagPort: the pins whose level changed since the latch was
     * taken, among the inputs with their interrupt enabled; the latch then
     * takes the levels read. ReadFlags states the result.
     */
    method ReadIntFlagPort() returns (r: bv8)
      modifies this, uart, uart.i2c
      ensures uart.KeepsState() && hasIoIsr == old(hasIoIsr)
      ensures var fr := ReadFlags(uart.i2c.oracle, old(uart.i2c.log), old(ioLatch));
        r == fr.flags && ioLatch == fr.latch && uart.i2c.log == fr.log
      ensures uart.errorFlag <==> FailedLast(uart.i2c.log)
    {
      uart.errorFlag := false;
      var state := ReadPort();
      if uart.errorFlag {
        return 0xFF;
      }
      var ok, dir := uart.i2c.ReceiveByte(IODIR);
      if !ok {
        uart.errorFlag := true;
        return 0xFF;
      }
      var en;
      ok, en := uart.i2c.ReceiveByte(IOINTEN);
      if !ok {
        uart.errorFlag := true;
        return 0xFF;
      }
      r := IntFlags(state, ioLatch, dir, en);
      ioLatch := state;
    }

    /**
     * The INT_PINS case of pollInt: reads the flags, makes one callback per
     * flagged pin in ascending order with that pin's level in the new latch
     * (when a callback is registered), counts the flagged pins, then reloads
     * the latch with readPort (0xFF when that read fails).
     */
    method NotifyPins() returns (count: int)
      modifies this, uart, uart.i2c
      ensures uart.config == old(uart.config) && uart.handlers == old(uart.handlers) && hasIoIsr == old(hasIoIsr)
      ensures var fr := ReadFlags(uart.i2c.oracle, old(uart.i2c.log), old(ioLatch));
        var ok := !uart.i2c.oracle.fails(Size(fr.log));
        count == PopCount(fr.flags)
        && uart.events == old(uart.events) + (if hasIoIsr then PinEvents(fr.flags, fr.latch, 8) else [])
        && uart.i2c.log == Then(fr.log, Receive(IOSTATE, Next(uart.i2c.oracle, fr.log, 0), ok))
        && ioLatch == (if ok then Next(uart.i2c.oracle, fr.log, 0) else 0xFF)
        && (uart.errorFlag <==> !ok)
    {
      var intFlags := ReadIntFlagPort();
      count := RaisePinEvents(intFlags, ioLatch);
      ioLatch := ReadPort();
    }

    /**
     * The loop of the INT_IO case over the eight pins: one count, and one
     * callback when a pin callback is registered, per flagged pin, with the
     * pin's level in `latch`.
     */
    method RaisePinEvents(flags: bv8, latch: bv8) returns (count: int)
      modifies uart`events
      ensures count == PopCount(flags)
      ensures uart.events == old(uart.events) + (if hasIoIsr then PinEvents(flags, latch, 8) else [])
    {
      count := 0;
      var pin := 0;
      while pin < 8
        invariant 0 <= pin <= 8
        invariant count == CountBelow(flags, pin)
        invariant uart.events == old(uart.events) + (if hasIoIsr then PinEvents(flags, latch, pin) else [])
      {
        PinEventsStep(flags, latch, pin);
        if Bit(flags, pin) {
          var value := ShiftLevel(latch, pin);
          if hasIoIsr {
            uart.events := uart.events + [PinChanged(pin, value)];
          }
          count := count + 1;
        }
        pin := pin + 1;
      }
    }

    /**
     * The INT_RHR case of pollInt with a data callback registered: reads
     * RXLVL, then read() with that level as an `unsigned int`, and raises
     * ReceivedEvent, with no check that any byte is waiting.
     */
    method DeliverData()
      modifies uart, uart.i2c
      ensures uart.config == old(uart.config) && uart.handlers == old(uart.handlers)
      ensures uart.events == old(uart.events) + [ReceivedEvent(uart.i2c.oracle, old(uart.i2c.log))]
      ensures uart.i2c.log == GpioDataLog(uart.i2c.oracle, old(uart.i2c.log))
      ensures uart.errorFlag <==> ReadFailed(uart.i2c.oracle, RxLevelRead(uart.i2c.oracle, old(uart.i2c.log)))
    {
      ghost var o := uart.i2c.oracle;
      ghost var k := Size(uart.i2c.log);
      ghost var first := RxLevelRead(o, old(uart.i2c.log));
      var available := uart.RxAvailableData();
      assert uart.i2c.log == first && available == Level(!o.fails(k), Next(o, old(uart.i2c.log), 0));
      var got, data := uart.Read(Unsigned32(available));
      assert uart.i2c.log == ReadLog(o, first, Unsigned32(available));
      if available >= 0 {
        ReceivedEventFrom(o, old(uart.i2c.log), available, data);
        uart.events := uart.events + [DataReceived(data + [0x00], available + 1)];
      } else {
        uart.events := uart.events + [DataReceived([], 0)];
      }
    }

    /**
     * pollInt of the GPIO driver: identifies the pending interrupt and acts
     * as GpioAction says. Received data raises ReceivedEvent (when a data
     * callback is registered) and returns 1; transmit space reports TXLVL
     * (when a space callback is registered) and returns 1; a pin change runs
     * NotifyPins and returns the number of flagged pins; the ignored
     * identifications return 0; a failed IIR read or an unknown
     * identification returns -1.
     */
    method PollInt() returns (r: int)
      modifies this, uart, uart.i2c
      ensures uart.config == old(uart.config) && uart.handlers == old(uart.handlers) && hasIoIsr == old(hasIoIsr)
      ensures
        var o := uart.i2c.oracle;
        var k := Size(old(uart.i2c.log));
        var iir := Next(o, old(uart.i2c.log), 0);
        var iirRead := Then(old(uart.i2c.log), Receive(IIR, iir, true));
        if o.fails(k) then
          r == -1 && uart.errorFlag && uart.events == old(uart.events) && ioLatch == old(ioLatch)
          && uart.i2c.log == Then(old(uart.i2c.log), Receive(IIR, iir, false))
        else match GpioAction(IntId(iir))
          case Reject =>
            r == -1 && uart.errorFlag && uart.events == old(uart.events) && ioLatch == old(ioLatch) && uart.i2c.log == iirRead
          case Ignore =>
            r == 0 && !uart.errorFlag && uart.events == old(uart.events) && ioLatch == old(ioLatch) && uart.i2c.log == iirRead
          case ReadData =>
            r == 1 && ioLatch == old(ioLatch) && uart.events == old(uart.events) + (
              if uart.handlers.dataReceived then [ReceivedEvent(o, iirRead)] else [])
            && uart.i2c.log == (if uart.handlers.dataReceived then GpioDataLog(o, iirRead) else iirRead)
            && (uart.errorFlag <==> uart.handlers.dataReceived && ReadFailed(o, RxLevelRead(o, iirRead)))
          case ReportSpace =>
            r == 1 && ioLatch == old(ioLatch) && uart.events == old(uart.events) + (
              if uart.handlers.spaceAvailable then [SpaceAvailable(Level(!o.fails(k + 1), Next(o, old(uart.i2c.log), 1)))] else [])
            && uart.i2c.log == (if uart.handlers.spaceAvailable then SpaceLog(o, iirRead) else iirRead)
            && (uart.errorFlag <==> uart.handlers.spaceAvailable && o.fails(k + 1))
          case ReportPins =>
            var fr := ReadFlags(o, iirRead, old(ioLatch));
            var ok := !o.fails(Size(fr.log));
            r == PopCount(fr.flags)
            && uart.events == old(uart.events) + (if hasIoIsr then PinEvents(fr.flags, fr.latch, 8) else [])
            && uart.i2c.log == Then(fr.log, Receive(IOSTATE, Next(o, fr.log, 0), ok))
            && ioLatch == (if ok then Next(o, fr.log, 0) else 0xFF)
            && (uart.errorFlag <==> !ok)
    {
      uart.errorFlag := false;
      var count := 0;
      var interrupt := uart.WhichInt();
      if interrupt == 0 {
        return interrupt;
      }
      if interrupt < 0 {
        return interrupt;
      }
      var action := GpioAction(interrupt);
      if action == ReadData {
        if uart.handlers.dataReceived {
          DeliverData();
        }
        count := count + 1;
      } else if action == ReportSpace {
        if uart.handlers.spaceAvailable {
          var available := uart.TxAvailableSpace();
          uart.events := uart.events + [SpaceAvailable(available)];
        }
        count := count + 1;
      } else if action == ReportPins {
        count := NotifyPins();
      } else if action == Reject {
        uart.errorFlag := true;
        return -1;
      }
      return count;
    }

    /** intIsrIO: registers (or, with `present` false, clears) the pin-change callback. */
    method IntIsrIO(present: bool) returns (r: int)
      modifies this
      ensures r == 1 && hasIoIsr == present && ioLatch == old(ioLatch)
    {
      hasIoIsr := present;
      return 1;
    }

    /**
     * init: soft reset, initUART, initIO(CONF_IO_DFLT), then FIFO mode 1;
     * it returns 1 whatever they return. The FCR shadow ends as 0x01, and
     * FIFO mode is 1 when the last write was acknowledged.
     */
    method Init() returns (r: int)
      modifies uart, uart.i2c
      ensures r == 1
      ensures uart.handlers == old(uart.handlers) && uart.events == old(uart.events)
      ensures uart.config.fcrRegister == 0x01
      ensures !uart.errorFlag ==> uart.config.fifoEnable == 1
    {
      var s := uart.SoftReset();
      s := uart.InitUart();
      s := InitIO(CONF_IO_DFLT);
      s := uart.EnableFifo(1);
      return 1;
    }
  }
}
