// The older, monolithic SC16IS750 driver. Its GPIO methods, pollInt,
// read, readByte, rxAvailableData, txAvailableSpace, whichInt, softReset
// and setBaudRate run the same statements as the split driver, whose
// members model them; this module holds the methods that behave
// differently: initUART with an interrupt argument, an OR-ing
// setDataFormat, transmission that polls LSR, FIFO control by
// read-modify-write of the byte read at the FCR sub-address, trigger
// setters that rewrite the whole TLR byte, and an inverted isIntPending.
module Sc16Legacy {
  import opened Bytes
  import opened I2c
  import opened Sc16Registers
  import opened Sc16Bus
  import opened Sc16Encodings
  import opened Sc16Scripts
  import opened Sc16Uart
  import opened Sc16Gpio

  /**
   * initUART(value): MCR := 0x00 and LCR := 8N1, then inside the
   * enhanced-register window the upper nibble of `CONF_INT_DFLT | value`
   * at the IER sub-address, then EFR and LCR restored, then the lower
   * nibble to IER.
   */
  function InitScript(log: Log, lcr: bv8, efr: bv8, value: bv8): Log
  {
    Then(Leave(Then(Enter(Then(Then(log,
      Send(MCR, 0x00, true)),
      Send(LCR, UART_8N1, true)), lcr, efr),
      Send(IER, (CONF_INT_DFLT | value) & 0xF0, true)), lcr, efr),
      Send(IER, (CONF_INT_DFLT | value) & 0x0F, true))
  }

  /** The first two writes of initUART, made outside the enhanced bank, store MCR and LCR. */
  lemma InitLineEffect(f: Regs, log: Log)
    requires Replay(f, log).lcr != 0xBF
    ensures Replay(f, Then(Then(log, Send(MCR, 0x00, true)), Send(LCR, UART_8N1, true)))
      == Replay(f, log).(mcr := 0x00, lcr := UART_8N1)
  {
    assert Replay(f, Then(log, Send(MCR, 0x00, true))) == Replay(f, log).(mcr := 0x00);
  }

  /** initUART's window, entered from LCR = 8N1: the upper nibble reaches DLH, and EFR and LCR end as they were. */
  lemma InitWindowEffect(f: Regs, log: Log, h: Regs, value: bv8)
    requires Replay(f, log) == h && h.lcr == UART_8N1
    ensures Replay(f, Leave(Then(Enter(log, UART_8N1, h.efr), Send(IER, value & 0xF0, true)), UART_8N1, h.efr))
      == h.(dlh := value & 0xF0)
  {
    EnterEffect(f, log, h);
    var h4 := h.(lcr := 0xBF, efr := h.efr | 0x10);
    var e5 := Then(Enter(log, UART_8N1, h.efr), Send(IER, value & 0xF0, true));
    assert Replay(f, e5) == h4.(dlh := value & 0xF0);
    LeaveEffect(f, e5, h4.(dlh := value & 0xF0), UART_8N1, h.efr);
  }

  /**
   * From a state outside the enhanced bank, initUART clears MCR and sets
   * LCR to 8N1; the upper nibble, written while LCR is 0xBF, reaches DLH,
   * and IER ends holding only the lower nibble of `value`.
   */
  lemma InitEffect(f: Regs, log: Log, value: bv8)
    requires Replay(f, log).lcr != 0xBF
    ensures var h := Replay(f, log);
      Replay(f, InitScript(log, UART_8N1, h.efr, value))
        == h.(mcr := 0x00, lcr := UART_8N1, dlh := value & 0xF0, ier := value & 0x0F)
  {
    var h := Replay(f, log);
    var l2 := Then(Then(log, Send(MCR, 0x00, true)), Send(LCR, UART_8N1, true));
    var e7 := Leave(Then(Enter(l2, UART_8N1, h.efr), Send(IER, value & 0xF0, true)), UART_8N1, h.efr);
    assert InitScript(log, UART_8N1, h.efr, value) == Then(e7, Send(IER, value & 0x0F, true)) by {
      assert CONF_INT_DFLT | value == value;
    }
    var h2 := h.(mcr := 0x00, lcr := UART_8N1);
    InitLineEffect(f, log);
    InitWindowEffect(f, l2, h2, value);
    IerEffect(f, e7, h2.(dlh := value & 0xF0), value & 0x0F);
  }

  /** Outside the divisor latch, a write at the IER sub-address stores IER. */
  lemma IerEffect(f: Regs, log: Log, h: Regs, v: bv8)
    requires Replay(f, log) == h && !DivisorLatch(h.lcr)
    ensures Replay(f, Then(log, Send(IER, v, true))) == h.(ier := v)
  {
  }

  /**
   * setDataFormat ORs the format code into LCR: it selects the format asked
   * for exactly when the format bits of LCR (bits 4:0) start clear.
   */
  lemma FormatOr(lcr: bv8, f: Format)
    requires ValidFormat(f) && lcr & 0x1F == 0
    ensures DecodeFormat(lcr | FormatCode(f)) == f
  {
    var c := FormatCode(f);
    assert (lcr | c) & 0x03 == c & 0x03 && (lcr | c) & 0x04 == c & 0x04;
    assert (lcr | c) & 0x08 == c & 0x08 && (lcr | c) & 0x10 == c & 0x10;
    DecodeFormatCode(f);
  }

  /** From 8E1, asking for 8N1 leaves the line at 8E1: the parity bits cannot be cleared. */
  lemma FormatCannotClear()
    ensures DecodeFormat(UART_8E1 | UART_8N1) == Format(8, 1, Even)
    ensures FormatCode(Format(8, 1, NoParity)) == UART_8N1
  {
  }

  /** enableFifo's byte: bit 0 of the byte read, cleared (`value` 0) or set (`value` 1). */
  function FifoByte(read: bv8, on: bool): bv8
  {
    if on then read | 0x01 else read & !0x01
  }

  /** enableFifo changes bit 0 of the byte it read to the value asked for and keeps the other seven. */
  lemma FifoByteSpec(read: bv8, on: bool, j: nat)
    requires j < 8
    ensures Bit(FifoByte(read, on), j) == if j == 0 then on else Bit(read, j)
  {
    MaskIsShift(0);
    assert FifoByte(read, on) == WithBit(read, 0, on);
    WithBitSpec(read, 0, on, j);
  }

  /** The FIFO resets: the byte read with bit 1 (receive) or bit 2 (transmit) set. */
  function ResetByte(read: bv8, rx: bool): bv8
  {
    read | (if rx then 0x02 else 0x04)
  }

  /** A reset sets its own bit and keeps the other seven. */
  lemma ResetByteSpec(read: bv8, rx: bool, j: nat)
    requires j < 8
    ensures Bit(ResetByte(read, rx), j) == if j == (if rx then 1 else 2) then true else Bit(read, j)
  {
    var i := if rx then 1 else 2;
    MaskIsShift(i);
    assert ResetByte(read, rx) == WithBit(read, i, true);
    WithBitSpec(read, i, true, j);
  }

  /**
   * The trigger setters: set MCR[2] by read-modify-write, then inside the
   * enhanced-register window write the byte at the TLR sub-address, then
   * restore EFR and LCR.
   */
  function TriggerScript(log: Log, mcr: bv8, lcr: bv8, efr: bv8, tlr: bv8): Log
  {
    Leave(Then(Enter(Then(Then(log,
      Receive(MCR, mcr, true)),
      Send(MCR, mcr | 0x04, true)), lcr, efr),
      Send(TLR, tlr, true)), lcr, efr)
  }

  /**
   * From a state outside the enhanced bank, MCR[2] is left set, and the TLR
   * byte, written while LCR is 0xBF, reaches XOFF2; LCR and EFR end as they
   * were.
   */
  lemma TriggerEffect(f: Regs, log: Log, tlr: bv8)
    requires Replay(f, log).lcr != 0xBF
    ensures var h := Replay(f, log);
      Replay(f, TriggerScript(log, h.mcr, h.lcr, h.efr, tlr)) == h.(mcr := h.mcr | 0x04, xoff2 := tlr)
  {
    var h := Replay(f, log);
    var l2 := Then(Then(log, Receive(MCR, h.mcr, true)), Send(MCR, h.mcr | 0x04, true));
    var h2 := h.(mcr := h.mcr | 0x04);
    McrStep(f, log, h.mcr, h.mcr | 0x04);
    EnterEffect(f, l2, h2);
    var h4 := h2.(lcr := 0xBF, efr := h2.efr | 0x10);
    var e4 := Enter(l2, h.lcr, h.efr);
    Xoff2Step(f, e4, tlr);
    LeaveEffect(f, Then(e4, Send(TLR, tlr, true)), h4.(xoff2 := tlr), h.lcr, h.efr);
  }

  /** Outside the enhanced bank, reading MCR and writing it stores MCR and nothing else. */
  lemma McrStep(f: Regs, log: Log, x: bv8, v: bv8)
    requires Replay(f, log).lcr != 0xBF
    ensures Replay(f, Then(Then(log, Receive(MCR, x, true)), Send(MCR, v, true))) == Replay(f, log).(mcr := v)
  {
  }

  /** Inside the enhanced bank a write at the TLR sub-address stores XOFF2 and nothing else. */
  lemma Xoff2Step(f: Regs, log: Log, v: bv8)
    requires Replay(f, log).lcr == 0xBF
    ensures Replay(f, Then(log, Send(TLR, v, true))) == Replay(f, log).(xoff2 := v)
  {
  }

  /**
   * The byte rxFifoSetTriggerLevel writes is `(level / 4) << 4` truncated to
   * a byte, RxTlr over a TLR of 0: the transmit nibble is zeroed. After
   * txFifoSetTriggerLevel(16) wrote 0x04, rxFifoSetTriggerLevel(8) writes
   * 0x20, where the read-modify-write of the split driver writes 0x24.
   */
  lemma RxTriggerDropsTx()
    ensures TxTlr(0x00, 16) == 0x04
    ensures RxTlr(0x00, 8) == 0x20 && RxTlr(TxTlr(0x00, 16), 8) == 0x24
  {
  }

  /** For levels the driver documents (up to 60), each setter writes its own nibble and zeroes the other. */
  lemma TriggerBytes(level: nat)
    requires level <= 60
    ensures (RxTlr(0x00, level) >> 4) as nat == level / 4 && RxTlr(0x00, level) & 0x0F == 0
    ensures (TxTlr(0x00, level) & 0x0F) as nat == level / 4 && TxTlr(0x00, level) & 0xF0 == 0
  {
    RxTlrFields(0x00, level);
    TxTlrFields(0x00, level);
  }

  class Legacy {
    const uart: Uart
    const gpio: Gpio

    /** The legacy driver keeps the error flag and the callbacks in `uart`, and the IO latch in `gpio`. */
    constructor(oracle: Oracle)
      ensures fresh(gpio) && fresh(gpio.uart) && fresh(gpio.uart.i2c) && uart == gpio.uart
      ensures uart.i2c.oracle == oracle && uart.i2c.log == Empty
      ensures gpio.ioLatch == 0x00 && !gpio.hasIoIsr && uart.handlers == Handlers(false, false) && uart.events == []
    {
      var g := new Gpio(oracle, CONF_INT_DFLT, CONF_INT_DFLT, 0x00);
      gpio := g;
      uart := g.uart;
    }

    /** initUART(value): InitScript, stopping at the first transaction that fails. */
    method InitUart(value: bv8) returns (r: int)
      modifies uart, uart.i2c
      ensures uart.KeepsState()
      ensures r == 1 <==> !uart.errorFlag
      ensures r == 1 ==> uart.i2c.log == InitScript(old(uart.i2c.log),
        Next(uart.i2c.oracle, old(uart.i2c.log), 2), Next(uart.i2c.oracle, old(uart.i2c.log), 4), value)
      ensures r != 1 ==> r == -1 && FailedLast(uart.i2c.log)
    {
      uart.errorFlag := false;
      ghost var l0 := uart.i2c.log;
      var ok := uart.i2c.SendByte(MCR, 0x00);
      if !ok { uart.errorFlag := true; return -1; }
      ok := uart.i2c.SendByte(LCR, UART_8N1);
      if !ok { uart.errorFlag := true; return -1; }
      ghost var l2 := uart.i2c.log;
      assert Size(l2) == Size(l0) + 2;
      var lcr, efr;
      ok, lcr, efr := uart.EnterEnhanced();
      if !ok { uart.errorFlag := true; return -1; }
      assert lcr == Next(uart.i2c.oracle, l0, 2) && efr == Next(uart.i2c.oracle, l0, 4);
      assert uart.i2c.log == Enter(Then(Then(l0, Send(MCR, 0x00, true)), Send(LCR, UART_8N1, true)), lcr, efr);
      ok := uart.i2c.SendByte(IER, (CONF_INT_DFLT | value) & 0xF0);
      if !ok { uart.errorFlag := true; return -1; }
      ok := uart.LeaveEnhanced(lcr, efr);
      if !ok { uart.errorFlag := true; return -1; }
      ok := uart.i2c.SendByte(IER, (CONF_INT_DFLT | value) & 0x0F);
      if !ok { uart.errorFlag := true; return -1; }
      return 1;
    }

    /** setDataFormat: reads LCR and writes back `LCR | format`. */
    method SetDataFormat(format: bv8) returns (r: int)
      modifies uart, uart.i2c
      ensures uart.KeepsState()
      ensures r == 1 <==> !uart.errorFlag
      ensures r == 1 ==> uart.i2c.log == FormatScript(old(uart.i2c.log), Next(uart.i2c.oracle, old(uart.i2c.log), 0),
                                                      Next(uart.i2c.oracle, old(uart.i2c.log), 0) | format)
      ensures r != 1 ==> r == -1 && FailedLast(uart.i2c.log)
    {
      uart.errorFlag := false;
      var ok, lcr := uart.i2c.ReceiveByte(LCR);
      if !ok { uart.errorFlag := true; return -1; }
      ok := uart.i2c.SendByte(LCR, lcr | format);
      if !ok { uart.errorFlag := true; return -1; }
      return 1;
    }

    /**
     * The wait on the transmit holding register: LSR is read until a read
     * fails or returns LSR[5] (THR empty) set. It ends because the oracle
     * eventually answers so.
     */
    method AwaitThrEmpty() returns (ok: bool)
      requires LsrLive(uart.i2c.oracle)
      modifies uart.i2c
      ensures uart.i2c.log.Then? && uart.i2c.log.last.Receive? && uart.i2c.log.last.addr == LSR
      ensures ok == uart.i2c.log.last.ok
      ensures ok ==> uart.i2c.log.last.v & 0x20 != 0
      ensures Polled(uart.i2c.log.earlier, old(uart.i2c.log), LSR)
    {
      assert LsrReadyFrom(uart.i2c.oracle, Size(uart.i2c.log));
      ghost var j: nat :| Size(uart.i2c.log) <= j && LsrReady(uart.i2c.oracle, j);
      var lsr;
      ok, lsr := uart.i2c.ReceiveByte(LSR);
      while ok && lsr & 0x20 == 0
        invariant uart.i2c.log.Then? && uart.i2c.log.last == Receive(LSR, lsr, ok)
        invariant lsr == uart.i2c.oracle.sample(Size(uart.i2c.log) - 1, 0) && ok == !uart.i2c.oracle.fails(Size(uart.i2c.log) - 1)
        invariant Polled(uart.i2c.log.earlier, old(uart.i2c.log), LSR)
        invariant ok && lsr & 0x20 == 0 ==> Size(uart.i2c.log) <= j
        decreases j - Size(uart.i2c.log)
      {
        ok, lsr := uart.i2c.ReceiveByte(LSR);
      }
    }

    /**
     * writeByte: waits for LSR[5], then writes the byte to THR. A failed LSR
     * read returns -1 with nothing written; the byte goes out only right
     * after a read of LSR that reported THR empty.
     */
    method WriteByte(b: bv8) returns (r: int)
      requires LsrLive(uart.i2c.oracle)
      modifies uart, uart.i2c
      ensures uart.KeepsState()
      ensures r == 1 <==> !uart.errorFlag
      ensures r != 1 ==> r == -1
      ensures Sent(uart.i2c.log) == Sent(old(uart.i2c.log)) + (if r == 1 then [b] else [])
      ensures Written(uart.i2c.log) == Written(old(uart.i2c.log)) || Written(uart.i2c.log) == Written(old(uart.i2c.log)) + [b]
      ensures r == 1 ==>
        uart.i2c.log.last == Send(THR, b, true)
        && uart.i2c.log.earlier.Then? && uart.i2c.log.earlier.last.Receive? && uart.i2c.log.earlier.last.addr == LSR
        && uart.i2c.log.earlier.last.v & 0x20 != 0
    {
      uart.errorFlag := false;
      var ok := AwaitThrEmpty();
      PolledWritesNothing(uart.i2c.log.earlier, old(uart.i2c.log), LSR);
      if !ok {
        uart.errorFlag := true;
        return -1;
      }
      ok := uart.i2c.SendByte(THR, b);
      if ok {
        return 1;
      }
      uart.errorFlag := true;
      return -1;
    }

    /**
     * write: waits once for LSR[5], then sends the first `len` bytes of
     * `buffer` as bursts to THR, each no larger than the TXLVL read just
     * before it (waiting while TXLVL reads as no space, as writeByte of the
     * split driver does), and returns the bytes sent. A failed LSR read or a
     * failed burst returns -1.
     */
    method Write(buffer: seq<bv8>, len: nat) returns (r: int)
      requires len <= |buffer| && len < 0x1_0000_0000
      requires LsrLive(uart.i2c.oracle) && TxLive(uart.i2c.oracle)
      modifies uart, uart.i2c
      ensures uart.KeepsState()
      ensures r == -1 ==> uart.errorFlag && FailedLast(uart.i2c.log)
      ensures r != -1 ==> !uart.errorFlag && r == WriteCount(len)
      ensures r != -1 ==> Written(uart.i2c.log) == Written(old(uart.i2c.log)) + buffer[..r]
      ensures r != -1 ==> Sent(uart.i2c.log) == Sent(old(uart.i2c.log)) + buffer[..r]
      ensures r != -1 ==> exists ready: Log ::
        ready.Then? && ready.last.Receive? && ready.last.addr == LSR && ready.last.v & 0x20 != 0
        && Chunked(uart.i2c.log, ready)
    {
      uart.errorFlag := false;
      var ok := AwaitThrEmpty();
      PolledWritesNothing(uart.i2c.log.earlier, old(uart.i2c.log), LSR);
      if !ok {
        uart.errorFlag := true;
        return -1;
      }
      ghost var ready := uart.i2c.log;
      var len2send := Int32(len);
      var pos: nat := 0;
      while len2send > 0
        invariant pos <= WriteCount(len)
        invariant len2send > 0 ==> pos + len2send == WriteCount(len)
        invariant len2send <= 0 ==> pos == WriteCount(len)
        invariant uart.KeepsState() && !uart.errorFlag
        invariant Chunked(uart.i2c.log, ready)
        invariant Written(uart.i2c.log) == Written(old(uart.i2c.log)) + buffer[..pos]
        invariant Sent(uart.i2c.log) == Sent(old(uart.i2c.log)) + buffer[..pos]
        decreases len2send
      {
        var sent, writeLen := uart.FifoChunk(buffer, pos, len2send, ready);
        if !sent {
          uart.errorFlag := true;
          return -1;
        }
        PrefixGrows(Written(old(uart.i2c.log)), buffer, pos, writeLen);
        PrefixGrows(Sent(old(uart.i2c.log)), buffer, pos, writeLen);
        len2send := len2send - writeLen;
        pos := pos + writeLen;
      }
      return pos;
    }

    /**
     * enableFifo: reads the byte at the FCR sub-address; a `value` other
     * than 0 or 1 is refused after that read; otherwise writes the byte
     * back with bit 0 cleared or set.
     */
    method EnableFifo(value: int) returns (r: int)
      modifies uart, uart.i2c
      ensures uart.KeepsState()
      ensures r == 1 <==> !uart.errorFlag
      ensures r != 1 ==> r == -1
      ensures
        var k := Size(old(uart.i2c.log));
        var v := Next(uart.i2c.oracle, old(uart.i2c.log), 0);
        var first := Then(old(uart.i2c.log), Receive(FCR, v, !uart.i2c.oracle.fails(k)));
        if uart.i2c.oracle.fails(k) || !(value == 0 || value == 1) then
          r == -1 && uart.i2c.log == first
        else
          uart.i2c.log == Then(first, Send(FCR, FifoByte(v, value == 1), !uart.i2c.oracle.fails(k + 1)))
          && (r == 1 <==> !uart.i2c.oracle.fails(k + 1))
    {
      uart.errorFlag := false;
      var ok, v := uart.i2c.ReceiveByte(FCR);
      if !ok { uart.errorFlag := true; return -1; }
      var b: bv8;
      if value == 0 {
        b := v & !0x01;
      } else if value == 1 {
        b := v | 0x01;
      } else {
        uart.errorFlag := true;
        return -1;
      }
      ok := uart.i2c.SendByte(FCR, b);
      if !ok { uart.errorFlag := true; return -1; }
      return 1;
    }

    /** resetRxFifo (`rx`) and resetTxFifo: read the byte at the FCR sub-address and write it back with bit 1 or bit 2 set. */
    method ResetFifo(rx: bool) returns (r: int)
      modifies uart, uart.i2c
      ensures uart.KeepsState()
      ensures r == 1 <==> !uart.errorFlag
      ensures r != 1 ==> r == -1 && FailedLast(uart.i2c.log)
      ensures r == 1 ==>
        var v := Next(uart.i2c.oracle, old(uart.i2c.log), 0);
        uart.i2c.log == Then(Then(old(uart.i2c.log), Receive(FCR, v, true)), Send(FCR, ResetByte(v, rx), true))
    {
      uart.errorFlag := false;
      var ok, v := uart.i2c.ReceiveByte(FCR);
      if !ok { uart.errorFlag := true; return -1; }
      ok := uart.i2c.SendByte(FCR, ResetByte(v, rx));
      if !ok { uart.errorFlag := true; return -1; }
      return 1;
    }

    /** What the two trigger setters share once the level is accepted: TriggerScript with the TLR byte `tlr`. */
    method ProgramTrigger(tlr: bv8) returns (r: int)
      modifies uart, uart.i2c
      ensures uart.KeepsState()
      ensures r == 1 <==> !uart.errorFlag
      ensures r == 1 ==> uart.i2c.log == TriggerScript(old(uart.i2c.log), Next(uart.i2c.oracle, old(uart.i2c.log), 0),
        Next(uart.i2c.oracle, old(uart.i2c.log), 2), Next(uart.i2c.oracle, old(uart.i2c.log), 4), tlr)
      ensures r != 1 ==> r == -1 && FailedLast(uart.i2c.log)
    {
      uart.errorFlag := false;
      ghost var l0 := uart.i2c.log;
      var ok, mcr := uart.i2c.ReceiveByte(MCR);
      if !ok { uart.errorFlag := true; return -1; }
      ok := uart.i2c.SendByte(MCR, mcr | 0x04);
      if !ok { uart.errorFlag := true; return -1; }
      ghost var l2 := uart.i2c.log;
      assert Size(l2) == Size(l0) + 2;
      var lcr, efr;
      ok, lcr, efr := uart.EnterEnhanced();
      if !ok { uart.errorFlag := true; return -1; }
      assert lcr == Next(uart.i2c.oracle, l0, 2) && efr == Next(uart.i2c.oracle, l0, 4);
      assert uart.i2c.log == Enter(Then(Then(l0, Receive(MCR, mcr, true)), Send(MCR, mcr | 0x04, true)), lcr, efr);
      ok := uart.i2c.SendByte(TLR, tlr);
      if !ok { uart.errorFlag := true; return -1; }
      ok := uart.LeaveEnhanced(lcr, efr);
      if !ok { uart.errorFlag := true; return -1; }
      return 1;
    }

    /**
     * rxFifoSetTriggerLevel: refuses a level that is not a multiple of 4
     * before any bus traffic (its range test never holds), whatever the
     * FIFO mode; otherwise writes `(level / 4) << 4` as the whole byte at
     * the TLR sub-address inside the window, XOFF2 under the bank rules
     * (TriggerEffect).
     */
    method RxFifoSetTriggerLevel(level: nat) returns (r: int)
      modifies uart, uart.i2c
      ensures uart.KeepsState()
      ensures r == 1 <==> !uart.errorFlag
      ensures level % 4 != 0 ==> r == -1 && uart.i2c.log == old(uart.i2c.log)
      ensures r == 1 ==> level % 4 == 0 && uart.i2c.log == TriggerScript(old(uart.i2c.log), Next(uart.i2c.oracle, old(uart.i2c.log), 0),
        Next(uart.i2c.oracle, old(uart.i2c.log), 2), Next(uart.i2c.oracle, old(uart.i2c.log), 4), RxTlr(0x00, level))
      ensures r != 1 ==> r == -1 && (level % 4 == 0 ==> FailedLast(uart.i2c.log))
    {
      uart.errorFlag := false;
      if level % 4 != 0 {
        uart.errorFlag := true;
        return -1;
      }
      r := ProgramTrigger(RxTlr(0x00, level));
    }

    /** txFifoSetTriggerLevel: as rxFifoSetTriggerLevel, with `level / 4` as the whole byte at the TLR sub-address. */
    method TxFifoSetTriggerLevel(level: nat) returns (r: int)
      modifies uart, uart.i2c
      ensures uart.KeepsState()
      ensures r == 1 <==> !uart.errorFlag
      ensures level % 4 != 0 ==> r == -1 && uart.i2c.log == old(uart.i2c.log)
      ensures r == 1 ==> level % 4 == 0 && uart.i2c.log == TriggerScript(old(uart.i2c.log), Next(uart.i2c.oracle, old(uart.i2c.log), 0),
        Next(uart.i2c.oracle, old(uart.i2c.log), 2), Next(uart.i2c.oracle, old(uart.i2c.log), 4), TxTlr(0x00, level))
      ensures r != 1 ==> r == -1 && (level % 4 == 0 ==> FailedLast(uart.i2c.log))
    {
      uart.errorFlag := false;
      if level % 4 != 0 {
        uart.errorFlag := true;
        return -1;
      }
      r := ProgramTrigger(TxTlr(0x00, level));
    }

    /**
     * isIntPending as written: a successful IIR read returns -1 with the
     * error flag set; after a failed read the byte left in the buffer
     * decides, 0 when its bit 0 is set and -1 otherwise. It never reports a
     * pending interrupt.
     */
    method IsIntPending() returns (r: int)
      modifies uart, uart.i2c
      ensures uart.KeepsState()
      ensures
        var ok := !uart.i2c.oracle.fails(Size(old(uart.i2c.log)));
        var v := Next(uart.i2c.oracle, old(uart.i2c.log), 0);
        uart.i2c.log == Then(old(uart.i2c.log), Receive(IIR, v, ok))
        && r == (if ok || v & 0x01 == 0 then -1 else 0)
      ensures uart.errorFlag <==> r == -1
      ensures r != 1
    {
      uart.errorFlag := false;
      var ok, v := uart.i2c.ReceiveByte(IIR);
      if !ok {
        if v & 0x01 != 0 {
          return 0;
        } else {
          // The source's `else if (rxBuf[0] & 0x00)` is never true; only its error branch is left.
          uart.errorFlag := true;
          return -1;
        }
      }
      uart.errorFlag := true;
      return -1;
    }

    /** rxEmptyFifo: reads RXLVL and then asks RHR for that many bytes, even when it is 0 or the read failed (-1). */
    method RxEmptyFifo() returns (r: int)
      modifies uart, uart.i2c
      ensures uart.KeepsState()
      ensures
        var k := Size(old(uart.i2c.log));
        var lvl := Next(uart.i2c.oracle, old(uart.i2c.log), 0);
        var available := Level(!uart.i2c.oracle.fails(k), lvl);
        var ok := !uart.i2c.oracle.fails(k + 1);
        uart.i2c.log == Then(Then(old(uart.i2c.log), Receive(RXLVL, lvl, !uart.i2c.oracle.fails(k))),
                             ReceiveBlock(RHR, available, Sampled(uart.i2c.oracle, k + 1, Clamp(available)), ok))
        && r == (if ok then 1 else -1)
        && (uart.errorFlag <==> available < 0 || !ok)
    {
      uart.errorFlag := false;
      var available := uart.RxAvailableData();
      var ok, data := uart.i2c.ReceiveBurst(RHR, available);
      if !ok {
        uart.errorFlag := true;
        return -1;
      }
      return 1;
    }

    /**
     * init: softReset, initUART(CONF_INT_DFLT), initIO(CONF_IO_DFLT) and
     * enableFifo(1), ignoring what each returns; it returns 1.
     */
    method Init() returns (r: int)
      requires gpio.uart == uart
      modifies uart, uart.i2c
      ensures r == 1
      ensures uart.KeepsState()
    {
      var s := uart.SoftReset();
      s := InitUart(CONF_INT_DFLT);
      s := gpio.InitIO(CONF_IO_DFLT);
      s := EnableFifo(1);
      return 1;
    }
  }
}
